/** The Elligator2 map of section 6.7.1 of RFC 9380 as src/cpace/field.rs computes it, and
    that every representative is mapped to a u-coordinate of Curve25519. */
module Elligator {
  import opened Base
  import opened Residues
  import opened Field

  const CURVE_A: Fe := 486_662
  const CURVE_A_OVER_TWO: Fe := 243_331

  /** The last line of the map: v when epsilon is 1, and -v - A when it is -1. */
  function Select(epsilon: Fe, v: Fe): Fe { Sub(Mul(epsilon, v), Mul(Sub(1, epsilon), CURVE_A_OVER_TWO)) }

  lemma SelectChooses(v: Fe)
    ensures Select(1, v) == v
    ensures Select(PRIME - 1, v) == Sub(Neg(v), CURVE_A)
  {
    Small(v, PRIME);
    MinusOneNegates(v);
    Constants();
    hide Times;
    assert Sub(v, 0) == v;
  }

  lemma Constants()
    ensures Sub(1, 1) == 0 && Sub(1, PRIME - 1) == 2
    ensures Mul(0, CURVE_A_OVER_TWO) == 0 && Mul(2, CURVE_A_OVER_TWO) == CURVE_A
  {
  }

  lemma MinusOneNegates(v: Fe)
    ensures Mul(PRIME - 1, v) == Neg(v)
  {
    if v == 0 {
    } else {
      assert (PRIME - 1) * v == (v - 1) * PRIME + (PRIME - v);
      ModUnique((PRIME - 1) * v, PRIME, v - 1, PRIME - v);
    }
  }

  function Denominator(r: Fe): Fe { Add(1, Mul(Add(1, 1), Mul(r, r))) }

  /** -A / (1 + 2 r^2), the first candidate. */
  function Candidate(r: Fe): Fe { Mul(Neg(CURVE_A), Power(Denominator(r), PRIME - 2) % PRIME) }

  /** v^3 + A v^2 + v */
  function CurveValue(v: Fe): Fe { Mul(v, Add(Add(Mul(v, v), Mul(CURVE_A, v)), 1)) }

  /** Euler's criterion: 1 for a square, -1 for a non-square. */
  function Epsilon(v: Fe): Fe { Power(CurveValue(v), (PRIME - 1) / 2) % PRIME }

  /** What the program computes from a representative. */
  function Map(r: Fe): Fe { Select(Epsilon(Candidate(r)), Candidate(r)) }

  /** Some point of the curve has this u-coordinate. */
  ghost predicate OnCurve(u: Fe) { exists w: Fe :: Mul(w, w) == CurveValue(u) }

  method MapToCurve(r: Fe) returns (u: Fe)
    ensures u == Map(r)
    ensures Prime(PRIME) ==> OnCurve(u)
  {
    hide Mul, Add, Sub, Neg, Power, LittleEndian, OnCurve, Prime;
    if Prime(PRIME) { MapLandsOnCurve(r); }
    var denominator := Denominator(r);
    var inverse := Invert(denominator);
    var v := Mul(Neg(CURVE_A), inverse);
    var equation := Mul(v, Add(Add(Mul(v, v), Mul(CURVE_A, v)), 1));
    ExponentsAre();
    var epsilon := Pow(equation, P_MINUS_ONE_OVER_TWO);
    u := Sub(Mul(epsilon, v), Mul(Sub(1, epsilon), CURVE_A_OVER_TWO));
  }

  // ---------------------------------------------------------------- polynomials modulo p

  function Cubic(x: int, a: int): int { x * (x * x + a * x + 1) }

  lemma Shifts(a: int, b: int, k: int, p: int)
    requires p > 0 && a == b + k * p
    ensures a % p == b % p
  {
    assert b == (b / p) * p + b % p;
    assert a == (b / p + k) * p + b % p;
    ModUnique(a, p, b / p + k, b % p);
  }

  lemma CubicValue(v: nat, a: nat, p: nat)
    requires p > 0
    ensures Times(v, (((Times(v, v, p) + Times(a, v, p)) % p) + 1) % p, p) == Cubic(v, a) % p
  {
    var x, y := Times(v, v, p), Times(a, v, p);
    var kx, ky := (v * v) / p, (a * v) / p;
    assert v * v == kx * p + x && a * v == ky * p + y;
    var g := v * v + a * v + 1;
    var s := (x + y) % p;
    assert s == x + y - ((x + y) / p) * p;
    Shifts(g, s + 1, kx + ky + (x + y) / p, p);
    ModTimes(v, g, p);
    ModTimes(v, (s + 1) % p, p);
    Small((s + 1) % p, p);
  }

  lemma CubicOfSum(x: int, d: int, a: int)
    ensures Cubic(x + d, a) == Cubic(x, a) + d * (3 * (x * x) + 3 * (x * d) + d * d + 2 * (a * x) + a * d + 1)
  {
    var y, s := x + d, x * x;
    var q := x * d;
    assert y * y == s + 2 * q + d * d;
    assert a * y == a * x + a * d;
    var g, h := s + a * x + 1, 2 * q + d * d + a * d;
    assert y * y + a * y + 1 == g + h;
    assert y * (g + h) == x * g + x * h + d * g + d * h;
    assert x * h == d * (2 * s + q + a * x) by {
      assert x * (2 * q) == d * (2 * s);
      assert x * (d * d) == d * q;
      assert x * (a * d) == d * (a * x);
    }
    assert d * h + d * g + d * (2 * s + q + a * x) == d * (h + g + 2 * s + q + a * x);
  }

  lemma CubicShift(x: int, y: int, m: int, a: int, p: int)
    requires p > 0 && y == x + m * p
    ensures Cubic(y, a) % p == Cubic(x, a) % p
  {
    var d := m * p;
    CubicOfSum(x, d, a);
    var c := 3 * (x * x) + 3 * (x * d) + d * d + 2 * (a * x) + a * d + 1;
    hide Cubic;
    assert d * c == (m * c) * p;
    Shifts(Cubic(y, a), Cubic(x, a), m * c, p);
  }

  /** The other candidate's curve value is 2 r^2 times the first one's. */
  lemma OtherCubic(v: int, r: int, a: int, k: int, p: int)
    requires p > 0 && (1 + 2 * (r * r)) * v + a == k * p
    ensures Cubic(-v - a, a) % p == (2 * (r * r) * Cubic(v, a)) % p
  {
    var g, w, t := v * v + a * v + 1, -v - a, 2 * (r * r);
    assert w * w + a * w == w * (w + a) == (-v - a) * (-v) == v * v + a * v;
    assert Cubic(w, a) == w * g && Cubic(v, a) == v * g;
    assert w == t * v - k * p;
    assert w * g == (t * v) * g - (k * p) * g;
    assert (t * v) * g == t * (v * g);
    assert (k * p) * g == (k * g) * p;
    Shifts(t * (v * g), w * g, k * g, p);
  }

  /** A zero of v^2 + A v + 1 makes A^2 - 4 a square. */
  lemma QuadraticZero(v: int, a: int, k: int, p: int)
    requires p > 0 && v * v + a * v + 1 == k * p
    ensures ((2 * v + a) * (2 * v + a)) % p == (a * a - 4) % p
  {
    var z := 2 * v + a;
    assert z * z == 4 * (v * v) + 4 * (a * v) + a * a;
    assert z * z == a * a - 4 + (4 * k) * p;
    Shifts(z * z, a * a - 4, 4 * k, p);
  }

  // ---------------------------------------------------------------- Curve25519

  lemma PrimeShape()
    ensures PRIME % 8 == 5 && PRIME > 2
  {
  }

  lemma MinusA(v: Fe) returns (m: int)
    ensures Sub(Neg(v), CURVE_A) == (0 - v - CURVE_A) + m * PRIME
  {
    var n := if v == 0 then 0 else 1;
    assert Neg(v) == (0 - v) + n * PRIME;
    var s := Neg(v) + PRIME - CURVE_A;
    m := n + 1 - s / PRIME;
    assert s % PRIME == s - (s / PRIME) * PRIME;
  }

  /** 1 + 2 r^2 never vanishes: -1/2 is no square. */
  lemma DenominatorIsUnit(r: Fe)
    requires Prime(PRIME)
    ensures Denominator(r) != 0
  {
    hide Prime, Times, Square;
    PrimeShape();
    var x := Mul(r, r);
    var y := Mul(2, x);
    if Denominator(r) == 0 {
      assert y == PRIME - 1 by { SumIsZero(y); }
      if r == 0 {
        ZeroProducts();
      } else {
        NoZeroDivisors(r, r, PRIME);
        RootSquares(r, PRIME);
        TwoIsNoSquare(PRIME);
        MinusOneIsSquare(PRIME);
        SquaresMultiply(2, x, PRIME);
      }
    }
  }

  lemma SumIsZero(y: Fe)
    requires Add(1, y) == 0
    ensures y == PRIME - 1
  {
    if y < PRIME - 1 { Small(1 + y, PRIME); }
  }

  lemma ZeroProducts()
    ensures Mul(0, 0) == 0 && Mul(2, 0) == 0 && Add(1, 0) == 1
  {
  }

  lemma RootSquares(b: nat, p: nat)
    requires 0 < b < p
    ensures Square(Times(b, b, p), p)
  {
  }

  /** The first candidate times its denominator is -A, so it is not zero. */
  lemma CandidateEquation(r: Fe)
    requires Prime(PRIME)
    ensures Mul(Candidate(r), Denominator(r)) == Neg(CURVE_A) && Candidate(r) != 0
  {
    hide Prime, Times, Power;
    DenominatorIsUnit(r);
    PrimeShape();
    var d := Denominator(r);
    var i := Power(d, PRIME - 2) % PRIME;
    Fermat(d, PRIME);
    Associates(Neg(CURVE_A), i, d, PRIME);
    Commutes(i, d, PRIME);
    NegA();
    if Candidate(r) == 0 { ZeroTimes(d); }
  }

  lemma NegA()
    ensures Times(Neg(CURVE_A), 1, PRIME) == Neg(CURVE_A) == PRIME - CURVE_A
  {
    Small(PRIME - CURVE_A, PRIME);
  }

  lemma ZeroTimes(d: Fe)
    ensures Mul(0, d) == 0
  {
  }

  /** The same over the integers. */
  lemma CandidateInteger(r: Fe) returns (k: int)
    requires Prime(PRIME)
    ensures (1 + 2 * (r * r)) * Candidate(r) + CURVE_A == k * PRIME
  {
    CandidateEquation(r);
    NegA();
    var v, d := Candidate(r), Denominator(r);
    var m := DenominatorInteger(r);
    hide Candidate, Denominator, Prime, Neg, Times;
    var q := Quotient(v, d, PRIME);
    k := q + 1 + m * v;
    Distributes(1 + 2 * (r * r), v, d, m, q, PRIME, CURVE_A);
  }

  lemma Quotient(a: nat, b: nat, p: nat) returns (q: nat)
    requires p > 0
    ensures a * b == q * p + Times(a, b, p)
  {
    q := (a * b) / p;
  }

  lemma Distributes(n: int, v: int, d: int, m: int, q: int, p: int, a: int)
    requires n == d + m * p && v * d == q * p + (p - a)
    ensures n * v + a == (q + 1 + m * v) * p
  {
    assert n * v == d * v + (m * p) * v;
    assert (m * p) * v == (m * v) * p;
  }

  lemma DenominatorInteger(r: Fe) returns (m: int)
    ensures 1 + 2 * (r * r) == Denominator(r) + m * PRIME
  {
    var x := Mul(r, r);
    var y := Mul(2, x);
    assert r * r == ((r * r) / PRIME) * PRIME + x;
    assert 2 * x == ((2 * x) / PRIME) * PRIME + y;
    assert 1 + y == ((1 + y) / PRIME) * PRIME + Add(1, y);
    m := 2 * ((r * r) / PRIME) + (2 * x) / PRIME + (1 + y) / PRIME;
  }

  const ROOT: nat := 45629216922889440547185313171005308639961417566985686110801643095085438093874

  /** A^2 - 4 is no square, since twice it is one: here is a root. */
  lemma DiscriminantIsNoSquare()
    requires Prime(PRIME)
    ensures !Square(CURVE_A * CURVE_A - 4, PRIME)
  {
    hide Prime;
    PrimeShape();
    var x := CURVE_A * CURVE_A - 4;
    assert x == 236_839_902_240;
    TwoIsNoSquare(PRIME);
    assert Times(ROOT, ROOT, PRIME) == 473_679_804_480;
    RootSquares(ROOT, PRIME);
    Small(2 * x, PRIME);
    hide Square, Times;
    SquaresMultiply(2, x, PRIME);
  }

  /** The curve value of the first candidate never vanishes. */
  lemma ValueIsUnit(r: Fe)
    requires Prime(PRIME)
    ensures CurveValue(Candidate(r)) != 0
  {
    hide Prime, Square, Candidate;
    CandidateEquation(r);
    var v := Candidate(r);
    var g: nat := v * v + CURVE_A * v + 1;
    if g % PRIME == 0 {
      assert g == (g / PRIME) * PRIME;
      QuadraticZero(v, CURVE_A, g / PRIME, PRIME);
      DiscriminantRoot(v);
      DiscriminantIsNoSquare();
      assert false;
    }
    CubicValue(v, CURVE_A, PRIME);
    ModTimes(v, g, PRIME);
    Small(v, PRIME);
    NoZeroDivisors(v, g % PRIME, PRIME);
  }

  lemma DiscriminantRoot(v: nat)
    requires ((2 * v + CURVE_A) * (2 * v + CURVE_A)) % PRIME == (CURVE_A * CURVE_A - 4) % PRIME
    ensures Square(CURVE_A * CURVE_A - 4, PRIME)
  {
    var z := 2 * v + CURVE_A;
    assert CURVE_A * CURVE_A - 4 == 236_839_902_240;
    Small(236_839_902_240, PRIME);
    ModTimes(z, z, PRIME);
    if z % PRIME == 0 { NotByZero(0, PRIME); }
    RootSquares(z % PRIME, PRIME);
  }

  lemma OtherValue(r: Fe)
    requires Prime(PRIME)
    ensures CurveValue(Sub(Neg(Candidate(r)), CURVE_A)) == Mul(Mul(2, Mul(r, r)), CurveValue(Candidate(r)))
  {
    hide Prime, Candidate, Neg, Sub, Times, Cubic;
    var v := Candidate(r);
    var k := CandidateInteger(r);
    var m := MinusA(v);
    var w := Sub(Neg(v), CURVE_A);
    CubicValue(v, CURVE_A, PRIME);
    CubicValue(w, CURVE_A, PRIME);
    hide CurveValue;
    CubicShift(0 - v - CURVE_A, w, m, CURVE_A, PRIME);
    OtherCubic(v, r, CURVE_A, k, PRIME);
    CubicIsNat(v, CURVE_A);
    TwiceSquareTimes(r, Cubic(v, CURVE_A));
  }

  lemma CubicIsNat(v: nat, a: nat)
    ensures Cubic(v, a) >= 0
  {
  }

  lemma TwiceSquareTimes(r: Fe, c: nat)
    ensures Mul(Mul(2, Mul(r, r)), c % PRIME) == (2 * (r * r) * c) % PRIME
  {
    ModTimes(2, r * r, PRIME);
    Small(2, PRIME);
    ModTimes(2 * (r * r), c, PRIME);
    ModTimes(Mul(2, Mul(r, r)), c % PRIME, PRIME);
    Small(Mul(2, Mul(r, r)), PRIME);
    Small(c % PRIME, PRIME);
  }

  /** The map yields the first candidate when its curve value is a square and the other
      one, -v - A, when it is not. */
  lemma MapChoosesCandidate(r: Fe)
    requires Prime(PRIME)
    ensures var v := Candidate(r);
            Map(r) == if Square(CurveValue(v), PRIME) then v else Sub(Neg(v), CURVE_A)
  {
    hide Candidate, Prime, Square, Power, CurveValue;
    var v := Candidate(r);
    PrimeShape();
    ValueIsUnit(r);
    Euler(CurveValue(v), PRIME);
    SelectChooses(v);
  }

  lemma SquareIsOnCurve(u: Fe)
    requires Square(CurveValue(u), PRIME)
    ensures OnCurve(u)
  {
    hide CurveValue, Times;
    var b: nat :| 0 < b < PRIME && Times(b, b, PRIME) == CurveValue(u);
    var w: Fe := b;
    assert Mul(w, w) == CurveValue(u);
  }

  /** Every representative is mapped to the u-coordinate of a point of the curve. */
  lemma MapLandsOnCurve(r: Fe)
    requires Prime(PRIME)
    ensures OnCurve(Map(r))
  {
    hide Candidate, Prime, Power, CurveValue, Times, Map, Square;
    var v := Candidate(r);
    PrimeShape();
    MapChoosesCandidate(r);
    ValueIsUnit(r);
    if Square(CurveValue(v), PRIME) {
      SquareIsOnCurve(v);
    } else {
      OtherValue(r);
      if r == 0 {
        ZeroProducts();
        ZeroTimes(CurveValue(v));
        assert Mul(0, 0) == CurveValue(Map(r));
      } else {
        var x := Mul(r, r);
        NoZeroDivisors(r, r, PRIME);
        RootSquares(r, PRIME);
        TwoIsNoSquare(PRIME);
        SquaresMultiply(2, x, PRIME);
        SquaresMultiply(Mul(2, x), CurveValue(v), PRIME);
        SquareIsOnCurve(Map(r));
      }
    }
  }
}
