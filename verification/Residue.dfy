/** Arithmetic modulo a prime, as far as the Elligator2 map of section 6.7.1 of RFC 9380
    needs it: inverses, Euler's criterion, and that 2 is no square modulo a prime that
    leaves 5 when divided by 8. */
module Residues {
  import opened Base

  ghost predicate Prime(p: nat) { p >= 2 && forall d :: 2 <= d < p ==> p % d != 0 }

  function Power(x: nat, n: nat): nat { if n == 0 then 1 else x * Power(x, n - 1) }

  function Times(a: nat, b: nat, p: nat): (r: nat)
    requires p > 0
    ensures r < p
  {
    (a * b) % p
  }

  /** A non-zero residue that is the square of one. */
  ghost predicate Square(x: nat, p: nat)
    requires p > 0
  {
    exists b: nat :: 0 < b < p && Times(b, b, p) == x
  }

  // ---------------------------------------------------------------- remainders

  lemma ModUnique(a: int, m: int, q: int, r: int)
    requires m > 0 && a == q * m + r && 0 <= r < m
    ensures a % m == r
  {
    var d := a / m - q;
    assert (a / m) * m + a % m == a;
    assert d * m == r - a % m;
    Spread(d, m);
  }

  lemma Spread(d: int, m: int)
    requires m > 0
    ensures d >= 1 ==> d * m >= m
    ensures d <= -1 ==> d * m <= -m
  {
  }

  lemma ModTimes(a: nat, b: nat, m: nat)
    requires m > 0
    ensures Times(a % m, b % m, m) == Times(a, b, m)
  {
    var qa, ra, qb, rb := a / m, a % m, b / m, b % m;
    var q, r := (ra * rb) / m, (ra * rb) % m;
    assert a == qa * m + ra && b == qb * m + rb && ra * rb == q * m + r;
    assert a * b == (qa * b + ra * qb + q) * m + r by {
      assert a * b == qa * m * b + ra * b;
      assert ra * b == ra * (qb * m) + ra * rb;
      assert qa * m * b == (qa * b) * m;
      assert ra * (qb * m) == (ra * qb) * m;
    }
    ModUnique(a * b, m, qa * b + ra * qb + q, r);
  }

  lemma Small(a: nat, p: nat)
    requires a < p
    ensures a % p == a
  {
    ModUnique(a, p, 0, a);
  }

  lemma Associates(a: nat, b: nat, c: nat, p: nat)
    requires p > 0
    ensures Times(Times(a, b, p), c, p) == Times(a, Times(b, c, p), p)
  {
    ModTimes(a * b, c, p);
    ModTimes(Times(a, b, p), c, p);
    Small(Times(a, b, p), p);
    ModTimes(a, b * c, p);
    ModTimes(a, Times(b, c, p), p);
    Small(Times(b, c, p), p);
    assert a * b * c == a * (b * c);
  }

  lemma Commutes(a: nat, b: nat, p: nat)
    requires p > 0
    ensures Times(a, b, p) == Times(b, a, p)
  {
  }

  lemma {:induction false} PowerAdds(x: nat, a: nat, b: nat)
    ensures Power(x, a + b) == Power(x, a) * Power(x, b)
  {
    if a > 0 {
      PowerAdds(x, a - 1, b);
      assert Power(x, a + b) == x * (Power(x, a - 1) * Power(x, b)) == (x * Power(x, a - 1)) * Power(x, b);
    }
  }

  lemma Shuffle(a: nat, b: nat, c: nat, d: nat)
    ensures (a * b) * (c * d) == (a * c) * (b * d)
  {
    assert (a * b) * (c * d) == a * (b * (c * d));
    assert b * (c * d) == c * (b * d);
    assert a * (c * (b * d)) == (a * c) * (b * d);
  }

  lemma {:induction false} PowerOfProduct(x: nat, y: nat, n: nat)
    ensures Power(x * y, n) == Power(x, n) * Power(y, n)
  {
    if n > 0 {
      PowerOfProduct(x, y, n - 1);
      Shuffle(x, y, Power(x, n - 1), Power(y, n - 1));
    }
  }

  lemma {:induction false} PowerOfResidue(x: nat, n: nat, p: nat)
    requires p > 0
    ensures Power(x % p, n) % p == Power(x, n) % p
  {
    if n > 0 {
      PowerOfResidue(x, n - 1, p);
      ModTimes(x, Power(x, n - 1), p);
      ModTimes(x % p, Power(x % p, n - 1), p);
      assert x % p % p == x % p by { Small(x % p, p); }
    }
  }

  lemma PowerNext(x: nat, n: nat, p: nat)
    requires x < p
    ensures Power(x, n + 1) % p == Times(x, Power(x, n) % p, p)
  {
    ModTimes(x, Power(x, n), p);
    Small(x, p);
  }

  lemma {:induction false} PowerOfOne(n: nat)
    ensures Power(1, n) == 1
  {
    if n > 0 { PowerOfOne(n - 1); }
  }

  /** Powers of a product of residues. */
  lemma PowerTimes(x: nat, y: nat, n: nat, p: nat)
    requires p > 0
    ensures Power(Times(x, y, p), n) % p == Times(Power(x, n) % p, Power(y, n) % p, p)
  {
    PowerOfResidue(x * y, n, p);
    PowerOfProduct(x, y, n);
    ModTimes(Power(x, n), Power(y, n), p);
  }

  // ---------------------------------------------------------------- inverses

  /** The Euclidean algorithm, one division at a time. */
  lemma {:induction false} InverseExists(a: nat, p: nat) returns (b: nat)
    requires Prime(p) && 0 < a < p
    ensures 0 < b < p && Times(a, b, p) == 1
    decreases a
  {
    if a == 1 {
      b := 1;
      Small(1, p);
    } else {
      var q, r := p / a, p % a;
      var c := InverseExists(r, p);
      QuotientBound(p, a);
      b := ((p - q) * c) % p;
      OneDivision(a, p, q, r, c, (r * c) / p);
      ModUnique(a * ((p - q) * c), p, a * c - c + (r * c) / p, 1);
      ModTimes(a, (p - q) * c, p);
      Small(a, p);
      NotByZero(a, p);
    }
  }

  lemma OneDivision(a: nat, p: nat, q: nat, r: nat, c: nat, k: nat)
    requires p == q * a + r && r * c == k * p + 1 && q <= p
    ensures a * ((p - q) * c) == (a * c - c + k) * p + 1
  {
    assert a * ((p - q) * c) == (a * (p - q)) * c;
    assert a * (p - q) == a * p - q * a == a * p - p + r;
    assert (a * p - p + r) * c == (a * p) * c - p * c + r * c;
    assert (a * p) * c == (a * c) * p;
  }

  lemma NotByZero(a: nat, p: nat)
    requires p > 0
    ensures Times(a, 0, p) == 0
  {
  }

  lemma QuotientBound(p: nat, a: nat)
    requires a > 0
    ensures p == (p / a) * a + p % a && p / a <= p
  {
    var q := p / a;
    assert p == q * a + p % a;
    Grows(q, a);
  }

  lemma Grows(q: nat, a: nat)
    requires a > 0
    ensures q <= q * a
  {
    assert q * a == q * (a - 1) + q;
  }

  ghost function Inverse(a: nat, p: nat): (b: nat)
    requires Prime(p) && 0 < a < p
    ensures 0 < b < p && Times(a, b, p) == 1
  {
    assert exists b: nat :: 0 < b < p && Times(a, b, p) == 1 by { var b := InverseExists(a, p); }
    var b: nat :| 0 < b < p && Times(a, b, p) == 1;
    b
  }

  lemma Cancels(a: nat, b: nat, c: nat, p: nat)
    requires Prime(p) && 0 < a < p && b < p && c < p && Times(a, b, p) == Times(a, c, p)
    ensures b == c
  {
    hide Prime;
    var i := Inverse(a, p);
    Associates(i, a, b, p);
    Associates(i, a, c, p);
    Commutes(i, a, p);
    Small(b, p);
    Small(c, p);
  }

  lemma NoZeroDivisors(a: nat, b: nat, p: nat)
    requires Prime(p) && 0 < a < p && 0 < b < p
    ensures Times(a, b, p) != 0
  {
    if Times(a, b, p) == 0 {
      assert Times(a, 0, p) == 0;
      Cancels(a, b, 0, p);
    }
  }

  // ---------------------------------------------------------------- products over sets

  ghost function Product(s: set<nat>, p: nat): (r: nat)
    requires p > 1
    ensures r < p
  {
    if s == {} then 1
    else
      var a :| a in s;
      Times(a, Product(s - {a}, p), p)
  }

  lemma {:induction false} ProductTakes(s: set<nat>, a: nat, p: nat)
    requires p > 1 && a in s
    ensures Product(s, p) == Times(a, Product(s - {a}, p), p)
    decreases |s|
  {
    var first :| first in s && Product(s, p) == Times(first, Product(s - {first}, p), p);
    if first != a {
      ProductTakes(s - {first}, a, p);
      ProductTakes(s - {a}, first, p);
      assert s - {first} - {a} == s - {a} - {first};
      var rest := Product(s - {first} - {a}, p);
      Associates(first, a, rest, p);
      Associates(a, first, rest, p);
      Commutes(first, a, p);
    }
  }

  /** The partner of `a` whose product with it is `x`. */
  ghost function Partner(x: nat, a: nat, p: nat): (b: nat)
    requires Prime(p) && 0 < a < p && 0 < x < p
    ensures 0 < b < p && Times(a, b, p) == x
  {
    var i := Inverse(a, p);
    Associates(a, x, i, p);
    Associates(x, a, i, p);
    Commutes(a, x, p);
    Small(x, p);
    NoZeroDivisors(x, i, p);
    Times(x, i, p)
  }

  lemma PartnersMutual(x: nat, a: nat, p: nat)
    requires Prime(p) && 0 < a < p && 0 < x < p
    ensures Partner(x, Partner(x, a, p), p) == a
  {
    var b := Partner(x, a, p);
    Commutes(a, b, p);
    Cancels(b, Partner(x, b, p), a, p);
  }

  ghost predicate HasPartner(s: set<nat>, x: nat, p: nat, a: nat)
    requires Prime(p) && 0 < x < p
  {
    Unit(a, p) && Partner(x, a, p) in s && Partner(x, a, p) != a
  }

  ghost predicate PairsOff(s: set<nat>, x: nat, p: nat)
    requires Prime(p) && 0 < x < p
  {
    forall a | a in s :: HasPartner(s, x, p, a)
  }

  lemma RestPairs(s: set<nat>, x: nat, p: nat, a: nat) returns (b: nat)
    requires Prime(p) && 0 < x < p && PairsOff(s, x, p) && a in s
    ensures b in s - {a} && Times(a, b, p) == x && PairsOff(s - {a} - {b}, x, p) && |s - {a} - {b}| == |s| - 2
  {
    hide Prime, Times, HasPartner;
    b := PartnerOf(s, x, p, a);
    var rest := s - {a} - {b};
    forall c | c in rest ensures HasPartner(rest, x, p, c) { StillHasPartner(s, x, p, a, c); }
  }

  lemma PartnerOf(s: set<nat>, x: nat, p: nat, a: nat) returns (b: nat)
    requires Prime(p) && 0 < x < p && HasPartner(s, x, p, a)
    ensures Unit(a, p) && b == Partner(x, a, p) && b in s && b != a && Times(a, b, p) == x
  {
    b := Partner(x, a, p);
  }

  lemma StillHasPartner(s: set<nat>, x: nat, p: nat, a: nat, c: nat)
    requires Prime(p) && 0 < x < p && HasPartner(s, x, p, a) && HasPartner(s, x, p, c) && c != a
             && c != Partner(x, a, p)
    ensures HasPartner(s - {a} - {Partner(x, a, p)}, x, p, c)
  {
    PartnersMutual(x, a, p);
    PartnersMutual(x, c, p);
  }

  /** Elements that pair off to `x`, none with itself, multiply to a power of `x`. */
  lemma {:induction false} PairedProduct(s: set<nat>, x: nat, p: nat)
    requires Prime(p) && 0 < x < p && PairsOff(s, x, p)
    ensures |s| % 2 == 0 && Product(s, p) == Power(x, |s| / 2) % p
    decreases |s|
  {
    hide Prime, Times, PairsOff, Product, Power;
    if s == {} {
      ProductEmpty(x, p);
    } else {
      var a :| a in s;
      var b := RestPairs(s, x, p, a);
      var rest := s - {a} - {b};
      PairedProduct(rest, x, p);
      ProductTakes(s, a, p);
      ProductTakes(s - {a}, b, p);
      Associates(a, b, Product(rest, p), p);
      PowerNext(x, |rest| / 2, p);
    }
  }

  lemma ProductEmpty(x: nat, p: nat)
    requires p > 1
    ensures Product({}, p) == 1 == Power(x, 0) % p
  {
    Small(1, p);
  }

  // ---------------------------------------------------------------- Euler's criterion

  predicate Unit(a: nat, p: nat) { 0 < a < p }

  function Units(p: nat): set<nat> { set a: nat | a < p && Unit(a, p) }

  lemma {:induction false} UnitsCount(p: nat)
    requires p > 0
    ensures |Units(p)| == p - 1
  {
    if p == 1 {
      assert Units(p) == {};
    } else {
      UnitsCount(p - 1);
      assert Units(p) == Units(p - 1) + {p - 1};
    }
  }

  lemma OddPrime(p: nat)
    requires Prime(p) && p > 2
    ensures p % 2 == 1
  {
    assert p % 2 != 0;
  }

  lemma Nonsquares(x: nat, p: nat)
    requires Prime(p) && p > 2 && 0 < x < p && !Square(x, p)
    ensures Product(Units(p), p) == Power(x, (p - 1) / 2) % p
  {
    UnitsCount(p);
    forall a | a in Units(p) ensures HasPartner(Units(p), x, p, a) {
      assert Unit(Partner(x, a, p), p);
      assert Times(a, a, p) != x;
    }
    hide Prime, Square;
    PairedProduct(Units(p), x, p);
  }

  lemma Opposite(b: nat, p: nat)
    requires 0 < b < p
    ensures Times(p - b, p - b, p) == Times(b, b, p)
    ensures Times(b, p - b, p) == (p - Times(b, b, p)) % p
  {
    var k, x := (b * b) / p, Times(b, b, p);
    assert b * b == k * p + x;
    assert (p - b) * (p - b) == (p - 2 * b + k) * p + x;
    ModUnique((p - b) * (p - b), p, p - 2 * b + k, x);
    if x == 0 {
      assert b * (p - b) == (b - k) * p;
      ModUnique(b * (p - b), p, b - k, 0);
      ModUnique(p - x, p, 1, 0);
    } else {
      assert b * (p - b) == (b - k - 1) * p + (p - x);
      ModUnique(b * (p - b), p, b - k - 1, p - x);
      Small(p - x, p);
    }
  }

  /** A square has two roots. */
  lemma OnlyRoots(a: nat, b: nat, p: nat)
    requires Prime(p) && 0 < a < p && 0 < b < p && Times(a, a, p) == Times(b, b, p)
    ensures a == b || a == p - b
  {
    if a != b && a != p - b {
      var d, e := if a > b then a - b else b - a, if a + b < p then a + b else a + b - p;
      NoZeroDivisors(d, e, p);
      if a > b { RootsMeet(a, b, p); } else { RootsMeet(b, a, p); }
    }
  }

  lemma RootsMeet(a: nat, b: nat, p: nat)
    requires 0 < b < a < p && (a * a) % p == (b * b) % p
    ensures ((a - b) * (if a + b < p then a + b else a + b - p)) % p == 0
  {
    var s, d := if a + b < p then 0 else 1, a - b;
    var ka, kb := (a * a) / p, (b * b) / p;
    assert a * a == ka * p + (a * a) % p && b * b == kb * p + (b * b) % p;
    assert d * (a + b) == a * a - b * b == (ka - kb) * p;
    assert d * (s * p) == (d * s) * p;
    assert d * (a + b - s * p) == (ka - kb - d * s) * p;
    ModUnique(d * (a + b - s * p), p, ka - kb - d * s, 0);
  }

  lemma Squares(b: nat, p: nat)
    requires Prime(p) && p > 2 && 0 < b < p
    ensures var x := Times(b, b, p);
            Product(Units(p), p) == (p - Power(x, (p - 1) / 2) % p) % p && x != 0
  {
    hide Prime, Times, Product, Units, Power;
    OddPrime(p);
    var n := (p - 3) / 2;
    assert (p - 1) / 2 == n + 1;
    RootsAndRest(b, p, n);
  }

  lemma RootsAndRest(b: nat, p: nat, n: nat)
    requires Prime(p) && p == 2 * n + 3 && 0 < b < p
    ensures var x := Times(b, b, p);
            Product(Units(p), p) == (p - Power(x, n + 1) % p) % p && x != 0
  {
    hide Prime, Times, Product, Units, Power, PairsOff;
    var x, c := Times(b, b, p), p - b;
    NoZeroDivisors(b, b, p);
    AllButRoots(b, p);
    var s := Units(p) - {b} - {c};
    PairedProduct(s, x, p);
    ProductTakes(Units(p), b, p);
    ProductTakes(Units(p) - {b}, c, p);
    Associates(b, c, Product(s, p), p);
    Opposite(b, p);
    Small(p - x, p);
    PowerNext(x, n, p);
    NegativeTimes(x, Power(x, n) % p, p);
  }

  lemma AllButRoots(b: nat, p: nat)
    requires Prime(p) && p > 2 && 0 < b < p && Times(b, b, p) > 0
    ensures var s := Units(p) - {b} - {p - b};
            && b in Units(p) && p - b in Units(p) - {b}
            && |s| == p - 3 && PairsOff(s, Times(b, b, p), p)
  {
    hide Prime, Times;
    OddPrime(p);
    UnitsCount(p);
    var x, c := Times(b, b, p), p - b;
    var s := Units(p) - {b} - {c};
    assert Unit(b, p) && Unit(c, p);
    assert b != c;
    forall a | a in s ensures HasPartner(s, x, p, a) { StaysOut(a, b, p); }
  }

  /** Whoever is no root of x has a partner that is no root either. */
  lemma StaysOut(a: nat, b: nat, p: nat)
    requires Prime(p) && 0 < a < p && 0 < b < p && a != b && a != p - b && Times(b, b, p) > 0
    ensures var c := Partner(Times(b, b, p), a, p);
            c != a && c != b && c != p - b && Unit(c, p)
  {
    hide Prime, Times;
    var x := Times(b, b, p);
    Opposite(b, p);
    Cancels(b, Partner(x, b, p), b, p);
    Cancels(p - b, Partner(x, p - b, p), p - b, p);
    PartnersMutual(x, a, p);
    if Partner(x, a, p) == a { OnlyRoots(a, b, p); }
  }

  lemma NegativeTimes(x: nat, y: nat, p: nat)
    requires 0 < x < p && y < p
    ensures Times(p - x, y, p) == (p - Times(x, y, p)) % p
  {
    var k, z := (x * y) / p, Times(x, y, p);
    assert x * y == k * p + z;
    if z == 0 {
      assert (p - x) * y == (y - k) * p;
      ModUnique((p - x) * y, p, y - k, 0);
      ModUnique(p, p, 1, 0);
    } else {
      assert (p - x) * y == (y - k - 1) * p + (p - z);
      ModUnique((p - x) * y, p, y - k - 1, p - z);
      Small(p - z, p);
    }
  }

  /** Euler's criterion: the power (p - 1) / 2 tells squares from the rest. */
  lemma Euler(x: nat, p: nat)
    requires Prime(p) && p > 2 && 0 < x < p
    ensures Power(x, (p - 1) / 2) % p == if Square(x, p) then 1 else p - 1
  {
    Squares(1, p);
    Small(1, p);
    PowerOfOne((p - 1) / 2);
    Small(p - 1, p);
    assert Product(Units(p), p) == p - 1;
    if Square(x, p) {
      var b: nat :| 0 < b < p && Times(b, b, p) == x;
      Squares(b, p);
      var y := Power(x, (p - 1) / 2) % p;
      if y == 0 { ModUnique(p, p, 1, 0); } else { Small(p - y, p); }
    } else {
      Nonsquares(x, p);
    }
  }

  /** Fermat's little theorem, and the power p - 2 as the inverse. */
  lemma Fermat(x: nat, p: nat)
    requires Prime(p) && p > 2 && 0 < x < p
    ensures Power(x, p - 1) % p == 1 && Times(x, Power(x, p - 2) % p, p) == 1
  {
    OddPrime(p);
    Euler(x, p);
    hide Prime, Square;
    var n := (p - 1) / 2;
    PowerAdds(x, n, n);
    ModTimes(Power(x, n), Power(x, n), p);
    Small(1, p);
    Opposite(1, p);
    ModTimes(x, Power(x, p - 2), p);
    Small(x, p);
  }

  // ---------------------------------------------------------------- squares and non-squares

  lemma UnitSigns(p: nat)
    requires p > 2
    ensures Times(1, 1, p) == 1 && Times(p - 1, p - 1, p) == 1
    ensures Times(1, p - 1, p) == p - 1 && Times(p - 1, 1, p) == p - 1
  {
    Small(1, p);
    Small(p - 1, p);
    Opposite(1, p);
  }

  /** A product is a square exactly when both factors are, or neither is. */
  lemma SquaresMultiply(x: nat, y: nat, p: nat)
    requires Prime(p) && p > 2 && 0 < x < p && 0 < y < p
    ensures Times(x, y, p) > 0 && (Square(Times(x, y, p), p) <==> (Square(x, p) <==> Square(y, p)))
  {
    hide Prime, Square, Times, Power;
    NoZeroDivisors(x, y, p);
    Euler(x, p);
    Euler(y, p);
    Euler(Times(x, y, p), p);
    PowerTimes(x, y, (p - 1) / 2, p);
    UnitSigns(p);
  }

  lemma {:induction false} PowerOfMinusOne(m: nat, p: nat)
    requires p > 2
    ensures Power(p - 1, m) % p == if m % 2 == 0 then 1 else p - 1
  {
    hide Times;
    if m == 0 {
      Small(1, p);
    } else {
      PowerOfMinusOne(m - 1, p);
      PowerNext(p - 1, m - 1, p);
      UnitSigns(p);
    }
  }

  lemma {:induction false} PowerOfSquare(x: nat, m: nat)
    ensures Power(x, 2 * m) == Power(x * x, m)
  {
    if m > 0 {
      PowerOfSquare(x, m - 1);
      assert Power(x, 2 * m) == x * Power(x, 2 * m - 1) == x * (x * Power(x, 2 * m - 2));
      assert x * (x * Power(x, 2 * m - 2)) == (x * x) * Power(x, 2 * (m - 1));
    }
  }

  lemma MinusOneIsSquare(p: nat)
    requires Prime(p) && p > 2 && p % 4 == 1
    ensures Square(p - 1, p)
  {
    hide Prime, Square, Power;
    Euler(p - 1, p);
    PowerOfMinusOne((p - 1) / 2, p);
  }

  /** A square root of -1 is itself a square only modulo primes that leave 1 when divided
      by 8. */
  lemma RootOfMinusOne(i: nat, p: nat)
    requires Prime(p) && p % 8 == 5 && 0 < i < p && Times(i, i, p) == p - 1
    ensures !Square(i, p)
  {
    hide Prime, Square, Power, Times;
    var m := (p - 1) / 4;
    assert (p - 1) / 2 == 2 * m && m % 2 == 1;
    Euler(i, p);
    PowerOfRoot(i, m, p);
    PowerOfMinusOne(m, p);
  }

  lemma PowerOfRoot(i: nat, m: nat, p: nat)
    requires p > 0
    ensures Power(i, 2 * m) % p == Power(Times(i, i, p), m) % p
  {
    hide Power;
    PowerOfSquare(i, m);
    PowerOfResidue(i * i, m, p);
  }

  lemma OnePlusRoot(i: nat, p: nat)
    requires 0 < i < p - 1 && p > 2 && Times(i, i, p) == p - 1
    ensures Times(1 + i, 1 + i, p) == Times(2, i, p)
  {
    var k, j := (i * i) / p, (2 * i) / p;
    assert i * i == k * p + (p - 1);
    assert 2 * i == j * p + Times(2, i, p);
    assert (1 + i) * (1 + i) == 1 + 2 * i + i * i == (j + k + 1) * p + Times(2, i, p);
    ModUnique((1 + i) * (1 + i), p, j + k + 1, Times(2, i, p));
  }

  lemma TwoIsNoSquare(p: nat)
    requires Prime(p) && p % 8 == 5
    ensures !Square(2, p)
  {
    MinusOneIsSquare(p);
    var i: nat :| 0 < i < p && Times(i, i, p) == p - 1;
    UnitSigns(p);
    hide Times;
    RootOfMinusOne(i, p);
    OnePlusRoot(i, p);
    assert Square(Times(2, i, p), p);
    hide Prime, Square;
    SquaresMultiply(2, i, p);
  }
}
