/** Arithmetic modulo 2^255 - 19 (src/cpace/field.rs): square-and-multiply over a
    little-endian exponent and its two constants. Field elements are residues; the limb
    representation is not modelled. */
module Field {
  import opened Base
  import opened Octets
  import opened Residues

  /** 2^255 - 19 */
  const PRIME: nat := 57896044618658097711785492504343953926634992332820282019728792003956564819949

  type Fe = n: nat | n < PRIME

  function Mul(a: Fe, b: Fe): Fe { Times(a, b, PRIME) }
  function Add(a: Fe, b: Fe): Fe { (a + b) % PRIME }
  function Neg(a: Fe): Fe { (PRIME - a) % PRIME }
  function Sub(a: Fe, b: Fe): Fe { (a + PRIME - b) % PRIME }

  /** The number the octets write, least significant first. */
  function LittleEndian(s: Bytes): nat { if s == [] then 0 else s[0] + 256 * LittleEndian(s[1..]) }

  const P_MINUS_TWO: Bytes :=
    [0xeb, 0xff, 0xff, 0xff, 0xff, 0xff, 0xff, 0xff, 0xff, 0xff, 0xff, 0xff, 0xff, 0xff, 0xff, 0xff,
     0xff, 0xff, 0xff, 0xff, 0xff, 0xff, 0xff, 0xff, 0xff, 0xff, 0xff, 0xff, 0xff, 0xff, 0xff, 0x7f]

  const P_MINUS_ONE_OVER_TWO: Bytes :=
    [0xf6, 0xff, 0xff, 0xff, 0xff, 0xff, 0xff, 0xff, 0xff, 0xff, 0xff, 0xff, 0xff, 0xff, 0xff, 0xff,
     0xff, 0xff, 0xff, 0xff, 0xff, 0xff, 0xff, 0xff, 0xff, 0xff, 0xff, 0xff, 0xff, 0xff, 0xff, 0x3f]

  /** `n` octets of ones and one more on top. */
  function Ones(n: nat, top: u8): Bytes { if n == 0 then [top] else [0xff] + Ones(n - 1, top) }

  lemma {:induction false} OnesValue(n: nat, top: u8)
    ensures LittleEndian(Ones(n, top)) == Pow256(n) * (top + 1) - 1
  {
    if n > 0 {
      OnesValue(n - 1, top);
      assert Ones(n, top)[1..] == Ones(n - 1, top);
      assert Pow256(n) * (top + 1) == 256 * (Pow256(n - 1) * (top + 1));
    } else {
      assert [top][1..] == [] && LittleEndian([]) == 0;
    }
  }

  lemma {:induction false} Pow256Adds(a: nat, b: nat)
    ensures Pow256(a + b) == Pow256(a) * Pow256(b)
  {
    if a > 0 {
      Pow256Adds(a - 1, b);
      assert Pow256(a + b) == 256 * (Pow256(a - 1) * Pow256(b)) == (256 * Pow256(a - 1)) * Pow256(b);
    }
  }

  lemma Pow256Of30()
    ensures 256 * Pow256(30) * 128 == PRIME + 19
  {
    Widths();
    Pow256Adds(8, 8);
    Pow256Adds(16, 8);
    Pow256Adds(24, 4);
    Pow256Adds(28, 2);
  }

  lemma {:induction false} OnesAt(n: nat, top: u8, i: nat)
    requires i <= n
    ensures |Ones(n, top)| == n + 1 && Ones(n, top)[i] == if i < n then 0xff else top
  {
    if n > 0 { OnesAt(n - 1, top, if i > 0 then i - 1 else 0); }
  }

  /** A low octet, thirty ones and a top octet. */
  lemma LowOnesTop(low: u8, top: u8, s: Bytes)
    requires |s| == 32 && s[0] == low && s[31] == top && forall i :: 0 < i < 31 ==> s[i] == 0xff
    ensures LittleEndian(s) == low + 256 * (Pow256(30) * (top + 1) - 1)
  {
    forall i | 0 <= i < 31 ensures |Ones(30, top)| == 31 && s[1..][i] == Ones(30, top)[i] { OnesAt(30, top, i); }
    OnesAt(30, top, 0);
    assert s[1..] == Ones(30, top);
    OnesValue(30, top);
  }

  /** The two exponents are p - 2 and (p - 1) / 2. */
  lemma ExponentsAre()
    ensures LittleEndian(P_MINUS_TWO) == PRIME - 2
    ensures 2 * LittleEndian(P_MINUS_ONE_OVER_TWO) == PRIME - 1
  {
    hide LittleEndian, Pow256;
    Pow256Of30();
    LowOnesTop(0xeb, 0x7f, P_MINUS_TWO);
    LowOnesTop(0xf6, 0x3f, P_MINUS_ONE_OVER_TWO);
  }

  // ---------------------------------------------------------------- residues

  /** Squaring a residue doubles the exponent, multiplying by the base adds one. */
  lemma SquareDoubles(x: Fe, n: nat)
    ensures Mul(Power(x, n) % PRIME, Power(x, n) % PRIME) == Power(x, 2 * n) % PRIME
    ensures Mul(Power(x, n) % PRIME, x) == Power(x, n + 1) % PRIME
  {
    ModTimes(Power(x, n), Power(x, n), PRIME);
    PowerAdds(x, n, n);
    ModTimes(Power(x, n), x, PRIME);
    assert x % PRIME == x by { ModUnique(x, PRIME, 0, x); }
  }

  // ---------------------------------------------------------------- square and multiply

  function Shifted(n: nat, bits: nat): nat { if bits == 0 then n else Shifted(n / 2, bits - 1) }

  lemma {:induction false} ShiftedStep(n: nat, bit: nat)
    ensures Shifted(n, bit) == 2 * Shifted(n, bit + 1) + BitOf(n, bit)
  {
    if bit > 0 { ShiftedStep(n / 2, bit - 1); }
  }

  lemma {:induction false} ShiftedBound(n: nat, bits: nat)
    ensures Shifted(n, bits) * Pow2(bits) <= n
  {
    if bits > 0 {
      ShiftedBound(n / 2, bits - 1);
      assert Shifted(n, bits) * Pow2(bits) == 2 * (Shifted(n / 2, bits - 1) * Pow2(bits - 1));
    }
  }

  lemma OctetShiftsOut(n: u8)
    ensures Shifted(n, 8) == 0 && Pow2(8) == 256
  {
    assert Pow2(4) == 16 && Pow2(6) == 64;
    ShiftedBound(n, 8);
  }

  /** Horner form: the octets from the top down to `i`. */
  lemma HighPart(s: Bytes, i: nat)
    requires i < |s|
    ensures LittleEndian(s[i..]) == 256 * LittleEndian(s[i + 1..]) + s[i]
  {
    assert s[i..][1..] == s[i + 1..];
  }

  /** `pow`: for every base and every exponent, the power modulo 2^255 - 19. */
  method Pow(x: Fe, exponent: Bytes) returns (result: Fe)
    ensures result == Power(x, LittleEndian(exponent)) % PRIME
  {
    result := 1;
    var i := |exponent|;
    assert exponent[i..] == [];
    while i > 0
      invariant 0 <= i <= |exponent|
      invariant result == Power(x, LittleEndian(exponent[i..])) % PRIME
    {
      i := i - 1;
      ghost var high := LittleEndian(exponent[i + 1..]);
      HighPart(exponent, i);
      result := PowOctet(x, exponent[i], result, high);
    }
    assert exponent[0..] == exponent;
  }

  /** The inner loop: eight bits of one octet, most significant first. */
  method PowOctet(x: Fe, octet: u8, start: Fe, ghost high: nat) returns (result: Fe)
    requires start == Power(x, high) % PRIME
    ensures result == Power(x, 256 * high + octet) % PRIME
  {
    result := start;
    OctetShiftsOut(octet);
    hide Power, Mul, Shifted, BitOf, Pow2;
    Pow2Step(0, high);
    ghost var n, top := high, high;
    var bit := 8;
    while bit > 0
      invariant 0 <= bit <= 8
      invariant n == top + Shifted(octet, bit) && top == Pow2(8 - bit) * high
      invariant result == Power(x, n) % PRIME
    {
      bit := bit - 1;
      ShiftedStep(octet, bit);
      Pow2Step(8 - bit, high);
      SquareDoubles(x, n);
      result := Mul(result, result);
      n, top := 2 * n, 2 * top;
      if BitOf(octet, bit) != 0 {
        SquareDoubles(x, n);
        result := Mul(result, x);
        n := n + 1;
      }
    }
    ShiftedNothing(octet);
  }

  lemma ShiftedNothing(n: nat)
    ensures Shifted(n, 0) == n
  {
  }

  lemma Pow2Step(bits: nat, high: nat)
    ensures Pow2(bits) * high == if bits == 0 then high else 2 * (Pow2(bits - 1) * high)
  {
  }

  /** `invert`: the power p - 2, which is the inverse. */
  method Invert(x: Fe) returns (r: Fe)
    ensures r == Power(x, PRIME - 2) % PRIME
    ensures Prime(PRIME) && x != 0 ==> Mul(x, r) == 1
  {
    hide LittleEndian, Power, Prime, Times;
    ExponentsAre();
    r := Pow(x, P_MINUS_TWO);
    if Prime(PRIME) && x != 0 { Fermat(x, PRIME); }
  }
}
