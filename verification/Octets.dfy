/** Big-endian integers and octet-wise exclusive or, as the program's
    `to_be_bytes`, `from_be_bytes` and `derive_nonce` compute them. */
module Octets {
  import opened Base

  function Pow256(width: nat): (r: nat)
    ensures r > 0
  {
    if width == 0 then 1 else 256 * Pow256(width - 1)
  }

  /** The low `width` octets of `n`, most significant first. */
  function BigEndian(n: nat, width: nat): (r: Bytes)
    ensures |r| == width
  {
    if width == 0 then [] else BigEndian(n / 256, width - 1) + [n % 256]
  }

  function FromBigEndian(s: Bytes): nat {
    if s == [] then 0 else 256 * FromBigEndian(s[..|s| - 1]) + s[|s| - 1]
  }

  lemma {:induction false} BigEndianRoundTrip(n: nat, width: nat)
    requires n < Pow256(width)
    ensures FromBigEndian(BigEndian(n, width)) == n
  {
    if width > 0 {
      BigEndianRoundTrip(n / 256, width - 1);
      assert BigEndian(n, width)[..width - 1] == BigEndian(n / 256, width - 1);
    }
  }

  lemma {:induction false} FromBigEndianRoundTrip(s: Bytes)
    ensures FromBigEndian(s) < Pow256(|s|)
    ensures BigEndian(FromBigEndian(s), |s|) == s
  {
    if s != [] { FromBigEndianRoundTrip(s[..|s| - 1]); }
  }

  lemma Widths()
    ensures Pow256(2) == 0x1_0000 && Pow256(4) == 0x1_0000_0000 && Pow256(8) == 0x1_0000_0000_0000_0000
  {
    assert Pow256(1) == 256;
    assert Pow256(3) == 0x100_0000;
    assert Pow256(5) == 0x100_0000_0000 && Pow256(6) == 0x1_0000_0000_0000 && Pow256(7) == 0x100_0000_0000_0000;
  }

  /** Bitwise exclusive or of two `bits`-bit numbers. */
  function Xor(a: nat, b: nat, bits: nat): (r: nat) {
    if bits == 0 then 0 else 2 * Xor(a / 2, b / 2, bits - 1) + (a % 2 + b % 2) % 2
  }

  type Bit = n: nat | n < 2

  /** Bit `k` of `n`, counting from the least significant. */
  function BitOf(n: nat, k: nat): Bit { if k == 0 then n % 2 else BitOf(n / 2, k - 1) }

  function Pow2(n: nat): (r: nat)
    ensures r > 0
  {
    if n == 0 then 1 else 2 * Pow2(n - 1)
  }

  lemma {:induction false} XorBound(a: nat, b: nat, bits: nat)
    ensures Xor(a, b, bits) < Pow2(bits)
  {
    if bits > 0 { XorBound(a / 2, b / 2, bits - 1); }
  }

  lemma {:induction false} XorCancels(a: nat, b: nat, c: nat, bits: nat)
    requires b < Pow2(bits) && c < Pow2(bits) && Xor(a, b, bits) == Xor(a, c, bits)
    ensures b == c
  {
    if bits > 0 {
      var p, q := (a % 2 + b % 2) % 2, (a % 2 + c % 2) % 2;
      assert 0 <= p < 2 && 0 <= q < 2;
      assert Xor(a / 2, b / 2, bits - 1) == Xor(a / 2, c / 2, bits - 1) && p == q;
      XorCancels(a / 2, b / 2, c / 2, bits - 1);
    }
  }

  function XorOctet(a: u8, b: u8): u8 {
    XorBound(a, b, 8);
    assert Pow2(8) == 256 by { assert Pow2(4) == 16; }
    Xor(a, b, 8)
  }

  lemma XorOctetCancels(a: u8, b: u8, c: u8)
    requires XorOctet(a, b) == XorOctet(a, c)
    ensures b == c
  {
    assert Pow2(8) == 256 by { assert Pow2(4) == 16; }
    XorCancels(a, b, c, 8);
  }

  function XorEach(a: Bytes, b: Bytes): (r: Bytes)
    requires |a| == |b|
    ensures |r| == |a|
  {
    seq(|a|, i requires 0 <= i < |a| => XorOctet(a[i], b[i]))
  }

  /** `derive_nonce` (src/channel.rs): one direction's IV with the counter folded
      into its last eight octets. */
  function DeriveNonce(iv: Bytes12, counter: u64): Bytes12 {
    iv[..4] + XorEach(iv[4..], BigEndian(counter, 8))
  }

  method DeriveNonceInPlace(iv: Bytes12, counter: u64) returns (nonce: Bytes12)
    ensures nonce == DeriveNonce(iv, counter)
  {
    nonce := iv;
    var octets := BigEndian(counter, 8);
    for i := 0 to 8
      invariant forall k :: 0 <= k < 4 ==> nonce[k] == iv[k]
      invariant forall k :: 4 <= k < 4 + i ==> nonce[k] == XorOctet(iv[k], octets[k - 4])
      invariant forall k :: 4 + i <= k < 12 ==> nonce[k] == iv[k]
    {
      nonce := nonce[4 + i := XorOctet(nonce[4 + i], octets[i])];
    }
  }

  /** Two counters never share a nonce under one IV. */
  lemma NonceIsInjective(iv: Bytes12, a: u64, b: u64)
    requires DeriveNonce(iv, a) == DeriveNonce(iv, b)
    ensures a == b
  {
    var left, right := BigEndian(a, 8), BigEndian(b, 8);
    forall i | 0 <= i < 8 ensures left[i] == right[i] {
      assert DeriveNonce(iv, a)[4 + i] == XorOctet(iv[4..][i], left[i]);
      assert DeriveNonce(iv, b)[4 + i] == XorOctet(iv[4..][i], right[i]);
      XorOctetCancels(iv[4..][i], left[i], right[i]);
    }
    assert left == right;
    Widths();
    BigEndianRoundTrip(a, 8);
    BigEndianRoundTrip(b, 8);
  }
}
