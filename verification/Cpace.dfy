/** Length-prefixed strings of CPace (src/cpace.rs): LEB128 lengths, the generator
    string of Appendix A of draft-irtf-cfrg-cpace-21, and the key-derivation input. */
module Cpace {
  import opened Base

  /** `CPace255` */
  const CPACE_DSI: Bytes := [67, 80, 97, 99, 101, 50, 53, 53]

  /** `CPace255_ISK` */
  const CPACE_ISK_DSI: Bytes := [67, 80, 97, 99, 101, 50, 53, 53, 95, 73, 83, 75]

  const SHA512_INPUT_BLOCK_BYTES: nat := 128

  // ---------------------------------------------------------------- LEB128

  function Leb128(n: nat): (r: Bytes)
    ensures r != []
  {
    if n < 128 then [n] else [n % 128 + 128] + Leb128(n / 128)
  }

  /** `leb128_size`: as many octets as the encoding has. */
  method Leb128Size(value: nat) returns (size: nat)
    ensures size == |Leb128(value)|
  {
    size := 1;
    var left := value;
    while left >= 128
      invariant size - 1 + |Leb128(left)| == |Leb128(value)|
      decreases left
    {
      size := size + 1;
      left := left / 128;
    }
  }

  /** `append_leb128` */
  method AppendLeb128(output: Bytes, value: nat) returns (r: Bytes)
    ensures r == output + Leb128(value)
  {
    r := output;
    var left := value;
    while true
      invariant r + Leb128(left) == output + Leb128(value)
      decreases left
    {
      var low := left % 128;
      var next := left / 128;
      if next == 0 {
        r := r + [low];
        return;
      }
      assert r + Leb128(left) == r + [low + 128] + Leb128(next);
      r := r + [low + 128];
      left := next;
    }
  }

  /** Reads one length and what follows it. */
  function ReadLeb128(s: Bytes): Option<(nat, Bytes)> {
    if s == [] then None
    else if s[0] < 128 then Some((s[0], s[1..]))
    else match ReadLeb128(s[1..])
      case None => None
      case Some((high, rest)) => Some((high * 128 + s[0] - 128, rest))
  }

  lemma {:induction false} Leb128RoundTrip(n: nat, rest: Bytes)
    ensures ReadLeb128(Leb128(n) + rest) == Some((n, rest))
  {
    var s := Leb128(n) + rest;
    if n < 128 {
      assert s[1..] == rest;
    } else {
      assert s[1..] == Leb128(n / 128) + rest;
      Leb128RoundTrip(n / 128, rest);
    }
  }

  /** No length is a proper prefix of another: what follows a length is unambiguous. */
  lemma Leb128PrefixFree(a: nat, restA: Bytes, b: nat, restB: Bytes)
    requires Leb128(a) + restA == Leb128(b) + restB
    ensures a == b && restA == restB
  {
    Leb128RoundTrip(a, restA);
    Leb128RoundTrip(b, restB);
  }

  // ---------------------------------------------------------------- length-value strings

  function LengthValue(value: Bytes): Bytes { Leb128(|value|) + value }

  lemma LengthValuePrefixFree(a: Bytes, restA: Bytes, b: Bytes, restB: Bytes)
    requires LengthValue(a) + restA == LengthValue(b) + restB
    ensures a == b && restA == restB
  {
    assert LengthValue(a) + restA == Leb128(|a|) + (a + restA);
    assert LengthValue(b) + restB == Leb128(|b|) + (b + restB);
    Leb128PrefixFree(|a|, a + restA, |b|, b + restB);
    assert a == (a + restA)[..|a|] && b == (b + restB)[..|b|];
    assert restA == (a + restA)[|a|..] && restB == (b + restB)[|b|..];
  }

  /** Several values in a row, as `generator_string` and `finish` build them. */
  function Values(values: seq<Bytes>): Bytes {
    if values == [] then [] else LengthValue(values[0]) + Values(values[1..])
  }

  lemma {:induction false} ValuesInjective(a: seq<Bytes>, b: seq<Bytes>)
    requires |a| == |b| && Values(a) == Values(b)
    ensures a == b
  {
    if a != [] {
      LengthValuePrefixFree(a[0], Values(a[1..]), b[0], Values(b[1..]));
      ValuesInjective(a[1..], b[1..]);
      assert a == [a[0]] + a[1..] && b == [b[0]] + b[1..];
    }
  }

  // ---------------------------------------------------------------- the generator string

  function Zeros(n: nat): (r: Bytes)
    ensures |r| == n
  {
    seq(n, _ => 0)
  }

  /** Zero padding that fills the first SHA-512 block, with one octet for its own length. */
  function PaddingLength(prs: Bytes): nat {
    Max(0, SHA512_INPUT_BLOCK_BYTES - Min(|LengthValue(CPACE_DSI)| + |LengthValue(prs)| + 1, U64_MAX))
  }

  function GeneratorBytes(prs: Bytes, channel: Bytes, session: Bytes): Bytes {
    Values([CPACE_DSI, prs, Zeros(PaddingLength(prs)), channel, session])
  }

  /** `generator_string`: refused only when its length would not fit a machine word. */
  function GeneratorString(prs: Bytes, channel: Bytes, session: Bytes): Option<Bytes> {
    if |GeneratorBytes(prs, channel, session)| > U64_MAX then None else Some(GeneratorBytes(prs, channel, session))
  }

  method BuildGeneratorString(prs: Bytes, channel: Bytes, session: Bytes) returns (r: Option<Bytes>)
    ensures r == GeneratorString(prs, channel, session)
  {
    hide LengthValue;
    var padding := PaddingLength(prs);
    var result := AppendValue([], [], CPACE_DSI);
    result := AppendValue(result, [CPACE_DSI], prs);
    LengthValueIs(Zeros(padding));
    ValuesAppend([CPACE_DSI, prs], Zeros(padding));
    ghost var before := result;
    result := AppendLeb128(result, padding);
    result := result + Zeros(padding);
    assert result == before + LengthValue(Zeros(padding));
    assert [CPACE_DSI] + [prs] == [CPACE_DSI, prs];
    result := AppendValue(result, [CPACE_DSI, prs] + [Zeros(padding)], channel);
    result := AppendValue(result, [CPACE_DSI, prs] + [Zeros(padding)] + [channel], session);
    assert [CPACE_DSI, prs] + [Zeros(padding)] + [channel] + [session]
           == [CPACE_DSI, prs, Zeros(padding), channel, session];
    return if |result| > U64_MAX then None else Some(result);
  }

  method AppendValue(output: Bytes, ghost values: seq<Bytes>, value: Bytes) returns (r: Bytes)
    requires output == Values(values)
    ensures r == Values(values + [value])
  {
    ValuesAppend(values, value);
    r := AppendLengthValue(output, value);
  }

  lemma {:induction false} ValuesAppend(values: seq<Bytes>, value: Bytes)
    ensures Values(values + [value]) == Values(values) + LengthValue(value)
  {
    hide LengthValue;
    if values == [] {
      assert [value][1..] == [] && Values([]) == [];
      assert Values([value]) == LengthValue(value);
    } else {
      assert (values + [value])[1..] == values[1..] + [value];
      ValuesAppend(values[1..], value);
    }
  }

  method AppendLengthValue(output: Bytes, value: Bytes) returns (r: Bytes)
    ensures r == output + LengthValue(value)
  {
    r := AppendLeb128(output, |value|);
    r := r + value;
  }

  lemma LengthValueIs(c: Bytes)
    ensures LengthValue(c) == Leb128(|c|) + c
  {
  }

  /** Different secrets, channels or sessions never share a generator string. */
  lemma GeneratorStringInjective(prs: Bytes, channel: Bytes, session: Bytes, prs': Bytes, channel': Bytes,
      session': Bytes)
    requires GeneratorString(prs, channel, session).Some?
    requires GeneratorString(prs, channel, session) == GeneratorString(prs', channel', session')
    ensures prs == prs' && channel == channel' && session == session'
  {
    var a := [CPACE_DSI, prs, Zeros(PaddingLength(prs)), channel, session];
    var b := [CPACE_DSI, prs', Zeros(PaddingLength(prs')), channel', session'];
    ValuesInjective(a, b);
    assert a[1] == b[1] && a[3] == b[3] && a[4] == b[4];
  }

  /** Where the secret leaves room, domain, secret and padding fill exactly one block. */
  lemma PaddingFillsTheBlock(prs: Bytes)
    requires |LengthValue(CPACE_DSI)| + |LengthValue(prs)| < SHA512_INPUT_BLOCK_BYTES
    ensures |LengthValue(CPACE_DSI)| + |LengthValue(prs)| + |LengthValue(Zeros(PaddingLength(prs)))|
            == SHA512_INPUT_BLOCK_BYTES
  {
    var n := PaddingLength(prs);
    assert n < 128 && Leb128(n) == [n];
  }

  /** `finish`: the input of the session key, sides in a fixed order. */
  function KeyInput(sid: Bytes, shared: Bytes32, shareA: Bytes32, adA: Bytes, shareC: Bytes32, adC: Bytes): Bytes {
    Values([CPACE_ISK_DSI, sid, shared, shareA, adA, shareC, adC])
  }

  /** Two runs derive from the same input only if they agree on everything in it. */
  lemma KeyInputInjective(sid: Bytes, shared: Bytes32, shareA: Bytes32, adA: Bytes, shareC: Bytes32, adC: Bytes,
      sid': Bytes, shared': Bytes32, shareA': Bytes32, adA': Bytes, shareC': Bytes32, adC': Bytes)
    requires KeyInput(sid, shared, shareA, adA, shareC, adC) == KeyInput(sid', shared', shareA', adA', shareC', adC')
    ensures sid == sid' && shared == shared' && shareA == shareA' && adA == adA' && shareC == shareC' && adC == adC'
  {
    var a := [CPACE_ISK_DSI, sid, shared, shareA, adA, shareC, adC];
    var b := [CPACE_ISK_DSI, sid', shared', shareA', adA', shareC', adC'];
    ValuesInjective(a, b);
    assert a[1] == b[1] && a[2] == b[2] && a[3] == b[3] && a[4] == b[4] && a[5] == b[5] && a[6] == b[6];
  }
}
