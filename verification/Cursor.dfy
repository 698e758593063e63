/** The sealed-state reader (`Cursor` in src/credential_v2/bootstrap.rs and
    `ByteCursor` in src/credential_v2/checkpoint.rs). A reader takes a prefix of
    what is left; the writer of a field is the function it inverts. */
module Cursors {
  import opened Base
  import opened V2
  import opened Octets

  /** A parsed field and what is left after it. */
  type Parsed<T> = Outcome<(T, Bytes)>

  function Take(s: Bytes, n: nat): (r: Parsed<Bytes>)
    ensures r.Ok? <==> n <= |s|
    ensures r.Ok? ==> s == r.value.0 + r.value.1 && |r.value.0| == n
  {
    if n <= |s| then Ok((s[..n], s[n..])) else Err(SchemaFault)
  }

  function Octet(s: Bytes): (r: Parsed<u8>)
    ensures r.Ok? ==> s == [r.value.0] + r.value.1
  {
    if s == [] then Err(SchemaFault) else Ok((s[0], s[1..]))
  }

  function Flag(s: Bytes): Parsed<bool> {
    var (octet, rest) :- Octet(s);
    if octet == 0 then Ok((false, rest)) else if octet == 1 then Ok((true, rest)) else Err(SchemaFault)
  }

  function OptionalArray(s: Bytes, n: nat): (r: Parsed<Option<Bytes>>)
    ensures r.Ok? && r.value.0.Some? ==> |r.value.0.value| == n
  {
    var (present, rest) :- Flag(s);
    if !present then Ok((None, rest))
    else
      var (value, left) :- Take(rest, n);
      Ok((Some(value), left))
  }

  function Number(s: Bytes): (r: Parsed<u64>) {
    var (octets, rest) :- Take(s, 8);
    FromBigEndianRoundTrip(octets);
    Widths();
    Ok((FromBigEndian(octets), rest))
  }

  function LengthPrefixedAllowEmpty(s: Bytes, maximum: nat): Parsed<Bytes> {
    var (octets, rest) :- Take(s, 4);
    if FromBigEndian(octets) > maximum then Err(SizeFault) else Take(rest, FromBigEndian(octets))
  }

  /** Both readers refuse an empty or overlong field with the same fault. */
  function LengthPrefixed(s: Bytes, maximum: nat): Parsed<Bytes> {
    var (octets, rest) :- Take(s, 4);
    if FromBigEndian(octets) == 0 || FromBigEndian(octets) > maximum then Err(SizeFault)
    else Take(rest, FromBigEndian(octets))
  }

  function OptionalFrame(w: World, s: Bytes, maximum: nat): Parsed<Option<Frame>> {
    var (present, rest) :- Flag(s);
    if !present then Ok((None, rest))
    else
      var (bytes, left) :- LengthPrefixed(rest, maximum);
      var frame :- w.decodeFrame(bytes);
      Ok((Some(frame), left))
  }

  // ---------------------------------------------------------------- writers

  function PutFlag(flag: bool): Bytes { [if flag then 1 else 0] }

  function PutOptional(value: Option<Bytes>): Bytes {
    match value case None => [0] case Some(bytes) => [1] + bytes
  }

  function PutLength(value: Bytes): Bytes { BigEndian(|value|, 4) + value }

  function PutNumber(n: u64): Bytes { BigEndian(n, 8) }

  // ---------------------------------------------------------------- inversion

  lemma OctetInverts(n: u8, rest: Bytes)
    ensures Octet([n] + rest) == Ok((n, rest))
  {
    assert ([n] + rest)[1..] == rest;
  }

  lemma TakeInverts(value: Bytes, rest: Bytes)
    ensures Take(value + rest, |value|) == Ok((value, rest))
  {
  }

  lemma FlagInverts(flag: bool, rest: Bytes)
    ensures Flag(PutFlag(flag) + rest) == Ok((flag, rest))
  {
    assert (PutFlag(flag) + rest)[1..] == rest;
  }

  lemma OptionalInverts(value: Option<Bytes>, n: nat, rest: Bytes)
    requires value.Some? ==> |value.value| == n
    ensures OptionalArray(PutOptional(value) + rest, n) == Ok((value, rest))
  {
    if value.Some? {
      assert (PutOptional(value) + rest)[1..] == value.value + rest;
      TakeInverts(value.value, rest);
    } else {
      assert (PutOptional(value) + rest)[1..] == rest;
    }
  }

  lemma NumberInverts(n: u64, rest: Bytes)
    ensures Number(PutNumber(n) + rest) == Ok((n, rest))
  {
    TakeInverts(PutNumber(n), rest);
    Widths();
    BigEndianRoundTrip(n, 8);
  }

  lemma LengthInverts(value: Bytes, maximum: nat, rest: Bytes)
    requires |value| <= maximum && |value| < 0x1_0000_0000
    ensures LengthPrefixedAllowEmpty(PutLength(value) + rest, maximum) == Ok((value, rest))
    ensures LengthPrefixed(PutLength(value) + rest, maximum) == if value == [] then Err(SizeFault)
            else Ok((value, rest))
  {
    Widths();
    BigEndianRoundTrip(|value|, 4);
    assert PutLength(value) + rest == BigEndian(|value|, 4) + (value + rest);
    TakeInverts(BigEndian(|value|, 4), value + rest);
    TakeInverts(value, rest);
  }

  // ---------------------------------------------------------------- the cursor object

  /** The program's reader: a position moving over one input. */
  class Cursor {
    const input: Bytes
    var position: nat

    ghost predicate Valid()
      reads this
    {
      position <= |input|
    }

    ghost function Left(): Bytes
      requires Valid()
      reads this
    {
      input[position..]
    }

    constructor (input: Bytes)
      ensures Valid() && this.input == input && Left() == input
    {
      this.input, position := input, 0;
    }

    method TakeOctets(length: nat) returns (r: Outcome<Bytes>)
      requires Valid()
      modifies this`position
      ensures Valid()
      ensures match Take(old(Left()), length)
              case Ok((value, rest)) => r == Ok(value) && Left() == rest
              case Err(e) => r == Err(e) && Left() == old(Left())
    {
      var end := position + length;
      if end > |input| { return Err(SchemaFault); }
      assert input[position..][..length] == input[position..end] && input[position..][length..] == input[end..];
      r := Ok(input[position..end]);
      position := end;
    }

    method TakeOctet() returns (r: Outcome<u8>)
      requires Valid()
      modifies this`position
      ensures Valid()
      ensures match Octet(old(Left()))
              case Ok((value, rest)) => r == Ok(value) && Left() == rest
              case Err(e) => r == Err(e) && Left() == old(Left())
    {
      var taken := TakeOctets(1);
      if taken.Err? { return Err(taken.error); }
      return Ok(taken.value[0]);
    }

    method TakeFlag() returns (r: Outcome<bool>)
      requires Valid()
      modifies this`position
      ensures Valid()
      ensures match Flag(old(Left()))
              case Ok((value, rest)) => r == Ok(value) && Left() == rest
              case Err(e) => r == Err(e)
    {
      var octet := TakeOctet();
      if octet.Err? { return Err(octet.error); }
      return if octet.value == 0 then Ok(false) else if octet.value == 1 then Ok(true) else Err(SchemaFault);
    }

    method TakeOptionalArray(n: nat) returns (r: Outcome<Option<Bytes>>)
      requires Valid()
      modifies this`position
      ensures Valid()
      ensures r.Ok? && r.value.Some? ==> |r.value.value| == n
      ensures match OptionalArray(old(Left()), n)
              case Ok((value, rest)) => r == Ok(value) && Left() == rest
              case Err(e) => r == Err(e)
    {
      var present := TakeFlag();
      if present.Err? { return Err(present.error); }
      if !present.value { return Ok(None); }
      var value := TakeOctets(n);
      if value.Err? { return Err(value.error); }
      return Ok(Some(value.value));
    }

    method TakeNumber() returns (r: Outcome<u64>)
      requires Valid()
      modifies this`position
      ensures Valid()
      ensures match Number(old(Left()))
              case Ok((value, rest)) => r == Ok(value) && Left() == rest
              case Err(e) => r == Err(e)
    {
      var octets := TakeOctets(8);
      if octets.Err? { return Err(octets.error); }
      FromBigEndianRoundTrip(octets.value);
      Widths();
      return Ok(FromBigEndian(octets.value));
    }

    method TakeLengthPrefixed(maximum: nat) returns (r: Outcome<Bytes>)
      requires Valid()
      modifies this`position
      ensures Valid()
      ensures match LengthPrefixed(old(Left()), maximum)
              case Ok((value, rest)) => r == Ok(value) && Left() == rest
              case Err(e) => r == Err(e)
    {
      var octets := TakeOctets(4);
      if octets.Err? { return Err(octets.error); }
      var length := FromBigEndian(octets.value);
      if length == 0 || length > maximum { return Err(SizeFault); }
      r := TakeOctets(length);
    }

    method TakeOptionalFrame(w: World, maximum: nat) returns (r: Outcome<Option<Frame>>)
      requires Valid()
      modifies this`position
      ensures Valid()
      ensures match OptionalFrame(w, old(Left()), maximum)
              case Ok((value, rest)) => r == Ok(value) && Left() == rest
              case Err(e) => r == Err(e)
    {
      var present := TakeFlag();
      if present.Err? { return Err(present.error); }
      if !present.value { return Ok(None); }
      var bytes := TakeLengthPrefixed(maximum);
      if bytes.Err? { return Err(bytes.error); }
      var frame := w.decodeFrame(bytes.value);
      if frame.Err? { return Err(frame.error); }
      return Ok(Some(frame.value));
    }
  }
}
