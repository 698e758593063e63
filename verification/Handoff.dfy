/** The bounded CBOR strings of the local transfer texts (src/credential_v2/handoff.rs
    and the bootstrap half of src/credential_v2/manual.rs): minimal length heads, section
    4.2.1 of RFC 8949, and the fixed arrays built from them. */
module Handoffs {
  import opened Base
  import opened Octets

  datatype Refused = Schema | Version | Oversize

  type Read<T> = Result<(T, Bytes), Refused>

  const MAX_CARRIER: nat := 2695

  /** `selfsame-pairing-handoff/v1` */
  const HANDOFF_DOMAIN: Bytes :=
    [115, 101, 108, 102, 115, 97, 109, 101, 45, 112, 97, 105, 114, 105, 110, 103, 45, 104, 97, 110, 100, 111, 102,
        102, 47, 118, 49]

  /** `selfsame-pairing-manual/v1` */
  const MANUAL_DOMAIN: Bytes :=
    [115, 101, 108, 102, 115, 97, 109, 101, 45, 112, 97, 105, 114, 105, 110, 103, 45, 109, 97, 110, 117, 97, 108, 47,
        118, 49]

  // ---------------------------------------------------------------- heads

  /** The shortest head of a string of this major type and length. */
  function Head(major: nat, length: nat): Bytes
    requires major < 8 && length < 0x1_0000
  {
    if length < 24 then [32 * major + length]
    else if length < 256 then [32 * major + 24, length]
    else [32 * major + 25, length / 256, length % 256]
  }

  /** A string of a major type under its minimal head. */
  function Str(major: nat, value: Bytes): Bytes
    requires major < 8 && |value| < 0x1_0000
  {
    Head(major, |value|) + value
  }

  /** The head `append_bstr` writes, for any length: its last arm casts the length to 16 bits. */
  function BstrHead(length: nat): Bytes {
    if length <= 23 then [0x40 + length]
    else if length <= 255 then [0x58, length]
    else
      var narrow := length % 0x1_0000;
      [0x59] + [narrow / 256, narrow % 256]
  }

  function Bstr(bytes: Bytes): Bytes { BstrHead(|bytes|) + bytes }

  /** `append_bstr` */
  method AppendBstr(output: Bytes, bytes: Bytes) returns (r: Bytes)
    ensures r == output + Bstr(bytes)
  {
    var length := |bytes|;
    if length <= 23 {
      r := output + [0x40 + length];
    } else if length <= 255 {
      r := output + [0x58, length];
    } else {
      r := output + [0x59];
      var narrow := length % 0x1_0000;
      r := r + [narrow / 256, narrow % 256];
    }
    assert r == output + BstrHead(length);
    hide BstrHead;
    r := r + bytes;
  }

  // ---------------------------------------------------------------- the recogniser

  function Take(s: Bytes, n: nat): Read<Bytes> { if n <= |s| then Ok((s[..n], s[n..])) else Err(Schema) }

  function Octet(s: Bytes): Read<u8> { if s == [] then Err(Schema) else Ok((s[0], s[1..])) }

  /** `SchemaParser::string`, the length read before the content is taken. */
  function Length(s: Bytes, major: nat): Read<nat> {
    var (head, s1) :- Octet(s);
    if head / 32 != major then Err(Schema)
    else if head % 32 < 24 then Ok((head % 32, s1))
    else if head % 32 == 24 then
      var (n, s2) :- Octet(s1);
      if n < 24 then Err(Schema) else Ok((n, s2))
    else if head % 32 == 25 then
      var (high, s2) :- Octet(s1);
      var (low, s3) :- Octet(s2);
      if 256 * high + low <= 255 then Err(Schema) else Ok((256 * high + low, s3))
    else Err(Schema)
  }

  function String(s: Bytes, major: nat): Read<Bytes> {
    var (length, rest) :- Length(s, major);
    Take(rest, length)
  }

  /** A length is read exactly from its minimal head: any other head, of whatever form,
      is refused. */
  lemma LengthExact(s: Bytes, major: nat, length: nat, rest: Bytes)
    requires major < 8
    ensures Length(s, major) == Ok((length, rest)) <==> length < 0x1_0000 && s == Head(major, length) + rest
  {
    if length < 0x1_0000 && s == Head(major, length) + rest {
      var k := |Head(major, length)|;
      assert s[k..] == rest;
      assert k >= 2 ==> s[1..][1..] == s[2..];
      assert k == 3 ==> s[2..][1..] == s[3..];
    }
    if Length(s, major) == Ok((length, rest)) {
      assert s == [s[0]] + s[1..];
      if s[0] % 32 >= 24 { assert s[1..] == [s[1]] + s[2..]; }
      if s[0] % 32 == 25 { assert s[2..] == [s[2]] + s[3..]; }
    }
  }

  /** A string is accepted exactly when it is its own minimal encoding. */
  lemma StringExact(s: Bytes, major: nat, value: Bytes, rest: Bytes)
    requires major < 8
    ensures String(s, major) == Ok((value, rest)) <==> |value| < 0x1_0000 && s == Str(major, value) + rest
  {
    LengthExact(s, major, |value|, value + rest);
    assert (value + rest)[..|value|] == value && (value + rest)[|value|..] == rest;
    if |value| < 0x1_0000 { assert Str(major, value) + rest == Head(major, |value|) + (value + rest); }
    if String(s, major) == Ok((value, rest)) {
      var (length, left) := Length(s, major).value;
      LengthExact(s, major, length, left);
      assert left == value + rest && length == |value|;
    }
  }

  /** The reader undoes `append_bstr` exactly when the length fits in 16 bits. */
  lemma BstrReadsExactly(value: Bytes, rest: Bytes)
    ensures String(Bstr(value) + rest, 2) == Ok((value, rest)) <==> |value| < 0x1_0000
  {
    hide String;
    StringExact(Bstr(value) + rest, 2, value, rest);
    if |value| < 0x1_0000 { ShortBstr(value); }
  }

  lemma ShortBstr(bytes: Bytes)
    requires |bytes| < 0x1_0000
    ensures Bstr(bytes) == Str(2, bytes)
  {
  }

  /** The parser object: what is left of the input, shortened as it reads. */
  class SchemaParser {
    var left: Bytes

    constructor (input: Bytes)
      ensures left == input
    {
      left := input;
    }

    method TakeOctets(n: nat) returns (r: Result<Bytes, Refused>)
      modifies this
      ensures match Take(old(left), n)
              case Ok((value, rest)) => r == Ok(value) && left == rest
              case Err(e) => r == Err(e) && left == old(left)
    {
      if n > |left| { return Err(Schema); }
      r := Ok(left[..n]);
      left := left[n..];
    }

    method TakeOctet() returns (r: Result<u8, Refused>)
      modifies this
      ensures match Octet(old(left))
              case Ok((value, rest)) => r == Ok(value) && left == rest
              case Err(e) => r == Err(e)
    {
      var taken :- TakeOctets(1);
      return Ok(taken[0]);
    }

    method TakeString(major: nat) returns (r: Result<Bytes, Refused>)
      modifies this
      ensures match String(old(left), major)
              case Ok((value, rest)) => r == Ok(value) && left == rest
              case Err(e) => r == Err(e)
    {
      var head :- TakeOctet();
      if head / 32 != major { return Err(Schema); }
      var length: nat := 0;
      if head % 32 < 24 {
        length := head % 32;
      } else if head % 32 == 24 {
        var n :- TakeOctet();
        if n < 24 { return Err(Schema); }
        length := n;
      } else if head % 32 == 25 {
        var high :- TakeOctet();
        var low :- TakeOctet();
        length := 256 * (high as int) + low;
        if length <= 255 { return Err(Schema); }
      } else {
        return Err(Schema);
      }
      r := TakeOctets(length);
    }
  }

  // ---------------------------------------------------------------- the handoff array

  /** What a handoff carries: the public carrier's octets and both secrets. */
  datatype Parts = Parts(carrier: Bytes, secret: Bytes16, token: Bytes16)

  function EncodeHandoff(p: Parts): Result<Bytes, Refused> {
    if |p.carrier| > MAX_CARRIER then Err(Oversize)
    else Ok([0x84] + (Str(3, HANDOFF_DOMAIN) + (Str(2, p.carrier) + (Str(2, p.secret) + Str(2, p.token)))))
  }

  function ParseHandoff(s: Bytes): Result<Parts, Refused> {
    var (outer, s1) :- Octet(s);
    if outer != 0x84 then Err(Schema)
    else
      var (domain, s2) :- String(s1, 3);
      if domain != HANDOFF_DOMAIN then Err(Version)
      else
        var (carrier, s3) :- String(s2, 2);
        if carrier == [] then Err(Schema)
        else if |carrier| > MAX_CARRIER then Err(Oversize)
        else
          var (secret, s4) :- String(s3, 2);
          if |secret| != 16 then Err(Schema)
          else
            var (token, rest) :- String(s4, 2);
            if |token| != 16 || rest != [] then Err(Schema) else Ok(Parts(carrier, secret, token))
  }

  /** The two constant heads the encoders write out. */
  lemma DomainHeads()
    ensures Head(3, |HANDOFF_DOMAIN|) == [0x78, 27] && Head(3, |MANUAL_DOMAIN|) == [0x78, 26]
  {
  }

  /** The program's encoder appends; the result is the array above. */
  method BuildHandoff(p: Parts) returns (r: Result<Bytes, Refused>)
    ensures r == EncodeHandoff(p)
  {
    if |p.carrier| > MAX_CARRIER { return Err(Oversize); }
    DomainHeads();
    hide Head;
    var decoded := [0x84, 0x78, 27] + HANDOFF_DOMAIN;
    assert decoded == [0x84] + Str(3, HANDOFF_DOMAIN);
    ShortBstr(p.carrier);
    ShortBstr(p.secret);
    ShortBstr(p.token);
    hide Str, Bstr;
    decoded := AppendBstr(decoded, p.carrier);
    decoded := AppendBstr(decoded, p.secret);
    decoded := AppendBstr(decoded, p.token);
    assert decoded == [0x84] + (Str(3, HANDOFF_DOMAIN) + (Str(2, p.carrier) + (Str(2, p.secret) + Str(2, p.token))));
    return Ok(decoded);
  }

  /** The recogniser accepts exactly what the encoder writes for a non-empty carrier within
      bounds, and reads back exactly its parts. */
  lemma HandoffExact(s: Bytes, p: Parts)
    ensures ParseHandoff(s) == Ok(p) <==> p.carrier != [] && EncodeHandoff(p) == Ok(s)
  {
    hide String, Str;
    assert Str(2, p.token) + [] == Str(2, p.token);
    if p.carrier != [] && EncodeHandoff(p) == Ok(s) {
      var s3 := Str(2, p.secret) + Str(2, p.token);
      var s2 := Str(2, p.carrier) + s3;
      assert s[1..] == Str(3, HANDOFF_DOMAIN) + s2;
      StringExact(s[1..], 3, HANDOFF_DOMAIN, s2);
      StringExact(s2, 2, p.carrier, s3);
      StringExact(s3, 2, p.secret, Str(2, p.token));
      StringExact(Str(2, p.token), 2, p.token, []);
    }
    if ParseHandoff(s) == Ok(p) {
      var s2 := String(s[1..], 3).value.1;
      var s3 := String(s2, 2).value.1;
      var s4 := String(s3, 2).value.1;
      StringExact(s[1..], 3, HANDOFF_DOMAIN, s2);
      StringExact(s2, 2, p.carrier, s3);
      StringExact(s3, 2, p.secret, s4);
      StringExact(s4, 2, p.token, String(s4, 2).value.1);
      assert s == [0x84] + s[1..];
    }
  }

  /** The declared bound on the decoded text is met, and is the exact maximum. */
  lemma HandoffBound(p: Parts)
    requires EncodeHandoff(p).Ok?
    ensures |EncodeHandoff(p).value| <= 2762
    ensures |p.carrier| == MAX_CARRIER ==> |EncodeHandoff(p).value| == 2762
  {
  }

  // ---------------------------------------------------------------- the manual bootstrap array

  function EncodeManual(carrier: Bytes, token: Bytes16): Result<Bytes, Refused> {
    if |carrier| > MAX_CARRIER then Err(Oversize)
    else Ok([0x83] + (Str(3, MANUAL_DOMAIN) + (Str(2, carrier) + Str(2, token))))
  }

  function ParseManual(s: Bytes): Result<(Bytes, Bytes16), Refused> {
    var (outer, s1) :- Octet(s);
    if outer != 0x83 then Err(Schema)
    else
      var (domain, s2) :- String(s1, 3);
      if domain != MANUAL_DOMAIN then Err(Version)
      else
        var (carrier, s3) :- String(s2, 2);
        if carrier == [] then Err(Schema)
        else if |carrier| > MAX_CARRIER then Err(Oversize)
        else
          var (token, rest) :- String(s3, 2);
          if |token| != 16 || rest != [] then Err(Schema) else Ok((carrier, token))
  }

  lemma ManualExact(s: Bytes, carrier: Bytes, token: Bytes16)
    ensures ParseManual(s) == Ok((carrier, token)) <==> carrier != [] && EncodeManual(carrier, token) == Ok(s)
  {
    hide String, Str;
    assert Str(2, token) + [] == Str(2, token);
    if carrier != [] && EncodeManual(carrier, token) == Ok(s) {
      var s2 := Str(2, carrier) + Str(2, token);
      assert s[1..] == Str(3, MANUAL_DOMAIN) + s2;
      StringExact(s[1..], 3, MANUAL_DOMAIN, s2);
      StringExact(s2, 2, carrier, Str(2, token));
      StringExact(Str(2, token), 2, token, []);
    }
    if ParseManual(s) == Ok((carrier, token)) {
      var s2 := String(s[1..], 3).value.1;
      var s3 := String(s2, 2).value.1;
      StringExact(s[1..], 3, MANUAL_DOMAIN, s2);
      StringExact(s2, 2, carrier, s3);
      StringExact(s3, 2, token, String(s3, 2).value.1);
      assert s == [0x83] + s[1..];
    }
  }
}
