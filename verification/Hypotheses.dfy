/** The laws the session results assume are consistent: here is a world that obeys them
    and refuses nothing. */
module Hypotheses {
  import opened Base
  import opened V2
  import opened Octets
  import opened Cpace
  import opened EndpointCodec

  function Optional(value: Option<Bytes32>): Bytes { if value.None? then [] else value.value }

  function CarrierParts(c: Carrier): seq<Bytes> {
    [c.application, c.relayOrigin, c.mailboxId, c.ceremony, c.carrierNonce, c.commitment, BigEndian(c.expiresAt, 8),
        Optional(c.allocatorKey)]
  }

  function WriteCarrier(c: Carrier): Bytes { Values(CarrierParts(c)) }

  function FrameParts(f: Frame): seq<Bytes> {
    match f
    case Cpace(side, share, data) => [[0, SideNumber(side)], share, data]
    case Finished(side, value) => [[1, SideNumber(side)], value, []]
    case Sealed(direction, counter, ciphertext) =>
      [[2, if direction.AllocatorToClaimant? then 0 else 1], BigEndian(counter, 8), ciphertext]
  }

  function WriteFrame(f: Frame): Bytes { Values(FrameParts(f)) }

  lemma CarrierInjective(a: Carrier, b: Carrier)
    requires WriteCarrier(a) == WriteCarrier(b)
    ensures a == b
  {
    var p, q := CarrierParts(a), CarrierParts(b);
    ValuesInjective(p, q);
    assert p[0] == q[0] && p[1] == q[1] && p[2] == q[2] && p[3] == q[3] && p[4] == q[4] && p[5] == q[5]
           && p[6] == q[6] && p[7] == q[7];
    Widths();
    BigEndianRoundTrip(a.expiresAt, 8);
    BigEndianRoundTrip(b.expiresAt, 8);
  }

  lemma FrameInjective(a: Frame, b: Frame)
    requires WriteFrame(a) == WriteFrame(b)
    ensures a == b
  {
    var p, q := FrameParts(a), FrameParts(b);
    ValuesInjective(p, q);
    assert p[0] == q[0] && p[1] == q[1] && p[2] == q[2];
    assert p[0][0] == q[0][0] && p[0][1] == q[0][1];
    Widths();
    if a.Sealed? {
      BigEndianRoundTrip(a.counter, 8);
      BigEndianRoundTrip(b.counter, 8);
    }
  }

  lemma ValuesNotEmpty(values: seq<Bytes>)
    requires values != []
    ensures Values(values) != []
  {
  }

  ghost function ReadCarrier(s: Bytes): Outcome<Carrier> {
    if exists c :: WriteCarrier(c) == s then (var c :| WriteCarrier(c) == s; Ok(c)) else Err(SchemaFault)
  }

  ghost function ReadFrame(s: Bytes): Outcome<Frame> {
    if exists f :: WriteFrame(f) == s then (var f :| WriteFrame(f) == s; Ok(f)) else Err(SchemaFault)
  }

  /** An object of a kind in the plainest world: one octet, which is its kind. */
  function ObjectOf(kind: Kind): Object {
    Object(kind, Zero32(), [KindNumber(kind)], [KindNumber(kind)], Zero32())
  }

  function ReadObject(s: Bytes): Outcome<Object> {
    if s == [] then Err(SchemaFault)
    else Ok(Object(if s[0] < |KINDS| then KINDS[s[0]] else Offer, Zero32(), s, s, Zero32()))
  }

  /** A world that obeys the laws and refuses nothing: every frame and every kind of object
      encodes in a few octets, every object names the same ceremony and predecessor, and
      the consumer accepts every body. */
  ghost predicate Plain(w: World) {
    && Lawful(w)
    && (forall f :: w.encodeFrame(f).Ok? && (f.Sealed? && |f.ciphertext| == 17 ==> |w.encodeFrame(f).value| <= 64))
    && (forall c: Carrier :: |c.application| + |c.relayOrigin| <= 64 ==> |w.encodeCarrier(c)| <= 4_000)
    && (forall kind :: w.decodeObject([KindNumber(kind)]) == Ok(ObjectOf(kind)))
    && (forall s :: w.sha256(s) == Zero32())
    && (forall o :: w.logicalBody(o) == Ok(Logical(o.kind, Zero32(), Zero32(), [])))
    && (forall state, logical :: w.verifyBody(state, logical) == (state, None))
    && (forall key, nonce, aad, text :: w.encrypt(key, nonce, aad, text) == text + Zeros(16))
  }

  ghost function PlainWorld(): World {
    World(
      WriteCarrier, s => ReadCarrier(s), f => Ok(WriteFrame(f)), s => ReadFrame(s), ReadObject,
      (side, _, _, _, _) => Ok(Cpace(side, Zero32(), [])),
      (_, _, _, _, _, _) => Err(KeyScheduleFault),
      (_, _, _) => [], (_, _, _, text) => text + Zeros(16),
      (_, _, _, text) => if |text| < 16 then None else Some(text[..|text| - 16]), _ => Zero32(),
      (o: Object) => Ok(Logical(o.kind, Zero32(), Zero32(), [])), _ => Err(SchemaFault), (_, _, _) => None, Zero32(),
      (state, _) => (state, None))
  }

  lemma {:induction false} ValuesLength(values: seq<Bytes>, bound: nat)
    requires bound < 128 && forall i :: 0 <= i < |values| ==> |values[i]| <= bound
    ensures |Values(values)| <= (bound + 1) * |values|
  {
    if values != [] {
      var rest := values[1..];
      ShortLength(values[0]);
      hide LengthValue;
      ValuesLength(rest, bound);
      assert (bound + 1) * |values| == (bound + 1) * |rest| + (bound + 1);
    }
  }

  lemma ShortLength(value: Bytes)
    requires |value| < 128
    ensures |LengthValue(value)| == |value| + 1
  {
  }

  lemma CarrierLength(c: Carrier)
    requires |c.application| + |c.relayOrigin| <= 64
    ensures |WriteCarrier(c)| <= 4_000
  {
    Widths();
    ValuesLength(CarrierParts(c), 64);
  }

  lemma FrameLength(f: Frame)
    requires f.Sealed? && |f.ciphertext| == 17
    ensures |WriteFrame(f)| <= 64
  {
    Widths();
    ValuesLength(FrameParts(f), 17);
  }

  /** The laws the session results assume are consistent. */
  lemma LawsAreConsistent()
    ensures Plain(PlainWorld())
  {
    hide ReadCarrier, ReadFrame, WriteCarrier, WriteFrame;
    var w := PlainWorld();
    forall c ensures w.decodeCarrier(w.encodeCarrier(c)) == Ok(c) && w.encodeCarrier(c) != [] { CarrierReads(c); }
    forall f ensures w.encodeFrame(f).value != [] && w.decodeFrame(w.encodeFrame(f).value) == Ok(f) { FrameReads(f); }
    forall c: Carrier | |c.application| + |c.relayOrigin| <= 64
        ensures |w.encodeCarrier(c)| <= 4_000 { CarrierLength(c); }
    forall f: Frame | f.Sealed? && |f.ciphertext| == 17 ensures |w.encodeFrame(f).value| <= 64 { FrameLength(f); }
    forall key, nonce, aad, text ensures w.decrypt(key, nonce, aad, w.encrypt(key, nonce, aad, text)) == Some(text) {
      assert (text + Zeros(16))[..|text|] == text;
    }
    assert Lawful(w);
  }

  lemma CarrierReads(c: Carrier)
    ensures ReadCarrier(WriteCarrier(c)) == Ok(c) && WriteCarrier(c) != []
  {
    var found := ReadCarrier(WriteCarrier(c)).value;
    assert WriteCarrier(found) == WriteCarrier(c);
    CarrierInjective(found, c);
    ValuesNotEmpty(CarrierParts(c));
  }

  lemma FrameReads(f: Frame)
    ensures ReadFrame(WriteFrame(f)) == Ok(f) && WriteFrame(f) != []
  {
    var found := ReadFrame(WriteFrame(f)).value;
    assert WriteFrame(found) == WriteFrame(f);
    FrameInjective(found, f);
    ValuesNotEmpty(FrameParts(f));
  }
}
