/** The sealed plaintext of a live endpoint, its channel and its relay membership:
    `encode_inner` and `decode_inner` in src/credential_v2/checkpoint.rs. */
module EndpointCodec {
  import opened Base
  import opened V2
  import opened Projections
  import opened Channels
  import opened Endpoints
  import opened Octets
  import opened Cursors
  import BootstrapCodec

  const MAX_CIPHERTEXT: nat := 69_632
  const MAX_PLAINTEXT: nat := 69_616

  /** `cbcl-pairing endpoint state/v2` and a zero octet. */
  const TAG: Bytes :=
    [99, 98, 99, 108, 45, 112, 97, 105, 114, 105, 110, 103, 32, 101, 110, 100, 112, 111, 105, 110, 116, 32, 115, 116,
        97, 116, 101, 47, 118, 50, 0]

  datatype Restored = Restored(endpoint: Endpoint, channel: Channel, relay: Projection)

  function SideNumber(side: Side): u8 { if side.Allocator? then 0 else 1 }

  function NumberSide(n: u8): Outcome<Side> {
    if n == 0 then Ok(V2.Allocator) else if n == 1 then Ok(V2.Claimant) else Err(SchemaFault)
  }

  const PHASES: seq<Phase> :=
    [Begin, Offered, IntentApproved, Prepared, Phase.Confirmed, FinalApproved, PayloadSent, Ended, AccountSelected]

  function PhaseNumber(phase: Phase): (n: u8)
    ensures n < |PHASES| && PHASES[n] == phase
  {
    match phase
    case Begin => 0 case Offered => 1 case IntentApproved => 2 case Prepared => 3 case Confirmed => 4
    case FinalApproved => 5 case PayloadSent => 6 case Ended => 7 case AccountSelected => 8
  }

  function NumberPhase(n: u8): Outcome<Phase> { if n < |PHASES| then Ok(PHASES[n]) else Err(SchemaFault) }

  const KINDS: seq<Kind> :=
    [Offer, IntentApprove, IntentDecline, Preparation, ComparisonConfirmed, BindingConfirmed,
     Refusal, FinalApprove, FinalDecline, Payload, Receipt, AccountSelect]

  function KindNumber(kind: Kind): (n: u8)
    ensures n < |KINDS| && KINDS[n] == kind
  {
    match kind
    case Offer => 0 case IntentApprove => 1 case IntentDecline => 2 case Preparation => 3
    case ComparisonConfirmed => 4 case BindingConfirmed => 5 case Refusal => 6 case FinalApprove => 7
    case FinalDecline => 8 case Payload => 9 case Receipt => 10 case AccountSelect => 11
  }

  function NumberKind(n: u8): Outcome<Kind> { if n < |KINDS| then Ok(KINDS[n]) else Err(SchemaFault) }

  // ---------------------------------------------------------------- writer

  function PutField(value: Bytes): Outcome<Bytes> {
    if |value| >= 0x1_0000_0000 then Err(SizeFault) else Ok(PutLength(value))
  }

  function PutOptionalField(value: Option<Bytes>): Outcome<Bytes> {
    if value.None? then Ok([0])
    else
      var field :- PutField(value.value);
      Ok([1] + field)
  }

  /** The last object as the checkpoint holds it: without its bytes while the frame
      that carries them is cached. */
  function Kept(last: Option<Last>, side: Side, relay: Projection): Option<Last> {
    if last.Some? && last.value.sender == side && relay.cached.Some? then Some(last.value.(bytes := None)) else last
  }

  function PutLast(last: Option<Last>): Outcome<Bytes> {
    if last.None? then Ok([0])
    else
      var l := last.value;
      var bytes :- PutOptionalField(l.bytes);
      Ok([1] + ([SideNumber(l.sender)] + ([KindNumber(l.kind)] + (l.intent + (l.hash + bytes)))))
  }

  function PutCounter(counter: Option<u64>): Bytes {
    if counter.None? then [0] else [1] + PutNumber(counter.value)
  }

  function PutKeys(keys: Keys): Bytes {
    keys.sendKey + (keys.receiveKey + (keys.sendIv + (keys.receiveIv + keys.exporter)))
  }

  function PutProgress(c: Channel): Bytes {
    PutCounter(c.nextSend) + (PutCounter(c.nextReceive) + PutFlag(c.terminal))
  }

  function PutChannel(c: Channel): Bytes {
    [SideNumber(c.side)] + (c.transcript + (PutKeys(c.keys) + PutProgress(c)))
  }

  function PutRelay(w: World, relay: Projection): Outcome<Bytes> {
    if relay.cached.None? then Ok(BootstrapCodec.PutRelay(relay) + [0])
    else
      var bytes :- w.encodeFrame(relay.cached.value);
      var field :- PutField(bytes);
      Ok(BootstrapCodec.PutRelay(relay) + ([1] + field))
  }

  function EncodeEndpoint(w: World, r: Restored, generation: u64, nonce: Bytes12): Outcome<Bytes> {
    var e := r.endpoint;
    var carrier :- PutField(w.encodeCarrier(e.carrier));
    var last :- PutLast(Kept(e.last, e.side, r.relay));
    var verifier :- PutField(e.verifier);
    var relay :- PutRelay(w, r.relay);
    Ok(TAG + ([SideNumber(e.side)] + (carrier + ([PhaseNumber(e.phase)] + (PutOptional(e.intent) + (last
       + (verifier + (BootstrapCodec.PutStamp(generation, nonce) + (PutChannel(r.channel) + relay)))))))))
  }

  // ---------------------------------------------------------------- reader

  function OptionalField(s: Bytes, maximum: nat): Parsed<Option<Bytes>> {
    var (present, rest) :- Flag(s);
    if !present then Ok((None, rest))
    else
      var (bytes, left) :- LengthPrefixed(rest, maximum);
      Ok((Some(bytes), left))
  }

  /** Retained bytes must be the object the other fields describe. */
  function Describes(w: World, last: Last): Option<Fault> {
    if last.bytes.None? then None
    else match w.decodeObject(last.bytes.value)
      case Err(fault) => Some(fault)
      case Ok(o) =>
        if o.kind != last.kind || o.intent != last.intent || o.hash != last.hash then Some(SchemaFault) else None
  }

  function ReadLast(w: World, s: Bytes): Parsed<Option<Last>> {
    var (present, s0) :- Flag(s);
    if !present then Ok((None, s0))
    else
      var (sideNumber, s1) :- Octet(s0);
      var sender :- NumberSide(sideNumber);
      var (kindNumber, s2) :- Octet(s1);
      var kind :- NumberKind(kindNumber);
      var (intent, s3) :- Take(s2, 32);
      var (hash, s4) :- Take(s3, 32);
      var (bytes, rest) :- OptionalField(s4, MAX_CIPHERTEXT);
      var last := Last(sender, bytes, kind, intent, hash);
      if Describes(w, last).Some? then Err(Describes(w, last).value) else Ok((Some(last), rest))
  }

  function ReadCounter(s: Bytes): Parsed<Option<u64>> {
    var (present, rest) :- Flag(s);
    if !present then Ok((None, rest))
    else
      var (n, left) :- Number(rest);
      Ok((Some(n), left))
  }

  function ReadKeys(s: Bytes): Parsed<Keys> {
    var (sendKey, s1) :- Take(s, 32);
    var (receiveKey, s2) :- Take(s1, 32);
    var (sendIv, s3) :- Take(s2, 12);
    var (receiveIv, s4) :- Take(s3, 12);
    var (exporter, rest) :- Take(s4, 32);
    Ok((Keys(sendKey, receiveKey, sendIv, receiveIv, exporter), rest))
  }

  /** Both counters and the terminal flag, for a channel whose secrets are known. */
  function ReadProgress(s: Bytes, side: Side, transcript: Bytes64, keys: Keys): Parsed<Channel> {
    var (nextSend, s1) :- ReadCounter(s);
    var (nextReceive, s2) :- ReadCounter(s1);
    var (terminal, rest) :- Flag(s2);
    Ok((Channel(side, transcript, keys, nextSend, nextReceive, terminal), rest))
  }

  function ReadChannel(s: Bytes): Parsed<Channel> {
    var (sideNumber, s1) :- Octet(s);
    var side :- NumberSide(sideNumber);
    var (transcript, s2) :- Take(s1, 64);
    var (keys, s3) :- ReadKeys(s2);
    ReadProgress(s3, side, transcript, keys)
  }

  predicate RelayShape(relay: Projection) {
    relay.awaitingAck == relay.cached.Some? && (relay.cached.Some? ==> relay.cached.value.Sealed?)
  }

  function ReadRelay(w: World, s: Bytes): Parsed<Projection> {
    var (membership, s1) :- BootstrapCodec.ReadRelay(s);
    var (cached, rest) :- OptionalFrame(w, s1, MAX_CIPHERTEXT);
    var relay := membership.(cached := cached);
    if RelayShape(relay) then Ok((relay, rest)) else Err(SchemaFault)
  }

  /** Absent bytes are allowed only while the frame that carries them is cached. */
  predicate BytesAccountedFor(last: Option<Last>, side: Side, relay: Projection) {
    last.Some? && last.value.bytes.None? ==> last.value.sender == side && relay.cached.Some?
  }

  predicate Admitted(w: World, r: Restored) {
    && r.channel.side == r.endpoint.side && !r.channel.terminal
    && BytesAccountedFor(r.endpoint.last, r.endpoint.side, r.relay)
    && ConsistentProjection(w, r.endpoint.phase, r.endpoint.intent, r.endpoint.last)
  }

  function DecodeEndpoint(w: World, s: Bytes, side: Side, expected: Carrier, generation: u64,
      nonce: Bytes12): Outcome<Restored> {
    var (tag, s0) :- Take(s, 31);
    if tag != TAG then Err(SchemaFault)
    else
      var (sideNumber, s1) :- Octet(s0);
      var found :- NumberSide(sideNumber);
      var (carrierBytes, s2) :- LengthPrefixed(s1, MAX_PLAINTEXT);
      var carrier :- w.decodeCarrier(carrierBytes);
      if found != side || carrier != expected then Err(ProfileFault)
      else DecodeState(w, s2, side, carrier, generation, nonce)
  }

  function DecodeState(w: World, s: Bytes, side: Side, carrier: Carrier, generation: u64,
      nonce: Bytes12): Outcome<Restored> {
    var (phaseNumber, s1) :- Octet(s);
    var phase :- NumberPhase(phaseNumber);
    var (intent, s2) :- OptionalArray(s1, 32);
    var (last, s3) :- ReadLast(w, s2);
    var (verifier, s4) :- LengthPrefixedAllowEmpty(s3, MAX_PLAINTEXT);
    var (stamp, s5) :- BootstrapCodec.ReadStamp(s4);
    var (channel, s6) :- ReadChannel(s5);
    var (relay, rest) :- ReadRelay(w, s6);
    var restored := Restored(Endpoint(side, carrier, phase, intent, last, verifier, generation, Some(nonce)),
        channel, relay);
    if rest == [] && stamp == (generation, nonce) && Admitted(w, restored) then Ok(restored) else Err(SchemaFault)
  }

  // ---------------------------------------------------------------- inversion

  lemma SideInverts(side: Side)
    ensures NumberSide(SideNumber(side)) == Ok(side)
  {
  }

  lemma OptionalFieldInverts(value: Option<Bytes>, maximum: nat, rest: Bytes)
    requires value.Some? ==> |value.value| <= maximum
    requires PutOptionalField(value).Ok?
    ensures OptionalField(PutOptionalField(value).value + rest, maximum)
         == if value == Some([]) then Err(SizeFault) else Ok((value, rest))
  {
    if value.None? {
      FlagInverts(false, rest);
    } else {
      assert PutOptionalField(value).value + rest == PutFlag(true) + (PutLength(value.value) + rest);
      FlagInverts(true, PutLength(value.value) + rest);
      LengthInverts(value.value, maximum, rest);
    }
  }

  /** What the decoder demands of the retained last object. */
  predicate Retainable(w: World, last: Option<Last>) {
    last.Some? ==> last.value.bytes != Some([]) && Describes(w, last.value).None?
  }

  lemma LastInverts(w: World, last: Option<Last>, rest: Bytes)
    requires PutLast(last).Ok? && |PutLast(last).value| <= MAX_PLAINTEXT
    ensures Retainable(w, last) ==> ReadLast(w, PutLast(last).value + rest) == Ok((last, rest))
    ensures !Retainable(w, last) ==> ReadLast(w, PutLast(last).value + rest).Err?
  {
    hide Flag, Octet, Take, OptionalField, Describes;
    if last.None? {
      FlagInverts(false, rest);
    } else {
      var l := last.value;
      var r4 := PutOptionalField(l.bytes).value + rest;
      var r3 := l.hash + r4;
      var r2 := l.intent + r3;
      var r1 := [KindNumber(l.kind)] + r2;
      assert PutLast(last).value + rest == PutFlag(true) + ([SideNumber(l.sender)] + r1);
      FlagInverts(true, [SideNumber(l.sender)] + r1);
      OctetInverts(SideNumber(l.sender), r1);
      OctetInverts(KindNumber(l.kind), r2);
      TakeInverts(l.intent, r3);
      TakeInverts(l.hash, r4);
      OptionalFieldInverts(l.bytes, MAX_CIPHERTEXT, rest);
    }
  }

  lemma CounterInverts(counter: Option<u64>, rest: Bytes)
    ensures ReadCounter(PutCounter(counter) + rest) == Ok((counter, rest))
  {
    if counter.None? {
      FlagInverts(false, rest);
    } else {
      assert PutCounter(counter) + rest == PutFlag(true) + (PutNumber(counter.value) + rest);
      FlagInverts(true, PutNumber(counter.value) + rest);
      NumberInverts(counter.value, rest);
    }
  }

  lemma KeysInvert(keys: Keys, rest: Bytes)
    ensures ReadKeys(PutKeys(keys) + rest) == Ok((keys, rest))
  {
    var r4 := keys.exporter + rest;
    var r3 := keys.receiveIv + r4;
    var r2 := keys.sendIv + r3;
    var r1 := keys.receiveKey + r2;
    assert PutKeys(keys) + rest == keys.sendKey + r1;
    TakeInverts(keys.sendKey, r1);
    TakeInverts(keys.receiveKey, r2);
    TakeInverts(keys.sendIv, r3);
    TakeInverts(keys.receiveIv, r4);
    TakeInverts(keys.exporter, rest);
  }

  lemma ProgressInverts(c: Channel, rest: Bytes)
    ensures ReadProgress(PutProgress(c) + rest, c.side, c.transcript, c.keys) == Ok((c, rest))
  {
    hide PutCounter, ReadCounter, PutFlag, Flag;
    var r2 := PutFlag(c.terminal) + rest;
    var r1 := PutCounter(c.nextReceive) + r2;
    assert PutProgress(c) + rest == PutCounter(c.nextSend) + r1;
    CounterInverts(c.nextSend, r1);
    CounterInverts(c.nextReceive, r2);
    FlagInverts(c.terminal, rest);
  }

  lemma ChannelInverts(c: Channel, rest: Bytes)
    ensures ReadChannel(PutChannel(c) + rest) == Ok((c, rest))
  {
    hide PutKeys, ReadKeys, PutProgress, ReadProgress, Take, Octet;
    var r3 := PutProgress(c) + rest;
    var r2 := PutKeys(c.keys) + r3;
    var r1 := c.transcript + r2;
    assert PutChannel(c) + rest == [SideNumber(c.side)] + r1;
    OctetInverts(SideNumber(c.side), r1);
    TakeInverts(c.transcript, r2);
    KeysInvert(c.keys, r3);
    ProgressInverts(c, rest);
  }

  lemma RelayInverts(w: World, relay: Projection)
    requires Lawful(w) && PutRelay(w, relay).Ok? && |PutRelay(w, relay).value| <= MAX_PLAINTEXT
    ensures ReadRelay(w, PutRelay(w, relay).value) == if RelayShape(relay) then Ok((relay, [])) else Err(SchemaFault)
  {
    if relay.cached.None? {
      BootstrapCodec.RelayInverts(relay, [0]);
      FlagInverts(false, []);
      assert PutFlag(false) + [] == [0];
    } else {
      var bytes := w.encodeFrame(relay.cached.value).value;
      BootstrapCodec.RelayInverts(relay, [1] + PutLength(bytes));
      assert [1] + PutLength(bytes) == PutFlag(true) + PutLength(bytes);
      FlagInverts(true, PutLength(bytes));
      assert PutLength(bytes) + [] == PutLength(bytes);
      LengthInverts(bytes, MAX_CIPHERTEXT, []);
    }
  }

  /** The endpoint a checkpoint restores: the sealed one, stamped, with the bytes of a
      cached outbound object left out. */
  function Image(r: Restored, generation: u64, nonce: Bytes12): Restored {
    r.(endpoint := r.endpoint.(last := Kept(r.endpoint.last, r.endpoint.side, r.relay),
                               generation := generation, nonce := Some(nonce)))
  }

  /** Exactly the sealed states a decoder accepts. */
  predicate Restorable(w: World, r: Restored) {
    && RelayShape(r.relay)
    && Retainable(w, Kept(r.endpoint.last, r.endpoint.side, r.relay))
    && r.channel.side == r.endpoint.side && !r.channel.terminal
    && BytesAccountedFor(r.endpoint.last, r.endpoint.side, r.relay)
    && ConsistentProjection(w, r.endpoint.phase, r.endpoint.intent, r.endpoint.last)
  }

  function StateBytes(w: World, r: Restored, generation: u64, nonce: Bytes12): Bytes
    requires EncodeEndpoint(w, r, generation, nonce).Ok?
  {
    var e := r.endpoint;
    [PhaseNumber(e.phase)] + (PutOptional(e.intent) + (PutLast(Kept(e.last, e.side, r.relay)).value
    + (PutField(e.verifier).value + (BootstrapCodec.PutStamp(generation, nonce) + (PutChannel(r.channel)
    + PutRelay(w, r.relay).value)))))
  }

  lemma StampInverts(generation: u64, nonce: Bytes12, rest: Bytes)
    ensures BootstrapCodec.ReadStamp(BootstrapCodec.PutStamp(generation, nonce) + rest)
            == Ok(((generation, nonce), rest))
  {
    assert BootstrapCodec.PutStamp(generation, nonce) + rest == PutNumber(generation) + (nonce + rest);
    NumberInverts(generation, nonce + rest);
    TakeInverts(nonce, rest);
  }

  lemma ShapeIgnoresBytes(w: World, r: Restored)
    ensures ConsistentProjection(w, r.endpoint.phase, r.endpoint.intent,
            Kept(r.endpoint.last, r.endpoint.side, r.relay))
         == ConsistentProjection(w, r.endpoint.phase, r.endpoint.intent, r.endpoint.last)
  {
  }

  lemma PartsFit(w: World, r: Restored, generation: u64, nonce: Bytes12)
    requires EncodeEndpoint(w, r, generation, nonce).Ok?
    requires |EncodeEndpoint(w, r, generation, nonce).value| <= MAX_PLAINTEXT
    ensures |PutLast(Kept(r.endpoint.last, r.endpoint.side, r.relay)).value| <= MAX_PLAINTEXT
    ensures |PutRelay(w, r.relay).value| <= MAX_PLAINTEXT
    ensures |r.endpoint.verifier| <= MAX_PLAINTEXT && |w.encodeCarrier(r.endpoint.carrier)| <= MAX_PLAINTEXT
  {
    hide PutLast, PutRelay, PutChannel;
  }

  lemma StateInverts(w: World, r: Restored, generation: u64, nonce: Bytes12)
    requires Lawful(w) && EncodeEndpoint(w, r, generation, nonce).Ok?
    requires |EncodeEndpoint(w, r, generation, nonce).value| <= MAX_PLAINTEXT
    ensures var d := DecodeState(w, StateBytes(w, r, generation, nonce), r.endpoint.side, r.endpoint.carrier,
            generation, nonce);
            (Restorable(w, r) ==> d == Ok(Image(r, generation, nonce))) && (d.Ok? ==> Restorable(w, r))
  {
    hide PutRelay, PutChannel, PutLast, ReadChannel, ReadRelay, ReadLast, LengthPrefixedAllowEmpty, OptionalArray,
         PutOptional,
         BootstrapCodec.PutStamp, BootstrapCodec.ReadStamp, Octet, PutLength, ConsistentProjection, Retainable,
             RelayShape, Lawful;
    var e, last := r.endpoint, Kept(r.endpoint.last, r.endpoint.side, r.relay);
    assert PutField(e.verifier) == Ok(PutLength(e.verifier));
    ShapeIgnoresBytes(w, r);
    PartsFit(w, r, generation, nonce);
    hide EncodeEndpoint;
    var r6 := PutRelay(w, r.relay).value;
    var r5 := PutChannel(r.channel) + r6;
    var r4 := BootstrapCodec.PutStamp(generation, nonce) + r5;
    var r3 := PutLength(e.verifier) + r4;
    var r2 := PutLast(last).value + r3;
    var r1 := PutOptional(e.intent) + r2;
    OctetInverts(PhaseNumber(e.phase), r1);
    OptionalInverts(e.intent, 32, r2);
    LastInverts(w, last, r3);
    LengthInverts(e.verifier, MAX_PLAINTEXT, r4);
    StampInverts(generation, nonce, r5);
    ChannelInverts(r.channel, r6);
    RelayInverts(w, r.relay);
  }

  lemma CarrierReadsBack(w: World, r: Restored, generation: u64, nonce: Bytes12)
    requires Lawful(w) && EncodeEndpoint(w, r, generation, nonce).Ok?
    requires |EncodeEndpoint(w, r, generation, nonce).value| <= MAX_PLAINTEXT
    ensures var s := EncodeEndpoint(w, r, generation, nonce).value;
            |s| >= 32 && LengthPrefixed(s[32..], MAX_PLAINTEXT).Ok?
            && LengthPrefixed(s[32..], MAX_PLAINTEXT).value.0 == w.encodeCarrier(r.endpoint.carrier)
  {
    hide PutLast, PutRelay, PutChannel, PutOptional, BootstrapCodec.PutStamp, LengthPrefixed;
    var s, carrier := EncodeEndpoint(w, r, generation, nonce).value, w.encodeCarrier(r.endpoint.carrier);
    assert s[32..] == PutLength(carrier) + s[32 + |PutLength(carrier)|..];
    LengthInverts(carrier, MAX_PLAINTEXT, s[32 + |PutLength(carrier)|..]);
  }

  /** A sealed endpoint restores if and only if it is restorable, and then to itself
      up to the bytes of a cached outbound object. */
  lemma EndpointRoundTrip(w: World, r: Restored, generation: u64, nonce: Bytes12)
    requires Lawful(w) && EncodeEndpoint(w, r, generation, nonce).Ok?
    requires |EncodeEndpoint(w, r, generation, nonce).value| <= MAX_PLAINTEXT
    ensures var d := DecodeEndpoint(w, EncodeEndpoint(w, r, generation, nonce).value, r.endpoint.side,
                                    r.endpoint.carrier, generation, nonce);
            (d.Ok? <==> Restorable(w, r)) && (d.Ok? ==> d.value == Image(r, generation, nonce))
  {
    StateInverts(w, r, generation, nonce);
    PartsFit(w, r, generation, nonce);
    hide PutRelay, PutChannel, PutLast, DecodeState, Restorable, Image, Octet, LengthPrefixed, PutLength;
    var carrier := w.encodeCarrier(r.endpoint.carrier);
    var state := StateBytes(w, r, generation, nonce);
    var rest := [SideNumber(r.endpoint.side)] + (PutLength(carrier) + state);
    assert EncodeEndpoint(w, r, generation, nonce).value == TAG + rest;
    hide StateBytes;
    TakeInverts(TAG, rest);
    OctetInverts(SideNumber(r.endpoint.side), PutLength(carrier) + state);
    LengthInverts(carrier, MAX_PLAINTEXT, state);
  }
}
