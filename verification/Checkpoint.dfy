/** Sealed checkpoints (src/credential_v2/checkpoint.rs and the sealing half of
    src/credential_v2/bootstrap.rs): what may be sealed, and under which caller-held
    bindings it opens again. The AEAD is ideal: a checkpoint is its key, its
    authenticated header and its plaintext, and opens under no other key. */
module Checkpoints {
  import opened Base
  import opened V2
  import opened Projections
  import opened Channels
  import opened Bootstraps
  import opened Endpoints
  import opened EndpointCodec
  import opened Cursors
  import BootstrapCodec

  datatype Checkpoint = Checkpoint(
    key: Bytes32, side: Side, ceremony: Bytes32, generation: u64, expiry: Option<u64>, nonce: Bytes12, plaintext: Bytes)

  function SealPlaintext(plaintext: Bytes, side: Side, carrier: Carrier, key: Bytes32, generation: u64,
      expiry: Option<u64>, nonce: Bytes12)
    : Outcome<Checkpoint>
  {
    if |plaintext| == 0 || |plaintext| > EndpointCodec.MAX_PLAINTEXT then Err(SizeFault)
    else Ok(Checkpoint(key, side, carrier.ceremony, generation, expiry, nonce, plaintext))
  }

  /** `open_checkpoint_plaintext`: everything checked before the plaintext is read. */
  function Refuses(c: Checkpoint, key: Bytes32, side: Side, carrier: Carrier, generation: u64,
      now: u64): Option<Fault> {
    if c.side != side || c.ceremony != carrier.ceremony || c.generation == 0 || c.generation != generation
        then Some(ProfileFault)
    else if c.expiry.Some? && now >= c.expiry.value then Some(ExpiredFault)
    else if c.key != key then Some(AuthenticationFault)
    else None
  }

  /** The rule both seals apply: the next generation, and never the previous nonce. */
  predicate Stale(generation: u64, nonce: Bytes12, previous: u64, previousNonce: Option<Bytes12>) {
    generation == 0 || generation != SaturatingSucc(previous) || previousNonce == Some(nonce)
  }

  function SealBootstrap(w: World, b: Bootstrap, key: Bytes32, generation: u64, nonce: Bytes12,
      now: u64): Outcome<Checkpoint> {
    if now >= b.carrier.expiresAt then Err(ExpiredFault)
    else if Stale(generation, nonce, b.generation, b.nonce) then Err(CounterFault)
    else
      var plaintext :- BootstrapCodec.EncodeBootstrap(w, b, generation, nonce);
      SealPlaintext(plaintext, V2.Allocator, b.carrier, key, generation, Some(b.carrier.expiresAt), nonce)
  }

  function RestoreBootstrap(w: World, c: Checkpoint, key: Bytes32, carrier: Carrier, generation: u64, now: u64,
      mode: Mode): Outcome<Bootstrap> {
    var refused := Refuses(c, key, V2.Allocator, carrier, generation, now);
    if refused.Some? then Err(refused.value)
    else if c.expiry != Some(carrier.expiresAt) then Err(SchemaFault)
    else BootstrapCodec.DecodeBootstrap(w, c.plaintext, carrier, generation, c.nonce, mode)
  }

  /** `validate_checkpoint_phase` */
  function PhaseRefused(e: Endpoint, expiry: Option<u64>, now: u64): Option<Fault> {
    var bounded :=
      if expiry.Some? && expiry.value == e.carrier.expiresAt && now < expiry.value then None
      else if expiry.Some? && now >= e.carrier.expiresAt then Some(ExpiredFault)
      else Some(SchemaFault);
    if e.phase.Ended? && !ReceiptReleased(e) then Some(TerminalFault)
    else if e.side.Allocator? || e.phase.FinalApproved? then bounded
    else if e.phase.PayloadSent? then if expiry.None? then None else Some(SchemaFault)
    else Some(PhaseFault)
  }

  function SealEndpoint(w: World, r: Restored, key: Bytes32, generation: u64, expiry: Option<u64>, nonce: Bytes12,
      now: u64): Outcome<Checkpoint> {
    if r.channel.side != r.endpoint.side then Err(DirectionFault)
    else if PhaseRefused(r.endpoint, expiry, now).Some? then Err(PhaseRefused(r.endpoint, expiry, now).value)
    else if Stale(generation, nonce, r.endpoint.generation, r.endpoint.nonce) then Err(CounterFault)
    else
      var plaintext :- EncodeEndpoint(w, r, generation, nonce);
      SealPlaintext(plaintext, r.endpoint.side, r.endpoint.carrier, key, generation, expiry, nonce)
  }

  function RestoreEndpoint(w: World, c: Checkpoint, key: Bytes32, side: Side, carrier: Carrier, generation: u64,
      now: u64): Outcome<Restored> {
    var refused := Refuses(c, key, side, carrier, generation, now);
    if refused.Some? then Err(refused.value)
    else
      var restored :- DecodeEndpoint(w, c.plaintext, side, carrier, generation, c.nonce);
      var barred := PhaseRefused(restored.endpoint, c.expiry, now);
      if barred.Some? then Err(barred.value) else Ok(restored)
  }

  // ---------------------------------------------------------------- the two plaintexts stay apart

  lemma TagOf(w: World, b: Bootstrap, generation: u64, nonce: Bytes12)
    requires BootstrapCodec.EncodeBootstrap(w, b, generation, nonce).Ok?
    ensures var s := BootstrapCodec.EncodeBootstrap(w, b, generation, nonce).value;
            |s| >= 36 && s[..36] == BootstrapCodec.TAG + [BootstrapCodec.ModeNumber(b.mode)]
  {
    hide BootstrapCodec.PutFrame, BootstrapCodec.PutBounded, BootstrapCodec.PutAuthority, BootstrapCodec.PutRelay,
         BootstrapCodec.PutStamp, PutOptional, Consistent;
  }

  lemma EndpointTagOf(w: World, r: Restored, generation: u64, nonce: Bytes12)
    requires EncodeEndpoint(w, r, generation, nonce).Ok?
    ensures var s := EncodeEndpoint(w, r, generation, nonce).value;
            |s| >= 36 && s[..31] == EndpointCodec.TAG
  {
    assert |PutChannel(r.channel)| >= 36;
    hide PutField, PutRelay, PutLast, PutOptional, PutChannel, BootstrapCodec.PutStamp;
  }

  /** Neither decoder ever accepts what the other encoder wrote. */
  lemma EndpointIsNoBootstrap(w: World, r: Restored, g: u64, n: Bytes12, carrier: Carrier, generation: u64,
      nonce: Bytes12, mode: Mode)
    requires EncodeEndpoint(w, r, g, n).Ok?
    ensures BootstrapCodec.DecodeBootstrap(w, EncodeEndpoint(w, r, g, n).value, carrier, generation, nonce, mode)
            == Err(SchemaFault)
  {
    hide EncodeEndpoint, BootstrapCodec.DecodeFields;
    EndpointTagOf(w, r, g, n);
    var s := EncodeEndpoint(w, r, g, n).value;
    assert s[..36][13] == s[..31][13] == EndpointCodec.TAG[13];
    assert s[..36][..35][13] == EndpointCodec.TAG[13];
    assert BootstrapCodec.TagMode(s[..36]) == Err(SchemaFault);
  }

  lemma BootstrapIsNoEndpoint(w: World, b: Bootstrap, g: u64, n: Bytes12, carrier: Carrier, generation: u64,
      nonce: Bytes12, side: Side)
    requires BootstrapCodec.EncodeBootstrap(w, b, g, n).Ok?
    ensures DecodeEndpoint(w, BootstrapCodec.EncodeBootstrap(w, b, g, n).value, side, carrier, generation, nonce)
            == Err(SchemaFault)
  {
    hide BootstrapCodec.EncodeBootstrap, DecodeState, LengthPrefixed, Octet, NumberSide;
    TagOf(w, b, g, n);
    var s := BootstrapCodec.EncodeBootstrap(w, b, g, n).value;
    assert s[..31][13] == s[..36][13] == BootstrapCodec.TAG[13] != EndpointCodec.TAG[13];
  }

  // ---------------------------------------------------------------- bindings

  lemma WrongBindingsFail(w: World, b: Bootstrap, g: u64, n: Bytes12, carrier: Carrier, mode: Mode)
    requires Lawful(w) && BootstrapCodec.EncodeBootstrap(w, b, g, n).Ok?
    requires carrier != b.carrier || mode != b.mode
    ensures BootstrapCodec.DecodeBootstrap(w, BootstrapCodec.EncodeBootstrap(w, b, g, n).value, carrier, g, n, mode)
            == Err(ProfileFault)
  {
    BootstrapCodec.FieldsInvert(w, b, g, n);
    var s := BootstrapCodec.EncodeBootstrap(w, b, g, n).value;
    TagOf(w, b, g, n);
    BootstrapCodec.TagInverts(b.mode, s[36..]);
    hide BootstrapCodec.ReadAuthority, BootstrapCodec.ReadRelay, OptionalFrame, OptionalArray, Revive,
         BootstrapCodec.EncodeBootstrap;
    BootstrapCodec.CarrierReadsBack(w, b, g, n);
  }

  /** A sealed bootstrap opens under exactly the key, carrier, generation and mode it
      was sealed with, before its expiry, and opens to the very state sealed. */
  lemma BootstrapRestoresExactly(w: World, b: Bootstrap, key: Bytes32, generation: u64, nonce: Bytes12, sealedAt: u64,
      key': Bytes32, carrier: Carrier, generation': u64, now: u64, mode: Mode)
    requires Lawful(w) && Derived(w, b) && SealBootstrap(w, b, key, generation, nonce, sealedAt).Ok?
    ensures var r := RestoreBootstrap(w, SealBootstrap(w, b, key, generation, nonce, sealedAt).value, key', carrier,
            generation', now, mode);
            && (r.Ok? <==>
                 key' == key && carrier == b.carrier && generation' == generation && mode == b.mode
                     && now < carrier.expiresAt)
            && (r.Ok? ==> r.value == b.(generation := generation, nonce := Some(nonce)))
  {
    BootstrapCodec.BootstrapRoundTrip(w, b, generation, nonce);
    if carrier != b.carrier || mode != b.mode { WrongBindingsFail(w, b, generation, nonce, carrier, mode); }
    hide BootstrapCodec.EncodeBootstrap, BootstrapCodec.DecodeBootstrap, Derived;
  }

  /** A sealed endpoint restores to itself, up to the omitted bytes, under its own
      bindings and before its expiry, if and only if it is restorable. */
  lemma EndpointRestoresExactly(w: World, r: Restored, key: Bytes32, generation: u64, expiry: Option<u64>,
      nonce: Bytes12, sealedAt: u64, now: u64)
    requires Lawful(w) && SealEndpoint(w, r, key, generation, expiry, nonce, sealedAt).Ok?
    requires expiry.Some? ==> now < expiry.value
    ensures var back := RestoreEndpoint(w, SealEndpoint(w, r, key, generation, expiry, nonce, sealedAt).value, key,
                                        r.endpoint.side, r.endpoint.carrier, generation, now);
            && (back.Ok? <==> Restorable(w, r))
            && (back.Ok? ==> back.value == Image(r, generation, nonce))
  {
    EndpointRoundTrip(w, r, generation, nonce);
    hide EncodeEndpoint, DecodeEndpoint, Restorable;
  }

  // ---------------------------------------------------------------- the states a session holds

  /** What every live session keeps of its endpoint, channel and relay membership:
      all that a restore asks, except for the bytes of the last object. */
  ghost predicate Held(w: World, r: Restored) {
    && RelayShape(r.relay)
    && r.channel.side == r.endpoint.side && !r.channel.terminal
    && Retainable(w, r.endpoint.last)
    && ConsistentProjection(w, r.endpoint.phase, r.endpoint.intent, r.endpoint.last)
  }

  /** The one state that seals and does not restore: an own last object whose bytes an
      earlier checkpoint omitted, once its frame has been acknowledged. */
  lemma OnlyForgottenBytesBar(w: World, r: Restored)
    requires Held(w, r)
    ensures Restorable(w, r) <==> BytesAccountedFor(r.endpoint.last, r.endpoint.side, r.relay)
  {
  }

  /** Every run that restores an endpoint with a cached own object and then has the
      object acknowledged ends there: whatever it seals next never restores. */
  lemma ForgottenThenAcknowledged(w: World, r: Restored, generation: u64, nonce: Bytes12, sequence: u8, key: Bytes32,
      next: u64, expiry: Option<u64>, nextNonce: Bytes12, sealedAt: u64, now: u64)
    requires Lawful(w) && Held(w, r) && r.endpoint.last.Some? && r.endpoint.last.value.sender == r.endpoint.side
             && r.relay.cached.Some?
    requires r.relay.AcknowledgeApplication(sequence).Ok?
    requires var acknowledged := Image(r, generation, nonce).(relay := r.relay.AcknowledgeApplication(sequence).value);
             SealEndpoint(w, acknowledged, key, next, expiry, nextNonce, sealedAt).Ok?
                 && (expiry.Some? ==> now < expiry.value)
    ensures var acknowledged := Image(r, generation, nonce).(relay := r.relay.AcknowledgeApplication(sequence).value);
            RestoreEndpoint(w, SealEndpoint(w, acknowledged, key, next, expiry, nextNonce, sealedAt).value, key,
                            r.endpoint.side, r.endpoint.carrier, next, now).Err?
  {
    var acknowledged := Image(r, generation, nonce).(relay := r.relay.AcknowledgeApplication(sequence).value);
    EndpointRestoresExactly(w, acknowledged, key, next, expiry, nextNonce, sealedAt, now);
    hide SealEndpoint, RestoreEndpoint, ConsistentProjection, Lawful;
  }

  /** An allocator that has just sent an Offer: the simplest state on the way there. */
  function OfferSent(carrier: Carrier, o: Object, transcript: Bytes64, keys: Keys, token: Bytes32, ciphertext: Bytes,
      nonce: Bytes12): Restored {
    Restored(
      Endpoint(V2.Allocator, carrier, Offered, Some(o.intent),
          Some(Last(V2.Allocator, Some(o.bytes), Offer, o.intent, o.hash)), [], 1, Some(nonce)),
      Channel(V2.Allocator, transcript, keys, Some(1), Some(0), false),
      Projection(token, 3, 2, true, Some(Sealed(AllocatorToClaimant, 0, ciphertext))))
  }

  /** That state after a restart from its checkpoint and the Offer's acknowledgement. */
  function OfferForgotten(carrier: Carrier, o: Object, transcript: Bytes64, keys: Keys, token: Bytes32,
      ciphertext: Bytes, nonce: Bytes12): Restored {
    var sent := OfferSent(carrier, o, transcript, keys, token, ciphertext, nonce);
    Image(sent, 1, nonce).(relay := Projection(token, 3, 2, false, None))
  }

  lemma ForgottenEncodes(w: World, carrier: Carrier, o: Object, transcript: Bytes64, keys: Keys, token: Bytes32,
      ciphertext: Bytes, nonce: Bytes12, next: Bytes12)
    requires |w.encodeCarrier(carrier)| <= 4_000
    ensures var s := EncodeEndpoint(w, OfferForgotten(carrier, o, transcript, keys, token, ciphertext, nonce), 2, next);
            s.Ok? && 0 < |s.value| <= EndpointCodec.MAX_PLAINTEXT
  {
    var r := OfferForgotten(carrier, o, transcript, keys, token, ciphertext, nonce);
    var last := Kept(r.endpoint.last, r.endpoint.side, r.relay);
    assert last == Some(Last(V2.Allocator, None, Offer, o.intent, o.hash));
    assert PutLast(last).Ok? && |PutLast(last).value| == 68;
    assert PutRelay(w, r.relay).Ok? && |PutRelay(w, r.relay).value| == 36;
    assert |PutChannel(r.channel)| == 204;
    hide PutLast, PutRelay, PutChannel;
  }

  /** A concrete family: whatever the carrier (up to 4,000 octets), Offer, keys and frame,
      the checkpoint taken after the acknowledgement is sealed and refused on restore. */
  lemma ForgottenOffer(w: World, carrier: Carrier, o: Object, transcript: Bytes64, keys: Keys, token: Bytes32,
      ciphertext: Bytes, nonce: Bytes12, next: Bytes12, key: Bytes32)
    requires Lawful(w) && Recognised(w, o) && o.kind.Offer? && |w.encodeCarrier(carrier)| <= 4_000
             && carrier.expiresAt > 0 && nonce != next
    ensures var sent := OfferSent(carrier, o, transcript, keys, token, ciphertext, nonce);
            var forgotten := OfferForgotten(carrier, o, transcript, keys, token, ciphertext, nonce);
            var checkpoint := SealEndpoint(w, forgotten, key, 2, Some(carrier.expiresAt), next, 0);
            && Held(w, sent) && sent.relay.AcknowledgeApplication(2) == Ok(forgotten.relay)
            && checkpoint.Ok? && RestoreEndpoint(w, checkpoint.value, key, V2.Allocator, carrier, 2, 0).Err?
  {
    hide EncodeEndpoint, DecodeEndpoint;
    var sent := OfferSent(carrier, o, transcript, keys, token, ciphertext, nonce);
    var forgotten := OfferForgotten(carrier, o, transcript, keys, token, ciphertext, nonce);
    assert o.bytes != [];
    ForgottenEncodes(w, carrier, o, transcript, keys, token, ciphertext, nonce, next);
    EndpointRestoresExactly(w, forgotten, key, 2, Some(carrier.expiresAt), next, 0, 0);
    assert !BytesAccountedFor(forgotten.endpoint.last, V2.Allocator, forgotten.relay);
  }
}
