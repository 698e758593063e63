/** The sealed plaintext of an allocator bootstrap: `encode_inner` and
    `decode_inner` in src/credential_v2/bootstrap.rs. */
module BootstrapCodec {
  import opened Base
  import opened V2
  import opened Projections
  import opened Bootstraps
  import opened Octets
  import opened Cursors

  const MAX_INNER: nat := 69_616
  const MAX_FRAME: nat := 69_600

  /** `cbcl-pairing allocator bootstrap/v3`, followed by one mode octet. */
  const TAG: Bytes :=
    [99, 98, 99, 108, 45, 112, 97, 105, 114, 105, 110, 103, 32, 97, 108, 108, 111, 99, 97, 116, 111, 114, 32, 98,
        111, 111, 116, 115, 116, 114, 97, 112, 47, 118, 51]

  /** `cbcl-pairing allocator bootstrap/v2` and a zero octet: written before modes existed. */
  const OLD_TAG: Bytes :=
    [99, 98, 99, 108, 45, 112, 97, 105, 114, 105, 110, 103, 32, 97, 108, 108, 111, 99, 97, 116, 111, 114, 32, 98,
        111, 111, 116, 115, 116, 114, 97, 112, 47, 118, 50, 0]

  function ModeNumber(mode: Mode): u8 { if mode.Full? then 0 else 1 }

  function PhaseNumber(phase: BootPhase): u8 {
    match phase case Allocated => 0 case Claimed => 1 case ShareSent => 2 case FinishedSent => 3
  }

  function NumberPhase(n: u8): Outcome<BootPhase> {
    if n == 0 then Ok(Allocated) else if n == 1 then Ok(Claimed)
    else if n == 2 then Ok(ShareSent) else if n == 3 then Ok(FinishedSent)
    else Err(SchemaFault)
  }

  // ---------------------------------------------------------------- writer

  function PutBounded(value: Bytes): Outcome<Bytes> {
    if |value| == 0 || |value| > MAX_FRAME then Err(SizeFault) else Ok(PutLength(value))
  }

  function PutFrame(w: World, frame: Option<Frame>): Outcome<Bytes> {
    if frame.None? then Ok([0])
    else
      var bytes :- w.encodeFrame(frame.value);
      var field :- PutBounded(bytes);
      Ok([1] + field)
  }

  function PutAuthority(profile: Bytes32, phase: BootPhase, presence: Presence): Bytes {
    profile + ([PhaseNumber(phase)] + (presence.secret + PutOptional(presence.claimToken)))
  }

  function PutRelay(relay: Projection): Bytes {
    relay.token + ([relay.nextLocal] + ([relay.nextPeer] + PutFlag(relay.awaitingAck)))
  }

  function PutStamp(generation: u64, nonce: Bytes12): Bytes { PutNumber(generation) + nonce }

  function EncodeBootstrap(w: World, b: Bootstrap, generation: u64, nonce: Bytes12): Outcome<Bytes> {
    if !Consistent(b) then Err(SchemaFault)
    else
      var carrier :- PutBounded(w.encodeCarrier(b.carrier));
      var peerCpace :- PutFrame(w, b.peerCpace);
      var peerFinished :- PutFrame(w, b.peerFinished);
      var cached :- PutFrame(w, b.cached);
      var fields := carrier + (PutAuthority(b.profile, b.phase, b.presence) + (PutRelay(b.relay)
                    + (PutOptional(b.scalar) + (peerCpace + (peerFinished + (cached + PutStamp(generation, nonce)))))));
      if |TAG| + 1 + |fields| > MAX_INNER then Err(SizeFault)
      else Ok(TAG + [ModeNumber(b.mode)] + fields)
  }

  // ---------------------------------------------------------------- reader

  function TagMode(tag: Bytes): Outcome<Mode>
    requires |tag| == 36
  {
    if tag == OLD_TAG then Ok(Full)
    else if tag[..35] == TAG then
      if tag[35] == 0 then Ok(Full) else if tag[35] == 1 then Ok(Manual) else Err(SchemaFault)
    else Err(SchemaFault)
  }

  datatype Authority = Authority(profile: Bytes32, phase: BootPhase, presence: Presence)

  function ReadAuthority(s: Bytes): Parsed<Authority> {
    var (profile, s1) :- Take(s, 32);
    var (number, s2) :- Octet(s1);
    var phase :- NumberPhase(number);
    var (secret, s3) :- Take(s2, 16);
    var (claimToken, rest) :- OptionalArray(s3, 16);
    Ok((Authority(profile, phase, Presence(secret, claimToken)), rest))
  }

  function ReadRelay(s: Bytes): Parsed<Projection> {
    var (token, s1) :- Take(s, 32);
    var (nextLocal, s2) :- Octet(s1);
    var (nextPeer, s3) :- Octet(s2);
    var (awaiting, rest) :- Flag(s3);
    Ok((Projection(token, nextLocal, nextPeer, awaiting, None), rest))
  }

  function ReadStamp(s: Bytes): Parsed<(u64, Bytes)> {
    var (generation, s1) :- Number(s);
    var (nonce, rest) :- Take(s1, 12);
    Ok(((generation, nonce), rest))
  }

  function DecodeBootstrap(w: World, s: Bytes, expected: Carrier, generation: u64, nonce: Bytes12,
      mode: Mode): Outcome<Bootstrap> {
    var (tag, rest) :- Take(s, 36);
    var found :- TagMode(tag);
    if found != mode then Err(ProfileFault) else DecodeFields(w, rest, expected, generation, nonce, mode)
  }

  function DecodeFields(w: World, s: Bytes, expected: Carrier, generation: u64, nonce: Bytes12,
      mode: Mode): Outcome<Bootstrap> {
    var (carrierBytes, s1) :- LengthPrefixed(s, MAX_INNER);
    var carrier :- w.decodeCarrier(carrierBytes);
    if carrier != expected then Err(ProfileFault)
    else
      var (authority, s2) :- ReadAuthority(s1);
      var (relay, s3) :- ReadRelay(s2);
      var (scalar, s4) :- OptionalArray(s3, 32);
      var (peerCpace, s5) :- OptionalFrame(w, s4, MAX_FRAME);
      var (peerFinished, s6) :- OptionalFrame(w, s5, MAX_FRAME);
      var (cached, s7) :- OptionalFrame(w, s6, MAX_FRAME);
      var (stamp, rest) :- ReadStamp(s7);
      if rest != [] || stamp != (generation, nonce) then Err(SchemaFault)
      else
        Revive(w, Bootstrap(carrier, mode, authority.presence, authority.profile, relay, authority.phase, scalar,
                            peerCpace, peerFinished, None, cached, generation, Some(nonce)))
  }

  // ---------------------------------------------------------------- inversion

  lemma AuthorityInverts(profile: Bytes32, phase: BootPhase, presence: Presence, rest: Bytes)
    ensures ReadAuthority(PutAuthority(profile, phase, presence) + rest)
            == Ok((Authority(profile, phase, presence), rest))
  {
    var last := PutOptional(presence.claimToken) + rest;
    var later := [PhaseNumber(phase)] + (presence.secret + last);
    assert PutAuthority(profile, phase, presence) + rest == profile + later;
    TakeInverts(profile, later);
    OctetInverts(PhaseNumber(phase), presence.secret + last);
    TakeInverts(presence.secret, last);
    OptionalInverts(presence.claimToken, 16, rest);
  }

  lemma RelayInverts(relay: Projection, rest: Bytes)
    ensures ReadRelay(PutRelay(relay) + rest) == Ok((relay.(cached := None), rest))
  {
    var last := PutFlag(relay.awaitingAck) + rest;
    assert PutRelay(relay) + rest == relay.token + ([relay.nextLocal] + ([relay.nextPeer] + last));
    TakeInverts(relay.token, [relay.nextLocal] + ([relay.nextPeer] + last));
    OctetInverts(relay.nextLocal, [relay.nextPeer] + last);
    OctetInverts(relay.nextPeer, last);
    FlagInverts(relay.awaitingAck, rest);
  }

  lemma FrameInverts(w: World, frame: Option<Frame>, rest: Bytes)
    requires Lawful(w) && PutFrame(w, frame).Ok?
    ensures OptionalFrame(w, PutFrame(w, frame).value + rest, MAX_FRAME) == Ok((frame, rest))
  {
    if frame.None? {
      FlagInverts(false, rest);
    } else {
      var bytes := w.encodeFrame(frame.value).value;
      assert PutFrame(w, frame).value + rest == PutFlag(true) + (PutLength(bytes) + rest);
      FlagInverts(true, PutLength(bytes) + rest);
      LengthInverts(bytes, MAX_FRAME, rest);
    }
  }

  lemma StampInverts(generation: u64, nonce: Bytes12)
    ensures ReadStamp(PutStamp(generation, nonce)) == Ok(((generation, nonce), []))
  {
    NumberInverts(generation, nonce);
    assert nonce + [] == nonce;
    TakeInverts(nonce, []);
  }

  lemma TagInverts(mode: Mode, fields: Bytes)
    ensures Take(TAG + [ModeNumber(mode)] + fields, 36) == Ok((TAG + [ModeNumber(mode)], fields))
    ensures TagMode(TAG + [ModeNumber(mode)]) == Ok(mode)
  {
    TakeInverts(TAG + [ModeNumber(mode)], fields);
    assert (TAG + [ModeNumber(mode)])[..35] == TAG;
    assert TAG[34] != OLD_TAG[34];
  }

  lemma FieldsInvert(w: World, b: Bootstrap, generation: u64, nonce: Bytes12)
    requires Lawful(w) && EncodeBootstrap(w, b, generation, nonce).Ok?
    ensures DecodeFields(w, EncodeBootstrap(w, b, generation, nonce).value[36..], b.carrier, generation, nonce, b.mode)
         == Revive(w, b.(relay := b.relay.(cached := None), pending := None, generation := generation,
             nonce := Some(nonce)))
  {
    var carrier := w.encodeCarrier(b.carrier);
    var peerCpace, peerFinished, cached := PutFrame(w, b.peerCpace).value, PutFrame(w, b.peerFinished).value,
        PutFrame(w, b.cached).value;
    var r7 := PutStamp(generation, nonce);
    var r6 := cached + r7;
    var r5 := peerFinished + r6;
    var r4 := peerCpace + r5;
    var r3 := PutOptional(b.scalar) + r4;
    var r2 := PutRelay(b.relay) + r3;
    var r1 := PutAuthority(b.profile, b.phase, b.presence) + r2;
    assert EncodeBootstrap(w, b, generation, nonce).value == TAG + [ModeNumber(b.mode)] + (PutLength(carrier) + r1);
    TagInverts(b.mode, PutLength(carrier) + r1);
    LengthInverts(carrier, MAX_INNER, r1);
    AuthorityInverts(b.profile, b.phase, b.presence, r2);
    RelayInverts(b.relay, r3);
    OptionalInverts(b.scalar, 32, r4);
    FrameInverts(w, b.peerCpace, r5);
    FrameInverts(w, b.peerFinished, r6);
    FrameInverts(w, b.cached, r7);
    StampInverts(generation, nonce);
  }

  lemma CarrierReadsBack(w: World, b: Bootstrap, generation: u64, nonce: Bytes12)
    requires EncodeBootstrap(w, b, generation, nonce).Ok?
    ensures var s := EncodeBootstrap(w, b, generation, nonce).value;
            |s| >= 36 && LengthPrefixed(s[36..], MAX_INNER).Ok?
            && LengthPrefixed(s[36..], MAX_INNER).value.0 == w.encodeCarrier(b.carrier)
  {
    hide PutFrame, PutAuthority, PutRelay, PutStamp, PutOptional, Consistent, LengthPrefixed;
    var s, carrier := EncodeBootstrap(w, b, generation, nonce).value, w.encodeCarrier(b.carrier);
    assert s[36..] == PutLength(carrier) + s[36 + |PutLength(carrier)|..];
    LengthInverts(carrier, MAX_INNER, s[36 + |PutLength(carrier)|..]);
  }

  /** Restoring a sealed bootstrap returns it field for field, with the key schedule
      rebuilt from the retained scalar and the peer's share. */
  lemma BootstrapRoundTrip(w: World, b: Bootstrap, generation: u64, nonce: Bytes12)
    requires Lawful(w) && Derived(w, b) && EncodeBootstrap(w, b, generation, nonce).Ok?
    ensures DecodeBootstrap(w, EncodeBootstrap(w, b, generation, nonce).value, b.carrier, generation, nonce, b.mode)
         == Ok(b.(generation := generation, nonce := Some(nonce)))
  {
    FieldsInvert(w, b, generation, nonce);
    var fields := EncodeBootstrap(w, b, generation, nonce).value[36..];
    assert EncodeBootstrap(w, b, generation, nonce).value == TAG + [ModeNumber(b.mode)] + fields;
    TagInverts(b.mode, fields);
  }

  /** Checkpoints written before modes existed read exactly as Full ones. */
  lemma OldTagReadsAsFull(w: World, fields: Bytes, expected: Carrier, generation: u64, nonce: Bytes12, mode: Mode)
    ensures DecodeBootstrap(w, OLD_TAG + fields, expected, generation, nonce, mode)
         == DecodeBootstrap(w, TAG + [0] + fields, expected, generation, nonce, mode)
    ensures DecodeBootstrap(w, OLD_TAG + fields, expected, generation, nonce, Manual) == Err(ProfileFault)
  {
    TakeInverts(OLD_TAG, fields);
    TagInverts(Full, fields);
  }

  // ---------------------------------------------------------------- the program's reader

  method TakeAuthority(cursor: Cursor) returns (r: Outcome<Authority>)
    requires cursor.Valid()
    modifies cursor`position
    ensures cursor.Valid()
    ensures match ReadAuthority(old(cursor.Left()))
            case Ok((value, rest)) => r == Ok(value) && cursor.Left() == rest
            case Err(e) => r == Err(e)
  {
    var profile :- cursor.TakeOctets(32);
    var number :- cursor.TakeOctet();
    var phase :- NumberPhase(number);
    var secret :- cursor.TakeOctets(16);
    var claimToken :- cursor.TakeOptionalArray(16);
    return Ok(Authority(profile, phase, Presence(secret, claimToken)));
  }

  method TakeRelay(cursor: Cursor) returns (r: Outcome<Projection>)
    requires cursor.Valid()
    modifies cursor`position
    ensures cursor.Valid()
    ensures match ReadRelay(old(cursor.Left()))
            case Ok((value, rest)) => r == Ok(value) && cursor.Left() == rest
            case Err(e) => r == Err(e)
  {
    var token :- cursor.TakeOctets(32);
    var nextLocal :- cursor.TakeOctet();
    var nextPeer :- cursor.TakeOctet();
    var awaiting :- cursor.TakeFlag();
    return Ok(Projection(token, nextLocal, nextPeer, awaiting, None));
  }

  method TakeStamp(cursor: Cursor) returns (r: Outcome<(u64, Bytes)>)
    requires cursor.Valid()
    modifies cursor`position
    ensures cursor.Valid()
    ensures match ReadStamp(old(cursor.Left()))
            case Ok((value, rest)) => r == Ok(value) && cursor.Left() == rest
            case Err(e) => r == Err(e)
  {
    var generation :- cursor.TakeNumber();
    var nonce :- cursor.TakeOctets(12);
    return Ok((generation, nonce));
  }

  method TakeFields(w: World, cursor: Cursor, expected: Carrier, generation: u64, nonce: Bytes12, mode: Mode)
    returns (r: Outcome<Bootstrap>)
    requires cursor.Valid()
    modifies cursor`position
    ensures r == DecodeFields(w, old(cursor.Left()), expected, generation, nonce, mode)
  {
    hide ReadAuthority, ReadRelay, ReadStamp, OptionalFrame, OptionalArray, LengthPrefixed, Revive;
    var carrierBytes :- cursor.TakeLengthPrefixed(MAX_INNER);
    var carrier :- w.decodeCarrier(carrierBytes);
    if carrier != expected { return Err(ProfileFault); }
    var authority :- TakeAuthority(cursor);
    var relay :- TakeRelay(cursor);
    var octets :- cursor.TakeOptionalArray(32);
    var scalar: Option<Bytes32> := if octets.None? then None else Some(octets.value);
    var peerCpace :- cursor.TakeOptionalFrame(w, MAX_FRAME);
    var peerFinished :- cursor.TakeOptionalFrame(w, MAX_FRAME);
    var cached :- cursor.TakeOptionalFrame(w, MAX_FRAME);
    var stamp :- TakeStamp(cursor);
    if cursor.position != |cursor.input| || stamp.0 != generation || stamp.1 != nonce { return Err(SchemaFault); }
    return Revive(w, Bootstrap(carrier, mode, authority.presence, authority.profile, relay, authority.phase, scalar,
                               peerCpace, peerFinished, None, cached, generation, Some(nonce)));
  }

  /** The program's reader, moving one cursor over the input, is the decoder above. */
  method DecodeInner(w: World, input: Bytes, expected: Carrier, generation: u64, nonce: Bytes12, mode: Mode)
    returns (r: Outcome<Bootstrap>)
    ensures r == DecodeBootstrap(w, input, expected, generation, nonce, mode)
  {
    var cursor := new Cursor(input);
    var tag :- cursor.TakeOctets(36);
    var found :- TagMode(tag);
    if found != mode { return Err(ProfileFault); }
    r := TakeFields(w, cursor, expected, generation, nonce, mode);
  }
}
