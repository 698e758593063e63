/** The credential/v2 allocator session (src/credential_v2/allocator.rs): a
    relay-driven client whose every new send waits behind a durable checkpoint. */
module Allocators {
  import opened Base
  import opened V2
  import opened Projections
  import opened Channels
  import opened Bootstraps
  import opened Endpoints
  import opened EndpointCodec
  import opened Checkpoints
  import opened Wires

  datatype Effect =
    | Send(message: ClientMessage)
    | Save(generation: u64, checkpoint: Checkpoint, carrier: Bytes)
    | PendingAllocation(carrier: Bytes)
    | ChannelEstablished(transcript: Bytes64)
    | ReceivedObject(o: Object)
    | SessionTerminal

  datatype State =
    | AwaitWelcome | AwaitAllocation | Boot(bootstrap: Bootstrap) | Established(core: Restored) | Terminal

  datatype Session = Session(
    template: Carrier, presence: Option<Presence>, scalar: Option<Bytes32>, mode: Mode, profile: Bytes32,
    key: Bytes32, verifier: Option<Bytes>, state: State, gate: Option<u64>, after: seq<Effect>, resume: bool)

  type Reply = Outcome<(Session, seq<Effect>)>

  function Relay(m: ClientMessage): Outcome<Effect> {
    var sent :- RelayMessage(m);
    Ok(Send(sent))
  }

  function RelayPut(w: World, sequence: u8, frame: Frame): Outcome<Effect> {
    var sent :- PutMessage(w, sequence, frame);
    Ok(Send(sent))
  }

  function NewSession(carrier: Carrier, secret: Bytes16, claimToken: Bytes16, scalar: Bytes32, mode: Mode,
      profile: Bytes32, key: Bytes32, verifier: Bytes): Outcome<Session>
  {
    if mode.Manual? && !ManualSecret(secret) then Err(SchemaFault)
    else if mode.Manual? && carrier.allocatorKey.None? then Err(ProfileFault)
    else Ok(Session(carrier.(expiresAt := U64_MAX), Some(Presence(secret, Some(claimToken))), Some(scalar), mode,
        profile,
                    key, Some(verifier), AwaitWelcome, None, [], false))
  }

  // ---------------------------------------------------------------- the persistence gate

  function Gate(s: Session, generation: u64, checkpoint: Checkpoint, carrier: Bytes, after: seq<Effect>): Reply {
    if s.gate.Some? || s.after != [] then Err(PhaseFault)
    else Ok((s.(gate := Some(generation), after := after), [Save(generation, checkpoint, carrier)]))
  }

  function SaveBootstrap(w: World, s: Session, b: Bootstrap, now: u64, nonce: Bytes12, after: seq<Effect>): Reply {
    var generation := SaturatingSucc(b.generation);
    var checkpoint :- SealBootstrap(w, b, s.key, generation, nonce, now);
    Gate(s.(state := Boot(b.(generation := generation, nonce := Some(nonce)))),
         generation, checkpoint, w.encodeCarrier(b.carrier), after)
  }

  function SaveEstablished(w: World, s: Session, core: Restored, now: u64, nonce: Bytes12, after: seq<Effect>): Reply {
    var e := core.endpoint;
    var generation := SaturatingSucc(e.generation);
    var checkpoint :- SealEndpoint(w, core, s.key, generation, Some(e.carrier.expiresAt), nonce, now);
    Gate(s.(state := Established(core.(endpoint := e.(generation := generation, nonce := Some(nonce))))),
         generation, checkpoint, w.encodeCarrier(e.carrier), after)
  }

  /** `checkpoint_persisted`: only the awaited generation releases the covered effects. */
  function CheckpointPersisted(s: Session, generation: u64): Reply {
    if s.gate != Some(generation) then Err(CounterFault) else Ok((s.(gate := None, after := []), s.after))
  }

  // ---------------------------------------------------------------- bootstrap

  function AllocatedStep(w: World, s: Session, mailboxId: Bytes32, token: Bytes32, expiresAt: u64, now: u64,
      nonce: Bytes12): Reply {
    if mailboxId != s.template.mailboxId || now >= expiresAt then Err(ProfileFault)
    else if s.presence.None? then Err(PhaseFault)
    else
      var b :- NewBootstrap(s.template.(expiresAt := expiresAt), s.presence.value, s.profile, NewProjection(token),
          s.mode);
      SaveBootstrap(w, s.(presence := None), b, now, nonce, [PendingAllocation(w.encodeCarrier(b.carrier))])
  }

  /** The exact first share again: acknowledge it and repeat the outstanding frame. */
  function Redelivered(w: World, s: Session, b: Bootstrap, frame: Frame, now: u64): Reply {
    if now >= b.carrier.expiresAt then Err(ExpiredFault)
    else if b.peerCpace != Some(frame) then Err(ProfileFault)
    else
      var outstanding :- b.relay.CachedBootstrapSequence();
      if outstanding.None? then Ok((s, [Send(Ack(0))]))
      else if b.cached.None? then Err(PhaseFault)
      else
        var put :- RelayPut(w, outstanding.value, b.cached.value);
        Ok((s, [Send(Ack(0)), put]))
  }

  function FirstShare(w: World, s: Session, b: Bootstrap, peerSeq: u8, frame: Frame, now: u64, nonce: Bytes12): Reply {
    if s.scalar.None? then Err(PhaseFault)
    else
      var accepted :- b.relay.AcceptPeer(peerSeq);
      var claimed :- ClaimantAdmitted(b.(relay := accepted));
      var (started, share) :- StartCpace(w, claimed, s.scalar.value);
      var bound :- RetainPeerCpace(started, frame);
      var (queued, sequence) :- bound.relay.QueueBootstrap();
      var ack :- Relay(Ack(peerSeq));
      var put :- RelayPut(w, sequence, share);
      SaveBootstrap(w, s.(scalar := None), bound.(relay := queued), now, nonce, [ack, put])
  }

  function PeerFinished(w: World, s: Session, b: Bootstrap, peerSeq: u8, frame: Frame, now: u64,
      nonce: Bytes12): Reply {
    var accepted :- b.relay.AcceptPeer(peerSeq);
    var retained :- RetainPeerFinished(b.(relay := accepted), frame);
    var ack :- Relay(Ack(peerSeq));
    if b.relay.awaitingAck then SaveBootstrap(w, s, retained, now, nonce, [ack])
    else Establish(w, s, retained, now, nonce, [ack])
  }

  function Establish(w: World, s: Session, b: Bootstrap, now: u64, nonce: Bytes12, ack: seq<Effect>): Reply {
    if b.peerFinished.None? then Err(FinishedFault)
    else
      var (channel, relay) :- Confirm(b, b.peerFinished.value);
      if relay.awaitingAck || s.verifier.None? then Err(PhaseFault)
      else
        var e := NewEndpoint(V2.Allocator, b.carrier, s.verifier.value).(generation := b.generation, nonce := b.nonce);
        SaveEstablished(w, s.(verifier := None), Restored(e, channel, relay), now, nonce,
                        ack + [ChannelEstablished(channel.transcript)])
  }

  function BootAcknowledged(w: World, s: Session, b: Bootstrap, sequence: u8, now: u64, nonce: Bytes12): Reply {
    if b.phase.ShareSent? then
      var settled :- b.relay.AcknowledgeBootstrap(sequence);
      var (prepared, finished) :- PrepareFinished(w, b.(relay := settled));
      var (queued, next) :- prepared.relay.QueueBootstrap();
      var put :- RelayPut(w, next, finished);
      SaveBootstrap(w, s, prepared.(relay := queued), now, nonce, [put])
    else if b.phase.FinishedSent? then
      var settled :- b.relay.AcknowledgeBootstrap(sequence);
      if b.peerFinished.Some? then Establish(w, s, b.(relay := settled), now, nonce, [])
      else SaveBootstrap(w, s, b.(relay := settled), now, nonce, [])
    else Err(PhaseFault)
  }

  // ---------------------------------------------------------------- established

  function PeerApplication(w: World, s: Session, core: Restored, peerSeq: u8, frame: Frame, now: u64,
      nonce: Bytes12): Reply {
    var accepted :- core.relay.AcceptPeer(peerSeq);
    var (channel, plaintext) := core.channel.Open(w, frame);
    if plaintext.Err? then Err(plaintext.error)
    else
      var o :- w.decodeObject(plaintext.value);
      var (endpoint, advance) := Apply(w, core.endpoint, o, V2.Claimant);
      if advance.Err? then Err(advance.error)
      else
        var ack :- Relay(Ack(peerSeq));
        SaveEstablished(w, s, Restored(endpoint, channel, accepted), now, nonce, [ack, ReceivedObject(o)])
  }

  function ApplicationAcknowledged(w: World, s: Session, core: Restored, sequence: u8, now: u64,
      nonce: Bytes12): Reply {
    var settled :- core.relay.AcknowledgeApplication(sequence);
    SaveEstablished(w, s, core.(relay := settled), now, nonce, [])
  }

  function PrepareObject(w: World, s: Session, o: Object, now: u64, nonce: Bytes12): Reply {
    if !s.state.Established? then Err(PhaseFault)
    else
      var core := s.state.core;
      var out := PrepareOutbound(w, core.endpoint, core.channel, core.relay, o);
      var frame :- out.result;
      var sequence :- out.relay.CachedApplicationSequence();
      var put :- RelayPut(w, sequence, frame);
      SaveEstablished(w, s, Restored(out.endpoint, out.channel, out.relay), now, nonce, [put])
  }

  // ---------------------------------------------------------------- dispatch

  function PeerFrameStep(w: World, s: Session, peerSeq: u8, body: Bytes, now: u64, nonce: Bytes12): Reply {
    var frame :- w.decodeFrame(body);
    match s.state
    case Established(core) => PeerApplication(w, s, core, peerSeq, frame, now, nonce)
    case Boot(b) =>
      if peerSeq == 0 && b.peerCpace.Some? then Redelivered(w, s, b, frame, now)
      else if b.phase.Allocated? then FirstShare(w, s, b, peerSeq, frame, now, nonce)
      else if b.phase.FinishedSent? then PeerFinished(w, s, b, peerSeq, frame, now, nonce)
      else Err(PhaseFault)
    case _ => Err(PhaseFault)
  }

  function Unchanged(s: Session, expiresAt: u64, now: u64): Reply {
    if now >= expiresAt then Err(ExpiredFault) else Ok((s, []))
  }

  function LocalAcknowledged(w: World, s: Session, sequence: u8, now: u64, nonce: Bytes12): Reply {
    match s.state
    case Boot(b) =>
      if b.relay.AlreadyAcknowledged(sequence) then Unchanged(s, b.carrier.expiresAt, now)
      else BootAcknowledged(w, s, b, sequence, now, nonce)
    case Established(core) =>
      if core.relay.AlreadyAcknowledged(sequence) then Unchanged(s, core.endpoint.carrier.expiresAt, now)
      else ApplicationAcknowledged(w, s, core, sequence, now, nonce)
    case _ => Err(PhaseFault)
  }

  /** After a restart: resume the membership and repeat the outstanding frame. */
  function Reopen(w: World, s: Session): Outcome<seq<Effect>> {
    match s.state
    case Boot(b) =>
      var open := Send(Open(b.carrier.mailboxId, b.relay.token));
      if b.cached.None? then Ok([open])
      else
        var outstanding :- b.relay.CachedBootstrapSequence();
        if outstanding.None? then Ok([open])
        else
          var put :- RelayPut(w, outstanding.value, b.cached.value);
          Ok([open, put])
    case Established(core) =>
      var open := Send(Open(core.endpoint.carrier.mailboxId, core.relay.token));
      if core.relay.cached.None? then Ok([open])
      else
        var sequence :- core.relay.CachedApplicationSequence();
        var put :- RelayPut(w, sequence, core.relay.cached.value);
        Ok([open, put])
    case _ => Err(PhaseFault)
  }

  function ApplyServer(w: World, s: Session, m: ServerMessage, now: u64, nonce: Bytes12): Reply {
    match m
    case Welcome =>
      if s.resume then
        var effects :- Reopen(w, s);
        Ok((s.(resume := false), effects))
      else if s.state.AwaitWelcome? then
        Ok((s.(state := AwaitAllocation), [Send(AllocateV2(s.template.mailboxId, s.template.commitment))]))
      else Err(PhaseFault)
    case AllocatedV2(id, token, expiresAt) =>
      if s.state.AwaitAllocation? then AllocatedStep(w, s, id, token, expiresAt, now, nonce) else Err(PhaseFault)
    case PeerFrame(peerSeq, body) => PeerFrameStep(w, s, peerSeq, body, now, nonce)
    case Acknowledged(sequence) => LocalAcknowledged(w, s, sequence, now, nonce)
    case Pong => Ok((s, []))
    case Closed => Ok((Terminated(s), [SessionTerminal]))
    case Failed => Ok((Terminated(s), [SessionTerminal]))
    case Unexpected => Err(PhaseFault)
    case Malformed => Err(SchemaFault)
  }

  function Terminated(s: Session): Session {
    s.(state := Terminal, presence := None, scalar := None, key := Zero32(), after := [])
  }

  /** The public calls: refused while a checkpoint is outstanding, fatal when they fail. */
  function Guarded(s: Session, reply: Reply): (Session, Outcome<seq<Effect>>) {
    if s.gate.Some? then (s, Err(PhaseFault))
    else match reply
      case Ok((next, effects)) => (next, Ok(effects))
      case Err(fault) => (Terminated(s), Err(fault))
  }

  function Receive(w: World, s: Session, m: ServerMessage, now: u64, nonce: Bytes12): (Session, Outcome<seq<Effect>>) {
    Guarded(s, ApplyServer(w, s, m, now, nonce))
  }

  function Prepare(w: World, s: Session, o: Object, now: u64, nonce: Bytes12): (Session, Outcome<seq<Effect>>) {
    Guarded(s, PrepareObject(w, s, o, now, nonce))
  }

  /** `restore`: a bootstrap if the plaintext is one, otherwise an endpoint. */
  function Restore(w: World, c: Checkpoint, key: Bytes32, carrier: Carrier, generation: u64, profile: Bytes32,
      now: u64, mode: Mode, freshScalar: Bytes32, verifier: Bytes): Outcome<Session>
  {
    match RestoreBootstrap(w, c, key, carrier, generation, now, mode)
    case Ok(b) =>
      if b.profile != profile then Err(ProfileFault)
      else Ok(Session(carrier, None, if b.phase.Allocated? then Some(freshScalar) else None, mode, profile, key,
                      Some(verifier), Boot(b), None, [], true))
    case Err(_) =>
      var core :- RestoreEndpoint(w, c, key, V2.Allocator, carrier, generation, now);
      Ok(Session(carrier, None, None, mode, profile, key, None, Established(core), None, [], true))
  }
}
