/** The allocator session as the program keeps it: one object whose state, gate and
    held-back effects are replaced call by call. Each method answers as the function
    of the same name in `Allocators` says. */
module AllocatorSessions {
  import opened Base
  import opened V2
  import opened Projections
  import opened Channels
  import opened Bootstraps
  import opened Endpoints
  import opened EndpointCodec
  import opened Checkpoints
  import opened Wires
  import opened Allocators

  class AllocatorSession {
    const template: Carrier
    const mode: Mode
    const profile: Bytes32
    var presence: Option<Presence>
    var scalar: Option<Bytes32>
    var key: Bytes32
    var verifier: Option<Bytes>
    var state: State
    var gate: Option<u64>
    var after: seq<Effect>
    var resume: bool

    function View(): Session
      reads this
    {
      Session(template, presence, scalar, mode, profile, key, verifier, state, gate, after, resume)
    }

    /** The object answered as the specification does, and is in the state it gives. */
    ghost predicate Answers(reply: Reply, r: Outcome<seq<Effect>>)
      reads this
    {
      match reply
      case Ok((next, effects)) => r == Ok(effects) && View() == next
      case Err(fault) => r == Err(fault)
    }

    /** Nothing secret is left, and nothing held back will ever be released. */
    ghost predicate Erased()
      reads this
    {
      state.Terminal? && presence.None? && scalar.None? && key == Zero32() && after == []
    }

    constructor (s: Session)
      ensures View() == s
    {
      template, presence, scalar, mode, profile := s.template, s.presence, s.scalar, s.mode, s.profile;
      key, verifier, state, gate, after, resume := s.key, s.verifier, s.state, s.gate, s.after, s.resume;
    }

    method HoldBack(generation: u64, checkpoint: Checkpoint, carrier: Bytes,
        effects: seq<Effect>) returns (r: Outcome<seq<Effect>>)
      modifies this`gate, this`after
      ensures Answers(Gate(old(View()), generation, checkpoint, carrier, effects), r)
    {
      var previous := gate;
      gate := Some(generation);
      if previous.Some? || after != [] { return Err(PhaseFault); }
      after := effects;
      return Ok([Save(generation, checkpoint, carrier)]);
    }

    method CheckpointBootstrap(w: World, now: u64, nonce: Bytes12,
        effects: seq<Effect>) returns (r: Outcome<seq<Effect>>)
      requires state.Boot?
      modifies this`state, this`gate, this`after
      ensures Answers(SaveBootstrap(w, old(View()), old(state.bootstrap), now, nonce, effects), r)
    {
      var b := state.bootstrap;
      var generation := SaturatingSucc(b.generation);
      var checkpoint :- SealBootstrap(w, b, key, generation, nonce, now);
      state := Boot(b.(generation := generation, nonce := Some(nonce)));
      r := HoldBack(generation, checkpoint, w.encodeCarrier(b.carrier), effects);
    }

    method CheckpointEstablished(w: World, now: u64, nonce: Bytes12,
        effects: seq<Effect>) returns (r: Outcome<seq<Effect>>)
      requires state.Established?
      modifies this`state, this`gate, this`after
      ensures Answers(SaveEstablished(w, old(View()), old(state.core), now, nonce, effects), r)
    {
      var core := state.core;
      var generation := SaturatingSucc(core.endpoint.generation);
      var checkpoint :- SealEndpoint(w, core, key, generation, Some(core.endpoint.carrier.expiresAt), nonce, now);
      state := Established(core.(endpoint := core.endpoint.(generation := generation, nonce := Some(nonce))));
      r := HoldBack(generation, checkpoint, w.encodeCarrier(core.endpoint.carrier), effects);
    }

    method Persisted(generation: u64) returns (r: Outcome<seq<Effect>>)
      modifies this`gate, this`after
      ensures Answers(CheckpointPersisted(old(View()), generation), r)
      ensures r.Err? ==> View() == old(View())
    {
      if gate != Some(generation) { return Err(CounterFault); }
      gate := None;
      var released := after;
      after := [];
      return Ok(released);
    }

    method Allocated(w: World, mailboxId: Bytes32, token: Bytes32, expiresAt: u64, now: u64,
        nonce: Bytes12) returns (r: Outcome<seq<Effect>>)
      modifies this
      ensures Answers(AllocatedStep(w, old(View()), mailboxId, token, expiresAt, now, nonce), r)
    {
      hide SaveBootstrap;
      if mailboxId != template.mailboxId || now >= expiresAt { return Err(ProfileFault); }
      if presence.None? { return Err(PhaseFault); }
      var taken := presence.value;
      presence := None;
      var b :- NewBootstrap(template.(expiresAt := expiresAt), taken, profile, NewProjection(token), mode);
      SaveIgnoresState(w, View(), Boot(b), b, now, nonce, [PendingAllocation(w.encodeCarrier(b.carrier))]);
      state := Boot(b);
      r := CheckpointBootstrap(w, now, nonce, [PendingAllocation(w.encodeCarrier(b.carrier))]);
    }

    method FirstPeerShare(w: World, peerSeq: u8, frame: Frame, now: u64,
        nonce: Bytes12) returns (r: Outcome<seq<Effect>>)
      requires state.Boot?
      modifies this
      ensures Answers(FirstShare(w, old(View()), old(state.bootstrap), peerSeq, frame, now, nonce), r)
    {
      hide SaveBootstrap, SealBootstrap;
      if scalar.None? { return Err(PhaseFault); }
      var taken := scalar.value;
      scalar := None;
      var b := state.bootstrap;
      var accepted :- b.relay.AcceptPeer(peerSeq);
      b := b.(relay := accepted);
      b :- ClaimantAdmitted(b);
      var started :- StartCpace(w, b, taken);
      b :- RetainPeerCpace(started.0, frame);
      var queued :- b.relay.QueueBootstrap();
      b := b.(relay := queued.0);
      var ack :- Relay(Ack(peerSeq));
      var put :- RelayPut(w, queued.1, started.1);
      SaveIgnoresState(w, View(), Boot(b), b, now, nonce, [ack, put]);
      state := Boot(b);
      r := CheckpointBootstrap(w, now, nonce, [ack, put]);
    }

    method EstablishChannel(w: World, now: u64, nonce: Bytes12, ack: seq<Effect>) returns (r: Outcome<seq<Effect>>)
      requires state.Boot?
      modifies this
      ensures Answers(Establish(w, old(View()), old(state.bootstrap), now, nonce, ack), r)
    {
      hide SaveEstablished, SealEndpoint;
      var b := state.bootstrap;
      state := Terminal;
      if b.peerFinished.None? { return Err(FinishedFault); }
      var confirmed :- Confirm(b, b.peerFinished.value);
      if confirmed.1.awaitingAck { return Err(PhaseFault); }
      if verifier.None? { return Err(PhaseFault); }
      var taken := verifier.value;
      verifier := None;
      var e := NewEndpoint(V2.Allocator, b.carrier, taken).(generation := b.generation, nonce := b.nonce);
      var core := Restored(e, confirmed.0, confirmed.1);
      var effects := ack + [ChannelEstablished(confirmed.0.transcript)];
      SaveCoreIgnoresState(w, View(), old(state), Established(core), core, now, nonce, effects);
      state := Established(core);
      r := CheckpointEstablished(w, now, nonce, effects);
    }

    method PeerFinishedFrame(w: World, peerSeq: u8, frame: Frame, now: u64,
        nonce: Bytes12) returns (r: Outcome<seq<Effect>>)
      requires state.Boot?
      modifies this
      ensures Answers(PeerFinished(w, old(View()), old(state.bootstrap), peerSeq, frame, now, nonce), r)
    {
      hide SaveBootstrap, SealBootstrap, Establish;
      var b := state.bootstrap;
      var accepted :- b.relay.AcceptPeer(peerSeq);
      b := b.(relay := accepted);
      b :- RetainPeerFinished(b, frame);
      var waiting := b.relay.awaitingAck;
      var ack :- Relay(Ack(peerSeq));
      SaveIgnoresState(w, View(), Boot(b), b, now, nonce, [ack]);
      EstablishIgnoresState(w, View(), Boot(b), b, now, nonce, [ack]);
      state := Boot(b);
      if waiting { r := CheckpointBootstrap(w, now, nonce, [ack]); }
          else { r := EstablishChannel(w, now, nonce, [ack]); }
    }

    method BootstrapAcknowledged(w: World, sequence: u8, now: u64, nonce: Bytes12) returns (r: Outcome<seq<Effect>>)
      requires state.Boot?
      modifies this
      ensures Answers(BootAcknowledged(w, old(View()), old(state.bootstrap), sequence, now, nonce), r)
    {
      hide SaveBootstrap, SealBootstrap, Establish;
      var b := state.bootstrap;
      if b.phase.ShareSent? {
        var settled :- b.relay.AcknowledgeBootstrap(sequence);
        var prepared :- PrepareFinished(w, b.(relay := settled));
        var queued :- prepared.0.relay.QueueBootstrap();
        b := prepared.0.(relay := queued.0);
        var put :- RelayPut(w, queued.1, prepared.1);
        SaveIgnoresState(w, View(), Boot(b), b, now, nonce, [put]);
        state := Boot(b);
        r := CheckpointBootstrap(w, now, nonce, [put]);
      } else if b.phase.FinishedSent? {
        var settled :- b.relay.AcknowledgeBootstrap(sequence);
        b := b.(relay := settled);
        SaveIgnoresState(w, View(), Boot(b), b, now, nonce, []);
        EstablishIgnoresState(w, View(), Boot(b), b, now, nonce, []);
        state := Boot(b);
        if b.peerFinished.Some? { r := EstablishChannel(w, now, nonce, []); }
            else { r := CheckpointBootstrap(w, now, nonce, []); }
      } else {
        return Err(PhaseFault);
      }
    }

    method PeerApplicationFrame(w: World, peerSeq: u8, frame: Frame, now: u64,
        nonce: Bytes12) returns (r: Outcome<seq<Effect>>)
      requires state.Established?
      modifies this
      ensures Answers(PeerApplication(w, old(View()), old(state.core), peerSeq, frame, now, nonce), r)
    {
      hide SaveEstablished, SealEndpoint;
      var core := state.core;
      var accepted :- core.relay.AcceptPeer(peerSeq);
      var (channel, plaintext) := core.channel.Open(w, frame);
      if plaintext.Err? { return Err(plaintext.error); }
      var o :- w.decodeObject(plaintext.value);
      var (endpoint, advance) := Apply(w, core.endpoint, o, V2.Claimant);
      if advance.Err? { return Err(advance.error); }
      core := Restored(endpoint, channel, accepted);
      var ack :- Relay(Ack(peerSeq));
      SaveCoreIgnoresState(w, View(), state, Established(core), core, now, nonce, [ack, ReceivedObject(o)]);
      state := Established(core);
      r := CheckpointEstablished(w, now, nonce, [ack, ReceivedObject(o)]);
    }

    method Prepare(w: World, o: Object, now: u64, nonce: Bytes12) returns (r: Outcome<seq<Effect>>)
      modifies this
      ensures r == Allocators.Prepare(w, old(View()), o, now, nonce).1
      ensures r.Ok? ==> View() == Allocators.Prepare(w, old(View()), o, now, nonce).0
      ensures r.Err? ==> if old(gate).Some? then View() == old(View()) else Erased()
    {
      hide PrepareObject;
      if gate.Some? { return Err(PhaseFault); }
      r := PrepareInner(w, o, now, nonce);
      if r.Err? { Terminate(); }
    }

    method PrepareInner(w: World, o: Object, now: u64, nonce: Bytes12) returns (r: Outcome<seq<Effect>>)
      modifies this
      ensures Answers(PrepareObject(w, old(View()), o, now, nonce), r)
    {
      hide SaveEstablished, SealEndpoint, PrepareOutbound;
      if !state.Established? { return Err(PhaseFault); }
      var core := state.core;
      var out := PrepareOutbound(w, core.endpoint, core.channel, core.relay, o);
      var frame :- out.result;
      var sequence :- out.relay.CachedApplicationSequence();
      core := Restored(out.endpoint, out.channel, out.relay);
      var put :- RelayPut(w, sequence, frame);
      SaveCoreIgnoresState(w, View(), state, Established(core), core, now, nonce, [put]);
      state := Established(core);
      r := CheckpointEstablished(w, now, nonce, [put]);
    }

    method PeerFrameArrived(w: World, peerSeq: u8, body: Bytes, now: u64,
        nonce: Bytes12) returns (r: Outcome<seq<Effect>>)
      modifies this
      ensures Answers(PeerFrameStep(w, old(View()), peerSeq, body, now, nonce), r)
    {
      hide PeerApplication, FirstShare, PeerFinished;
      var frame :- w.decodeFrame(body);
      if state.Established? {
        r := PeerApplicationFrame(w, peerSeq, frame, now, nonce);
      } else if !state.Boot? {
        return Err(PhaseFault);
      } else if peerSeq == 0 && state.bootstrap.peerCpace.Some? {
        var b := state.bootstrap;
        if now >= b.carrier.expiresAt { return Err(ExpiredFault); }
        if b.peerCpace != Some(frame) { return Err(ProfileFault); }
        var outstanding :- b.relay.CachedBootstrapSequence();
        if outstanding.None? { return Ok([Send(Ack(0))]); }
        if b.cached.None? { return Err(PhaseFault); }
        var put :- RelayPut(w, outstanding.value, b.cached.value);
        return Ok([Send(Ack(0)), put]);
      } else if state.bootstrap.phase.Allocated? {
        r := FirstPeerShare(w, peerSeq, frame, now, nonce);
      } else if state.bootstrap.phase.FinishedSent? {
        r := PeerFinishedFrame(w, peerSeq, frame, now, nonce);
      } else {
        return Err(PhaseFault);
      }
    }

    method AcknowledgementArrived(w: World, sequence: u8, now: u64, nonce: Bytes12) returns (r: Outcome<seq<Effect>>)
      modifies this
      ensures Answers(LocalAcknowledged(w, old(View()), sequence, now, nonce), r)
    {
      hide BootAcknowledged, SaveEstablished, SealEndpoint;
      if !state.Boot? && !state.Established? { return Err(PhaseFault); }
      var relay := if state.Boot? then state.bootstrap.relay else state.core.relay;
      var expiry := if state.Boot? then state.bootstrap.carrier.expiresAt else state.core.endpoint.carrier.expiresAt;
      if relay.AlreadyAcknowledged(sequence) {
        return if now >= expiry then Err(ExpiredFault) else Ok([]);
      }
      if state.Boot? {
        r := BootstrapAcknowledged(w, sequence, now, nonce);
      } else {
        var core := state.core;
        var settled :- core.relay.AcknowledgeApplication(sequence);
        core := core.(relay := settled);
        SaveCoreIgnoresState(w, View(), state, Established(core), core, now, nonce, []);
        state := Established(core);
        r := CheckpointEstablished(w, now, nonce, []);
      }
    }

    method ApplyServerMessage(w: World, m: ServerMessage, now: u64, nonce: Bytes12) returns (r: Outcome<seq<Effect>>)
      modifies this
      ensures Answers(ApplyServer(w, old(View()), m, now, nonce), r)
    {
      hide AllocatedStep, PeerFrameStep, LocalAcknowledged, Reopen;
      match m
      case Welcome =>
        if resume {
          var effects := Reopen(w, View());
          resume := false;
          return effects;
        }
        if !state.AwaitWelcome? { return Err(PhaseFault); }
        state := AwaitAllocation;
        return Ok([Send(AllocateV2(template.mailboxId, template.commitment))]);
      case AllocatedV2(id, token, expiresAt) =>
        if !state.AwaitAllocation? { return Err(PhaseFault); }
        r := Allocated(w, id, token, expiresAt, now, nonce);
      case PeerFrame(peerSeq, body) => r := PeerFrameArrived(w, peerSeq, body, now, nonce);
      case Acknowledged(sequence) => r := AcknowledgementArrived(w, sequence, now, nonce);
      case Pong => return Ok([]);
      case Closed => Terminate(); return Ok([SessionTerminal]);
      case Failed => Terminate(); return Ok([SessionTerminal]);
      case Unexpected => return Err(PhaseFault);
      case Malformed => return Err(SchemaFault);
    }

    /** One relay response: refused while a checkpoint is outstanding, and fatal to the
        session's secrets when it fails. */
    method Receive(w: World, m: ServerMessage, now: u64, nonce: Bytes12) returns (r: Outcome<seq<Effect>>)
      modifies this
      ensures r == Allocators.Receive(w, old(View()), m, now, nonce).1
      ensures r.Ok? ==> View() == Allocators.Receive(w, old(View()), m, now, nonce).0
      ensures r.Err? ==> if old(gate).Some? then View() == old(View()) else Erased()
    {
      hide ApplyServer;
      if gate.Some? { return Err(PhaseFault); }
      r := ApplyServerMessage(w, m, now, nonce);
      if r.Err? { Terminate(); }
    }

    method Terminate()
      modifies this`state, this`presence, this`scalar, this`key, this`after
      ensures View() == Terminated(old(View())) && Erased()
    {
      state, presence, scalar, key, after := Terminal, None, None, Zero32(), [];
    }
  }

  // Saving replaces the state, so what it was before does not matter.

  lemma SaveIgnoresState(w: World, s: Session, state: State, b: Bootstrap, now: u64, nonce: Bytes12,
      effects: seq<Effect>)
    ensures SaveBootstrap(w, s.(state := state), b, now, nonce, effects) == SaveBootstrap(w, s, b, now, nonce, effects)
  {
    hide SealBootstrap;
  }

  lemma SaveCoreIgnoresState(w: World, s: Session, before: State, state: State, core: Restored, now: u64,
      nonce: Bytes12, effects: seq<Effect>)
    ensures SaveEstablished(w, s.(state := state), core, now, nonce, effects)
         == SaveEstablished(w, s.(state := before), core, now, nonce, effects)
  {
    hide SealEndpoint;
  }

  lemma EstablishIgnoresState(w: World, s: Session, state: State, b: Bootstrap, now: u64, nonce: Bytes12,
      effects: seq<Effect>)
    ensures Establish(w, s.(state := state), b, now, nonce, effects) == Establish(w, s, b, now, nonce, effects)
  {
    hide SealEndpoint;
  }
}
