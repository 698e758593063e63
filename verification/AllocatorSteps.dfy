/** One allocator call at a time: what a session has on the wire, how a call moves
    it, and what the call may release before anything new is durable. */
module AllocatorSteps {
  import opened Base
  import opened V2
  import opened Projections
  import opened Channels
  import opened Bootstraps
  import opened Endpoints
  import opened EndpointCodec
  import opened Checkpoints
  import opened Wires
  import opened Allocators
  import BootstrapCodec
  import EndpointRuns

  function WireOf(state: State): Wire {
    match state
    case Boot(b) =>
      Wire(b.relay.nextLocal, b.relay.nextPeer, b.relay.awaitingAck, if b.relay.awaitingAck then b.cached
          else None, b.generation)
    case Established(core) =>
      Wire(core.relay.nextLocal, core.relay.nextPeer, core.relay.awaitingAck, core.relay.cached,
          core.endpoint.generation)
    case _ => Blank()
  }

  ghost predicate SoundCore(w: World, core: Restored) {
    && Held(w, core)
    && core.endpoint.side.Allocator?
    && core.relay.nextLocal >= 2
    && core.channel.nextSend == Some(core.relay.nextLocal - 2)
    && (core.relay.cached.Some? ==> FrameFor(V2.Allocator, core.relay.cached.value, core.relay.nextLocal - 1))
  }

  ghost predicate Sound(w: World, state: State) {
    match state
    case Boot(b) => Reached(w, b)
    case Established(core) => SoundCore(w, core)
    case _ => true
  }

  /** An awaited frame is retained, and is the one its sequence calls for. */
  lemma OutstandingFrame(w: World, state: State)
    requires Sound(w, state)
    ensures var wire := WireOf(state);
            wire.awaiting ==>
                wire.nextLocal > 0 && wire.outstanding.Some?
                    && FrameFor(V2.Allocator, wire.outstanding.value, wire.nextLocal - 1)
  {
  }

  ghost predicate Covered(w: World, wire: Wire, effects: seq<Effect>) {
    forall i :: 0 <= i < |effects| ==> !effects[i].Save? && (effects[i].Send? ==> Covers(w, wire, effects[i].message))
  }

  /** The checkpoint is the state, sealed. */
  ghost predicate SealedFrom(w: World, c: Checkpoint, state: State) {
    && c.side.Allocator? && c.generation > 0
    && match state
       case Boot(b) =>
         b.generation == c.generation && b.nonce == Some(c.nonce) && c.expiry == Some(b.carrier.expiresAt)
         && c.ceremony == b.carrier.ceremony && BootstrapCodec.EncodeBootstrap(w, b, c.generation, c.nonce)
              == Ok(c.plaintext)
       case Established(core) =>
         core.endpoint.generation == c.generation && core.endpoint.nonce == Some(c.nonce)
         && c.ceremony == core.endpoint.carrier.ceremony && c.expiry == Some(core.endpoint.carrier.expiresAt)
         && (core.endpoint.phase.Ended? ==> ReceiptReleased(core.endpoint))
         && |c.plaintext| <= EndpointCodec.MAX_PLAINTEXT
              && EncodeEndpoint(w, core, c.generation, c.nonce) == Ok(c.plaintext)
       case _ => false
  }

  /** And an awaited frame is settled only by its acknowledgement. */
  ghost predicate Follows(from: Wire, to: Wire, acknowledged: Option<u8>) {
    && Moves(from, to)
    && (|| to.Floor() == from.Floor()
        || (acknowledged.Some? && acknowledged.value + 1 == from.nextLocal == to.Floor()))
  }

  /** A call that only repeats what is durable already. */
  ghost predicate Quiet(w: World, s: Session, next: Session, effects: seq<Effect>) {
    && next.gate.None? && next.after == [] && !next.state.Terminal?
    && WireOf(next.state) == WireOf(s.state) && Sound(w, next.state)
    && (next.state.Boot? || next.state.Established? ==> next.state == s.state)
    && Covered(w, WireOf(next.state), effects)
  }

  /** A call that emits one checkpoint, alone, and holds everything else back. */
  ghost predicate Gated(w: World, s: Session, next: Session, effects: seq<Effect>, acknowledged: Option<u8>) {
    && |effects| == 1 && effects[0].Save?
    && next.gate == Some(effects[0].generation) && WireOf(next.state).generation == effects[0].generation
    && SealedFrom(w, effects[0].checkpoint, next.state) && Sound(w, next.state)
    && Covered(w, WireOf(next.state), next.after)
    && Follows(WireOf(s.state), WireOf(next.state), acknowledged)
  }

  ghost predicate Proceeds(w: World, s: Session, reply: Reply, acknowledged: Option<u8>) {
    reply.Ok? ==>
      || Quiet(w, s, reply.value.0, reply.value.1)
      || Gated(w, s, reply.value.0, reply.value.1, acknowledged)
      || (reply.value.0 == Terminated(s) && reply.value.1 == [SessionTerminal])
  }

  ghost predicate Ready(w: World, s: Session) { s.gate.None? && s.after == [] && Sound(w,
      s.state) && !s.state.Terminal? }

  // ---------------------------------------------------------------- saving

  lemma BootstrapStamp(w: World, b: Bootstrap, g: u64, nonce: Bytes12)
    ensures var stamped := b.(generation := g, nonce := Some(nonce));
            && BootstrapCodec.EncodeBootstrap(w, stamped, g, nonce) == BootstrapCodec.EncodeBootstrap(w, b, g, nonce)
            && (Reached(w, stamped) <==> Reached(w, b))
            && WireOf(Boot(stamped)) == WireOf(Boot(b)).(generation := g)
  {
    hide BootstrapCodec.PutFrame, BootstrapCodec.PutBounded, BootstrapCodec.PutAuthority, BootstrapCodec.PutRelay,
         BootstrapCodec.PutStamp;
  }

  lemma EndpointStamp(w: World, core: Restored, g: u64, nonce: Bytes12)
    ensures var stamped := core.(endpoint := core.endpoint.(generation := g, nonce := Some(nonce)));
            && EncodeEndpoint(w, stamped, g, nonce) == EncodeEndpoint(w, core, g, nonce)
            && (SoundCore(w, stamped) <==> SoundCore(w, core))
            && WireOf(Established(stamped)) == WireOf(Established(core)).(generation := g)
  {
    hide PutField, PutRelay, PutLast, PutChannel, ConsistentProjection, Retainable;
  }

  lemma BootstrapSeals(w: World, b: Bootstrap, key: Bytes32, now: u64, nonce: Bytes12)
    requires SealBootstrap(w, b, key, SaturatingSucc(b.generation), nonce, now).Ok?
    ensures var g := SaturatingSucc(b.generation);
            && SealedFrom(w, SealBootstrap(w, b, key, g, nonce, now).value,
                 Boot(b.(generation := g, nonce := Some(nonce))))
            && BootstrapCodec.EncodeBootstrap(w, b, g, nonce).Ok?
  {
    hide BootstrapCodec.EncodeBootstrap;
    BootstrapStamp(w, b, SaturatingSucc(b.generation), nonce);
  }

  lemma EndpointSeals(w: World, core: Restored, key: Bytes32, now: u64, nonce: Bytes12)
    requires SealEndpoint(w, core, key, SaturatingSucc(core.endpoint.generation),
             Some(core.endpoint.carrier.expiresAt), nonce, now).Ok?
    requires core.endpoint.side.Allocator?
    ensures var g := SaturatingSucc(core.endpoint.generation);
            && SealedFrom(w, SealEndpoint(w, core, key, g, Some(core.endpoint.carrier.expiresAt), nonce, now).value,
                          Established(core.(endpoint := core.endpoint.(generation := g, nonce := Some(nonce)))))
            && PhaseRefused(core.endpoint, Some(core.endpoint.carrier.expiresAt), now).None?
  {
    hide EncodeEndpoint;
    EndpointStamp(w, core, SaturatingSucc(core.endpoint.generation), nonce);
  }

  lemma CoverIgnoresGeneration(w: World, wire: Wire, g: u64, effects: seq<Effect>)
    requires Covered(w, wire, effects)
    ensures Covered(w, wire.(generation := g), effects)
  {
    forall i | 0 <= i < |effects|
      ensures !effects[i].Save? && (effects[i].Send? ==> Covers(w, wire.(generation := g), effects[i].message))
    {
      assert effects[i].Send? ==> Covers(w, wire, effects[i].message);
    }
  }

  lemma SaveBootstrapGates(w: World, s: Session, to: Session, b: Bootstrap, now: u64, nonce: Bytes12,
      after: seq<Effect>, acknowledged: Option<u8>)
    requires to.gate.None? && to.after == []
    requires BootstrapCodec.EncodeBootstrap(w, b, SaturatingSucc(b.generation), nonce).Ok? ==> Reached(w, b)
    requires Covered(w, WireOf(Boot(b)), after)
    requires Follows(WireOf(s.state), WireOf(Boot(b)).(generation := SaturatingSucc(b.generation)), acknowledged)
    ensures Proceeds(w, s, SaveBootstrap(w, to, b, now, nonce, after), acknowledged)
  {
    hide BootstrapCodec.EncodeBootstrap, Reached, Covered, Follows, SealBootstrap, SealedFrom;
    var reply := SaveBootstrap(w, to, b, now, nonce, after);
    if reply.Ok? {
      BootstrapStamp(w, b, SaturatingSucc(b.generation), nonce);
      BootstrapSeals(w, b, to.key, now, nonce);
      CoverIgnoresGeneration(w, WireOf(Boot(b)), SaturatingSucc(b.generation), after);
      assert Gated(w, s, reply.value.0, reply.value.1, acknowledged);
    }
  }

  lemma SaveEstablishedGates(w: World, s: Session, to: Session, core: Restored, now: u64, nonce: Bytes12,
      after: seq<Effect>, acknowledged: Option<u8>)
    requires to.gate.None? && to.after == [] && core.endpoint.side.Allocator?
    requires PhaseRefused(core.endpoint, Some(core.endpoint.carrier.expiresAt), now).None? ==> SoundCore(w, core)
    requires Covered(w, WireOf(Established(core)), after)
    requires Follows(WireOf(s.state), WireOf(Established(core)).(generation :=
             SaturatingSucc(core.endpoint.generation)), acknowledged)
    ensures Proceeds(w, s, SaveEstablished(w, to, core, now, nonce, after), acknowledged)
  {
    hide EncodeEndpoint, SoundCore, Covered, Follows, SealEndpoint, SealedFrom;
    var reply := SaveEstablished(w, to, core, now, nonce, after);
    if reply.Ok? {
      EndpointStamp(w, core, SaturatingSucc(core.endpoint.generation), nonce);
      EndpointSeals(w, core, to.key, now, nonce);
      hide PhaseRefused;
      CoverIgnoresGeneration(w, WireOf(Established(core)), SaturatingSucc(core.endpoint.generation), after);
      assert Gated(w, s, reply.value.0, reply.value.1, acknowledged);
    }
  }

  // ---------------------------------------------------------------- bootstrap calls

  lemma AllocatedProceeds(w: World, s: Session, id: Bytes32, token: Bytes32, expiresAt: u64, now: u64, nonce: Bytes12)
    requires Ready(w, s) && s.state.AwaitAllocation?
    ensures Proceeds(w, s, AllocatedStep(w, s, id, token, expiresAt, now, nonce), None)
  {
    if AllocatedStep(w, s, id, token, expiresAt, now, nonce).Ok? {
      var b := NewBootstrap(s.template.(expiresAt := expiresAt), s.presence.value, s.profile, NewProjection(token),
          s.mode).value;
      var after := [PendingAllocation(w.encodeCarrier(b.carrier))];
      SaveBootstrapGates(w, s, s.(presence := None), b, now, nonce, after, None);
    }
  }

  lemma RedeliveredProceeds(w: World, s: Session, b: Bootstrap, frame: Frame, now: u64)
    requires Ready(w, s) && s.state == Boot(b) && b.peerCpace.Some?
    ensures Proceeds(w, s, Redelivered(w, s, b, frame, now), None)
  {
    var reply := Redelivered(w, s, b, frame, now);
    if reply.Ok? { assert Quiet(w, s, reply.value.0, reply.value.1); }
  }

  lemma FirstShareProceeds(w: World, s: Session, b: Bootstrap, peerSeq: u8, frame: Frame, now: u64, nonce: Bytes12)
    requires Lawful(w) && Ready(w, s) && s.state == Boot(b) && b.phase.Allocated?
    ensures Proceeds(w, s, FirstShare(w, s, b, peerSeq, frame, now, nonce), None)
  {
    hide SaveBootstrap;
    if FirstShare(w, s, b, peerSeq, frame, now, nonce).Ok? {
      var accepted := b.relay.AcceptPeer(peerSeq).value;
      var claimed := ClaimantAdmitted(b.(relay := accepted)).value;
      var (started, share) := StartCpace(w, claimed, s.scalar.value).value;
      var bound := RetainPeerCpace(started, frame).value;
      var (queued, sequence) := bound.relay.QueueBootstrap().value;
      var after := [Relay(Ack(peerSeq)).value, RelayPut(w, sequence, share).value];
      var last := bound.(relay := queued);
      assert Reached(w, last);
      assert Covered(w, WireOf(Boot(last)), after);
      hide Reached, Covered;
      SaveBootstrapGates(w, s, s.(scalar := None), last, now, nonce, after, None);
    }
  }

  lemma EstablishProceeds(w: World, s: Session, b: Bootstrap, now: u64, nonce: Bytes12, ack: seq<Effect>,
      acknowledged: Option<u8>)
    requires s.gate.None? && s.after == []
    requires Reached(w, b) && b.phase.FinishedSent? && !b.relay.awaitingAck
    requires Covered(w, WireOf(Boot(b)), ack)
    requires Follows(WireOf(s.state), WireOf(Boot(b)).(generation := SaturatingSucc(b.generation)), acknowledged)
    ensures Proceeds(w, s, Establish(w, s, b, now, nonce, ack), acknowledged)
  {
    hide SaveEstablished;
    if Establish(w, s, b, now, nonce, ack).Ok? {
      var (channel, relay) := Confirm(b, b.peerFinished.value).value;
      var e := NewEndpoint(V2.Allocator, b.carrier, s.verifier.value).(generation := b.generation, nonce := b.nonce);
      var core := Restored(e, channel, relay);
      assert SoundCore(w, core);
      var after := ack + [ChannelEstablished(channel.transcript)];
      assert WireOf(Established(core)) == WireOf(Boot(b));
      assert Covered(w, WireOf(Established(core)), after);
      hide SoundCore, Covered, Reached;
      SaveEstablishedGates(w, s, s.(verifier := None), core, now, nonce, after, acknowledged);
    }
  }

  lemma PeerFinishedProceeds(w: World, s: Session, b: Bootstrap, peerSeq: u8, frame: Frame, now: u64, nonce: Bytes12)
    requires Ready(w, s) && s.state == Boot(b) && b.phase.FinishedSent? && !(peerSeq == 0 && b.peerCpace.Some?)
    ensures Proceeds(w, s, PeerFinished(w, s, b, peerSeq, frame, now, nonce), None)
  {
    hide SaveBootstrap, Establish;
    if PeerFinished(w, s, b, peerSeq, frame, now, nonce).Ok? {
      var retained := RetainPeerFinished(b.(relay := b.relay.AcceptPeer(peerSeq).value), frame).value;
      var after := [Relay(Ack(peerSeq)).value];
      assert Reached(w, retained);
      assert Covered(w, WireOf(Boot(retained)), after);
      hide Reached, Covered;
      if b.relay.awaitingAck {
        SaveBootstrapGates(w, s, s, retained, now, nonce, after, None);
      } else {
        EstablishProceeds(w, s, retained, now, nonce, after, None);
      }
    }
  }

  lemma ShareAcknowledged(w: World, s: Session, b: Bootstrap, sequence: u8, now: u64, nonce: Bytes12)
    requires Lawful(w) && Ready(w, s) && s.state == Boot(b) && b.phase.ShareSent?
    ensures Proceeds(w, s, BootAcknowledged(w, s, b, sequence, now, nonce), Some(sequence))
  {
    hide SaveBootstrap, Establish;
    if BootAcknowledged(w, s, b, sequence, now, nonce).Ok? {
      var settled := b.relay.AcknowledgeBootstrap(sequence).value;
      var (prepared, finished) := PrepareFinished(w, b.(relay := settled)).value;
      var (queued, next) := prepared.relay.QueueBootstrap().value;
      var after := [RelayPut(w, next, finished).value];
      var last := prepared.(relay := queued);
      assert Reached(w, last);
      assert Covered(w, WireOf(Boot(last)), after);
      hide Reached, Covered;
      SaveBootstrapGates(w, s, s, last, now, nonce, after, Some(sequence));
    }
  }

  lemma FinishedAcknowledged(w: World, s: Session, b: Bootstrap, sequence: u8, now: u64, nonce: Bytes12)
    requires Ready(w, s) && s.state == Boot(b) && b.phase.FinishedSent?
    ensures Proceeds(w, s, BootAcknowledged(w, s, b, sequence, now, nonce), Some(sequence))
  {
    hide SaveBootstrap, Establish;
    if BootAcknowledged(w, s, b, sequence, now, nonce).Ok? {
      var last := b.(relay := b.relay.AcknowledgeBootstrap(sequence).value);
      assert Reached(w, last);
      assert Covered(w, WireOf(Boot(last)), []);
      hide Reached, Covered;
      if b.peerFinished.Some? {
        EstablishProceeds(w, s, last, now, nonce, [], Some(sequence));
      } else {
        SaveBootstrapGates(w, s, s, last, now, nonce, [], Some(sequence));
      }
    }
  }

  // ---------------------------------------------------------------- established calls

  lemma RecognisedIsRetainable(w: World, o: Object, sender: Side)
    requires Lawful(w) && Recognised(w, o)
    ensures Retainable(w, Some(Last(sender, Some(o.bytes), o.kind, o.intent, o.hash)))
  {
    assert o.bytes != [];
  }

  lemma AppliedIsHeld(w: World, e: Endpoint, o: Object, sender: Side)
    requires Lawful(w) && Recognised(w, o) && Retainable(w, e.last)
             && ConsistentProjection(w, e.phase, e.intent, e.last)
    ensures var (next, r) := Apply(w, e, o, sender);
            && next.side == e.side && next.carrier == e.carrier && next.generation == e.generation
            && (r.Ok? ==> Retainable(w, next.last))
            && (!(next.phase.Ended? && !ReceiptReleased(next)) ==>
                 ConsistentProjection(w, next.phase, next.intent, next.last))
  {
    EndpointRuns.ApplySealable(w, e, o, sender);
    RecognisedIsRetainable(w, o, sender);
    hide ConsistentProjection, Lawful, Retainable, ValidSender, NextPhase, Retransmits, Recognised;
  }

  lemma PeerApplicationProceeds(w: World, s: Session, core: Restored, peerSeq: u8, frame: Frame, now: u64,
      nonce: Bytes12)
    requires Lawful(w) && Ready(w, s) && s.state == Established(core)
    ensures Proceeds(w, s, PeerApplication(w, s, core, peerSeq, frame, now, nonce), None)
  {
    hide SaveEstablished, Apply;
    if PeerApplication(w, s, core, peerSeq, frame, now, nonce).Ok? {
      var accepted := core.relay.AcceptPeer(peerSeq).value;
      var (channel, plaintext) := core.channel.Open(w, frame);
      var o := w.decodeObject(plaintext.value).value;
      var (endpoint, advance) := Apply(w, core.endpoint, o, V2.Claimant);
      AppliedIsHeld(w, core.endpoint, o, V2.Claimant);
      hide Lawful;
      var next := Restored(endpoint, channel, accepted);
      assert PhaseRefused(endpoint, Some(endpoint.carrier.expiresAt), now).None? ==> SoundCore(w, next);
      var after := [Relay(Ack(peerSeq)).value, ReceivedObject(o)];
      assert Covered(w, WireOf(Established(next)), after);
      hide SoundCore, Covered, PhaseRefused;
      SaveEstablishedGates(w, s, s, next, now, nonce, after, None);
    }
  }

  lemma ApplicationAcknowledgedProceeds(w: World, s: Session, core: Restored, sequence: u8, now: u64, nonce: Bytes12)
    requires Ready(w, s) && s.state == Established(core)
    ensures Proceeds(w, s, ApplicationAcknowledged(w, s, core, sequence, now, nonce), Some(sequence))
  {
    hide SaveEstablished;
    if ApplicationAcknowledged(w, s, core, sequence, now, nonce).Ok? {
      var next := core.(relay := core.relay.AcknowledgeApplication(sequence).value);
      assert SoundCore(w, next);
      hide SoundCore;
      SaveEstablishedGates(w, s, s, next, now, nonce, [], Some(sequence));
    }
  }

  /** Sealing an outbound object uses the counter two behind the sequence it takes. */
  lemma OutboundIsSound(w: World, core: Restored, o: Object)
    requires Lawful(w) && Recognised(w, o) && SoundCore(w, core)
    ensures var out := PrepareOutbound(w, core.endpoint, core.channel, core.relay, o);
            var next := Restored(out.endpoint, out.channel, out.relay);
            out.result.Ok? ==>
              && out.relay.cached == Some(out.result.value) && out.endpoint.side.Allocator?
              && (!(out.endpoint.phase.Ended? && !ReceiptReleased(out.endpoint)) ==> SoundCore(w, next))
              && Follows(WireOf(Established(core)),
                         WireOf(Established(next)).(generation := SaturatingSucc(next.endpoint.generation)), None)
  {
    AppliedIsHeld(w, core.endpoint, o, core.endpoint.side);
    hide Apply, Lawful, ConsistentProjection;
  }

  lemma PrepareProceeds(w: World, s: Session, o: Object, now: u64, nonce: Bytes12)
    requires Lawful(w) && Recognised(w, o) && Ready(w, s)
    ensures Proceeds(w, s, PrepareObject(w, s, o, now, nonce), None)
  {
    hide SaveEstablished, PrepareOutbound;
    if PrepareObject(w, s, o, now, nonce).Ok? {
      var core := s.state.core;
      OutboundIsSound(w, core, o);
      hide Lawful, SoundCore;
      var out := PrepareOutbound(w, core.endpoint, core.channel, core.relay, o);
      var next := Restored(out.endpoint, out.channel, out.relay);
      assert PhaseRefused(next.endpoint, Some(next.endpoint.carrier.expiresAt), now).None? ==> SoundCore(w, next);
      var after := [RelayPut(w, out.relay.CachedApplicationSequence().value, out.result.value).value];
      assert Covered(w, WireOf(Established(next)), after);
      hide Covered, PhaseRefused;
      SaveEstablishedGates(w, s, s, next, now, nonce, after, None);
    }
  }

  // ---------------------------------------------------------------- any relay response

  lemma ReopenIsCovered(w: World, s: Session)
    requires Sound(w, s.state) && Reopen(w, s).Ok?
    ensures Covered(w, WireOf(s.state), Reopen(w, s).value)
  {
  }

  lemma PeerFrameProceeds(w: World, s: Session, peerSeq: u8, body: Bytes, now: u64, nonce: Bytes12)
    requires Lawful(w) && Ready(w, s)
    ensures Proceeds(w, s, PeerFrameStep(w, s, peerSeq, body, now, nonce), None)
  {
    hide Proceeds, Redelivered, FirstShare, PeerFinished, PeerApplication;
    if w.decodeFrame(body).Err? || s.state.AwaitWelcome? || s.state.AwaitAllocation? {
      RefusalProceeds(w, s, PeerFrameStep(w, s, peerSeq, body, now, nonce), None);
    } else {
      var frame := w.decodeFrame(body).value;
      match s.state
      case Established(core) => PeerApplicationProceeds(w, s, core, peerSeq, frame, now, nonce);
      case Boot(b) =>
        if peerSeq == 0 && b.peerCpace.Some? {
          RedeliveredProceeds(w, s, b, frame, now);
        } else if b.phase.Allocated? {
          FirstShareProceeds(w, s, b, peerSeq, frame, now, nonce);
        } else if b.phase.FinishedSent? {
          PeerFinishedProceeds(w, s, b, peerSeq, frame, now, nonce);
        } else {
          RefusalProceeds(w, s, PeerFrameStep(w, s, peerSeq, body, now, nonce), None);
        }
    }
  }

  lemma RefusalProceeds(w: World, s: Session, reply: Reply, acknowledged: Option<u8>)
    requires reply.Err?
    ensures Proceeds(w, s, reply, acknowledged)
  {
  }

  lemma UnchangedProceeds(w: World, s: Session, expiresAt: u64, now: u64, acknowledged: Option<u8>)
    requires Ready(w, s)
    ensures Proceeds(w, s, Unchanged(s, expiresAt, now), acknowledged)
  {
    if now < expiresAt { assert Quiet(w, s, s, []); }
  }

  lemma AcknowledgedProceeds(w: World, s: Session, sequence: u8, now: u64, nonce: Bytes12)
    requires Lawful(w) && Ready(w, s)
    ensures Proceeds(w, s, LocalAcknowledged(w, s, sequence, now, nonce), Some(sequence))
  {
    hide Proceeds, Unchanged, ApplicationAcknowledged;
    match s.state
    case Boot(b) =>
      UnchangedProceeds(w, s, b.carrier.expiresAt, now, Some(sequence));
      if b.phase.ShareSent? {
        ShareAcknowledged(w, s, b, sequence, now, nonce);
      } else if b.phase.FinishedSent? {
        FinishedAcknowledged(w, s, b, sequence, now, nonce);
      } else {
        RefusalProceeds(w, s, BootAcknowledged(w, s, b, sequence, now, nonce), Some(sequence));
      }
    case Established(core) =>
      UnchangedProceeds(w, s, core.endpoint.carrier.expiresAt, now, Some(sequence));
      ApplicationAcknowledgedProceeds(w, s, core, sequence, now, nonce);
    case _ => RefusalProceeds(w, s, LocalAcknowledged(w, s, sequence, now, nonce), Some(sequence));
  }

  function AcknowledgedBy(m: ServerMessage): Option<u8> { if m.Acknowledged? then Some(m.seqNo) else None }

  /** Any relay response, in any state: the session repeats what is durable, or asks
      for one checkpoint and nothing else, or ends. */
  lemma ServerProceeds(w: World, s: Session, m: ServerMessage, now: u64, nonce: Bytes12)
    requires Lawful(w) && Ready(w, s)
    ensures Proceeds(w, s, ApplyServer(w, s, m, now, nonce), AcknowledgedBy(m))
  {
    hide AllocatedStep, PeerFrameStep, LocalAcknowledged, Reopen;
    var reply := ApplyServer(w, s, m, now, nonce);
    match m
    case Welcome =>
      if s.resume && Reopen(w, s).Ok? {
        ReopenIsCovered(w, s);
        assert Quiet(w, s, reply.value.0, reply.value.1);
      } else if reply.Ok? {
        assert Quiet(w, s, reply.value.0, reply.value.1);
      }
    case AllocatedV2(id, token, expiresAt) =>
      hide Proceeds;
      if s.state.AwaitAllocation? { AllocatedProceeds(w, s, id, token, expiresAt, now, nonce); }
      else { RefusalProceeds(w, s, reply, None); }
    case PeerFrame(peerSeq, body) => hide Proceeds; PeerFrameProceeds(w, s, peerSeq, body, now, nonce);
    case Acknowledged(sequence) => hide Proceeds; AcknowledgedProceeds(w, s, sequence, now, nonce);
    case Pong => assert Quiet(w, s, s, []);
    case Closed =>
    case Failed =>
    case Unexpected =>
    case Malformed =>
  }
}
