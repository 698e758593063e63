/** The allocator with its durable checkpoint slot, the relay mailbox and the network
    between them. Any relay response may arrive at any time, any number of times and
    in any order; only an acknowledgement must have come from the mailbox. Sessions
    crash and are restored, one at a time. */
module AllocatorSystem {
  import opened Base
  import opened V2
  import opened Octets
  import opened Channels
  import opened Bootstraps
  import opened Endpoints
  import opened EndpointCodec
  import opened Checkpoints
  import opened Wires
  import opened Allocators
  import opened AllocatorSteps
  import BootstrapCodec
  import M = Mailbox
  import R = MailboxRuns

  type Saved = Wires.Saved<State>

  datatype System = System(
    live: Option<Session>,
    outbox: Option<Saved>,
    slot: Option<Saved>,
    run: R.Run,
    sent: set<ClientMessage>,
    acknowledged: set<u8>)

  datatype Event =
    | Receives(m: ServerMessage, now: u64, nonce: Bytes12)
    | Prepares(o: Object, now: u64, nonce: Bytes12)
    | Persists
    | Releases
    | Crashes
    | Restores(key: Bytes32, carrier: Carrier, generation: u64, profile: Bytes32, now: u64, mode: Mode,
               freshScalar: Bytes32, verifier: Bytes)
    | Relays(now: u64, command: M.Command)

  function Start(session: Session, mailbox: M.Mailbox): System {
    System(Some(session), None, None, R.Run(Some(mailbox), R.NOTHING_YET), {}, {})
  }

  /** What the surroundings can do: the shell confirms a checkpoint only once the slot
      holds it, the mailbox receives on the allocator's behalf only what the allocator
      sent, and the peer and the clock do as they please. */
  ghost predicate Possible(w: World, sys: System, event: Event) {
    match event
    case Receives(m, _, _) => sys.live.Some? && (m.Acknowledged? ==> m.seqNo in sys.acknowledged)
    case Prepares(o, _, _) => sys.live.Some? && Recognised(w, o)
    case Persists => sys.outbox.Some?
    case Releases => sys.live.Some? && sys.outbox.Some? && sys.slot == sys.outbox
    case Crashes => true
    case Restores(_, _, _, _, _, _, _, _) => sys.live.None? && sys.slot.Some?
    case Relays(_, command) =>
      && (command.Put? && command.sender.Allocator? ==> Put(command.seqNo, command.body) in sys.sent)
      && (command.Ack? && command.acker.Allocator? ==> Ack(command.peerSeq) in sys.sent)
  }

  function Sends(effects: seq<Effect>): set<ClientMessage> {
    set i | 0 <= i < |effects| && effects[i].Send? :: effects[i].message
  }

  /** The shell after a call: messages go out, a checkpoint waits to be written. */
  function Emit(sys: System, outcome: (Session, Outcome<seq<Effect>>)): System {
    var next := sys.(live := Some(outcome.0));
    if outcome.1.Err? then next
    else
      var effects := outcome.1.value;
      next.(sent := sys.sent + Sends(effects),
            outbox := if |effects| > 0 && effects[0].Save? then Some(Saved(effects[0].checkpoint, outcome.0.state))
                else sys.outbox)
  }

  function StoredBy(h: M.Hashes, run: R.Run, now: u64, command: M.Command): set<u8> {
    if run.mailbox.None? || !command.Put? || !command.sender.Allocator? then {}
    else match M.Transition(h, run.mailbox.value, now, command)
      case Err(_) => {}
      case Ok(step) =>
        if M.Stored(M.Allocator, command.seqNo, true) in step.effects
            || M.Stored(M.Allocator, command.seqNo, false) in step.effects
        then {command.seqNo} else {}
  }

  function Happens(w: World, h: M.Hashes, sys: System, event: Event): System {
    match event
    case Receives(m, now, nonce) => if sys.live.None? then sys else Emit(sys, Receive(w, sys.live.value, m, now, nonce))
    case Prepares(o, now, nonce) => if sys.live.None? then sys else Emit(sys, Prepare(w, sys.live.value, o, now, nonce))
    case Persists => sys.(slot := sys.outbox)
    case Releases =>
      if sys.live.None? || sys.outbox.None? then sys
      else
        (match CheckpointPersisted(sys.live.value, sys.outbox.value.checkpoint.generation)
         case Err(_) => sys
         case Ok((next, effects)) => sys.(live := Some(next), outbox := None, sent := sys.sent + Sends(effects)))
    case Crashes => sys.(live := None, outbox := None)
    case Restores(key, carrier, generation, profile, now, mode, freshScalar, verifier) =>
      if sys.slot.None? then sys
      else
        (match Restore(w, sys.slot.value.checkpoint, key, carrier, generation, profile, now, mode, freshScalar,
            verifier)
         case Err(_) => sys
         case Ok(session) => sys.(live := Some(session)))
    case Relays(now, command) =>
      sys.(run := R.Serve(h, sys.run, now, command),
          acknowledged := sys.acknowledged + StoredBy(h, sys.run, now, command))
  }

  function Execute(w: World, h: M.Hashes, start: System, events: seq<Event>): System {
    if events == [] then start
    else Happens(w, h, Execute(w, h, start, events[..|events| - 1]), events[|events| - 1])
  }

  ghost predicate Feasible(w: World, h: M.Hashes, start: System, events: seq<Event>) {
    events == []
    || (var n := |events| - 1;
        Feasible(w, h, start, events[..n]) && Possible(w, Execute(w, h, start, events[..n]), events[n]))
  }

  // ---------------------------------------------------------------- invariant

  /** What the durable slot shows the relay. */
  function Durable(sys: System): Wire { if sys.slot.None? then Blank() else WireOf(sys.slot.value.state) }

  /** A message released earlier that the durable wire still accounts for. */
  ghost predicate Accounted(w: World, wire: Wire, m: ClientMessage) {
    && FitsWire(m)
    && (m.Put? ==>
          && m.seqNo < wire.nextLocal
          && (m.seqNo + 1 == wire.nextLocal && wire.awaiting ==> Repeats(w, wire, m.body))
          && Framed(w, V2.Allocator, m))
    && (m.Ack? ==> m.peerSeq < wire.nextPeer)
  }

  ghost predicate SentOk(w: World, wire: Wire, sent: set<ClientMessage>) {
    OneBodyPerSequence(sent) && forall m | m in sent :: Accounted(w, wire, m)
  }

  ghost predicate SavedOk(w: World, saved: Saved) {
    SealedFrom(w, saved.checkpoint, saved.state) && Sound(w, saved.state)
  }

  /** The mailbox holds nothing from the allocator but what it sent, in order. */
  ghost predicate FromSent(accepted: seq<Bytes>, sent: set<ClientMessage>) {
    forall i: nat | i < |accepted| :: i < 256 && Put(i, accepted[i]) in sent
  }

  ghost predicate AckedFromSent(past: R.History, sent: set<ClientMessage>) {
    forall k: nat | (M.Claimant, k) in past.acked :: k < 256 && Ack(k) in sent
  }

  ghost predicate MailboxOk(h: M.Hashes, sys: System) {
    && (sys.run.mailbox.Some? ==> R.Agrees(h, sys.run.mailbox.value, sys.run.past))
    && FromSent(sys.run.past.fromAllocator, sys.sent)
    && AckedFromSent(sys.run.past, sys.sent)
    && forall q | q in sys.acknowledged :: q < |sys.run.past.fromAllocator|
  }

  ghost predicate LiveOk(w: World, sys: System, s: Session) {
    if s.state.Terminal? then s.gate.None? && s.after == [] && sys.outbox.None?
    else
      && Sound(w, s.state)
      && WireOf(s.state).Floor() <= |sys.run.past.fromAllocator|
      && if s.gate.None? then s.after == [] && sys.outbox.None? && WireOf(s.state) == Durable(sys)
         else
           && sys.outbox.Some? && sys.outbox.value.state == s.state && SavedOk(w, sys.outbox.value)
           && s.gate == Some(sys.outbox.value.checkpoint.generation)
           && Covered(w, WireOf(s.state), s.after)
           && (sys.slot == sys.outbox || Moves(Durable(sys), WireOf(s.state)))
  }

  ghost predicate Inv(w: World, h: M.Hashes, sys: System) {
    && (sys.slot.Some? ==> SavedOk(w, sys.slot.value))
    && Durable(sys).Floor() <= |sys.run.past.fromAllocator|
    && SentOk(w, Durable(sys), sys.sent)
    && MailboxOk(h, sys)
    && (if sys.live.None? then sys.outbox.None? else LiveOk(w, sys, sys.live.value))
  }

  // ---------------------------------------------------------------- restoring the slot

  lemma BootSlotRestores(w: World, saved: Saved, key: Bytes32, carrier: Carrier, generation: u64, profile: Bytes32,
      now: u64, mode: Mode, freshScalar: Bytes32, verifier: Bytes)
    requires Lawful(w) && SavedOk(w, saved) && saved.state.Boot?
    ensures var r := Restore(w, saved.checkpoint, key, carrier, generation, profile, now, mode, freshScalar, verifier);
            r.Ok? ==> r.value.state == saved.state
  {
    hide BootstrapCodec.EncodeBootstrap, BootstrapCodec.DecodeBootstrap, DecodeEndpoint, PhaseRefused, Derived, Lawful;
    var c, b := saved.checkpoint, saved.state.bootstrap;
    BootstrapCodec.BootstrapRoundTrip(w, b, c.generation, c.nonce);
    hide Reached;
    BootstrapIsNoEndpoint(w, b, c.generation, c.nonce, carrier, generation, c.nonce, V2.Allocator);
    if carrier != b.carrier || mode != b.mode { WrongBindingsFail(w, b, c.generation, c.nonce, carrier, mode); }
  }

  lemma OtherCarrierFails(w: World, core: Restored, g: u64, n: Bytes12, carrier: Carrier)
    requires Lawful(w) && EncodeEndpoint(w, core, g, n).Ok?
             && |EncodeEndpoint(w, core, g, n).value| <= EndpointCodec.MAX_PLAINTEXT
    requires DecodeEndpoint(w, EncodeEndpoint(w, core, g, n).value, core.endpoint.side, carrier, g, n).Ok?
    ensures carrier == core.endpoint.carrier
  {
    EndpointCodec.CarrierReadsBack(w, core, g, n);
    hide EncodeEndpoint, DecodeState;
  }

  lemma EstablishedSlotRestores(w: World, saved: Saved, key: Bytes32, carrier: Carrier, generation: u64,
      profile: Bytes32, now: u64, mode: Mode, freshScalar: Bytes32, verifier: Bytes)
    requires Lawful(w) && SavedOk(w, saved) && saved.state.Established?
    ensures var r := Restore(w, saved.checkpoint, key, carrier, generation, profile, now, mode, freshScalar, verifier);
            r.Ok? ==> r.value.state == Established(Image(saved.state.core, saved.checkpoint.generation,
                saved.checkpoint.nonce))
  {
    hide SoundCore, EncodeEndpoint, DecodeEndpoint, BootstrapCodec.DecodeBootstrap, PhaseRefused, Image, Restorable,
         Lawful;
    var c, core := saved.checkpoint, saved.state.core;
    EndpointIsNoBootstrap(w, core, c.generation, c.nonce, carrier, generation, c.nonce, mode);
    EndpointRoundTrip(w, core, c.generation, c.nonce);
    assert core.endpoint.side == V2.Allocator by { SideOf(w, core); }
    if DecodeEndpoint(w, c.plaintext, V2.Allocator, carrier, c.generation, c.nonce).Ok? {
      OtherCarrierFails(w, core, c.generation, c.nonce, carrier);
    }
  }

  lemma SideOf(w: World, core: Restored)
    requires SoundCore(w, core)
    ensures core.endpoint.side == V2.Allocator
  {
  }

  lemma ImageIsSound(w: World, core: Restored, g: u64, nonce: Bytes12)
    requires SoundCore(w, core)
    ensures SoundCore(w, Image(core, g, nonce))
    ensures WireOf(Established(Image(core, g, nonce))) == WireOf(Established(core)).(generation := g)
  {
  }

  /** Whatever arguments a restore is called with, what comes back shows the relay
      exactly what the durable slot did. */
  lemma SlotRestores(w: World, saved: Saved, key: Bytes32, carrier: Carrier, generation: u64, profile: Bytes32,
      now: u64, mode: Mode, freshScalar: Bytes32, verifier: Bytes)
    requires Lawful(w) && SavedOk(w, saved)
    ensures var r := Restore(w, saved.checkpoint, key, carrier, generation, profile, now, mode, freshScalar, verifier);
            r.Ok? ==>
              && r.value.gate.None? && r.value.after == [] && !r.value.state.Terminal?
              && Sound(w, r.value.state) && WireOf(r.value.state) == WireOf(saved.state)
  {
    hide RestoreBootstrap, RestoreEndpoint, SoundCore, Reached, BootstrapCodec.EncodeBootstrap, EncodeEndpoint,
         Image, Lawful;
    if saved.state.Boot? {
      BootSlotRestores(w, saved, key, carrier, generation, profile, now, mode, freshScalar, verifier);
    } else {
      EstablishedSlotRestores(w, saved, key, carrier, generation, profile, now, mode, freshScalar, verifier);
      ImageIsSound(w, saved.state.core, saved.checkpoint.generation, saved.checkpoint.nonce);
    }
  }

  lemma BootRestoresExactly(w: World, saved: Saved, key: Bytes32, carrier: Carrier, generation: u64, profile: Bytes32,
      now: u64, mode: Mode, freshScalar: Bytes32, verifier: Bytes)
    requires Lawful(w) && SavedOk(w, saved) && saved.state.Boot?
    ensures var c, b := saved.checkpoint, saved.state.bootstrap;
            Restore(w, c, key, carrier, generation, profile, now, mode, freshScalar, verifier).Ok? <==>
              key == c.key && generation == c.generation && now < b.carrier.expiresAt
              && carrier == b.carrier && mode == b.mode && profile == b.profile
  {
    hide BootstrapCodec.EncodeBootstrap, BootstrapCodec.DecodeBootstrap, DecodeEndpoint, PhaseRefused, Derived, Lawful;
    var c, b := saved.checkpoint, saved.state.bootstrap;
    BootstrapCodec.BootstrapRoundTrip(w, b, c.generation, c.nonce);
    hide Reached;
    BootstrapIsNoEndpoint(w, b, c.generation, c.nonce, carrier, generation, c.nonce, V2.Allocator);
    if carrier != b.carrier || mode != b.mode { WrongBindingsFail(w, b, c.generation, c.nonce, carrier, mode); }
  }

  lemma ImageStaysSealable(core: Restored, g: u64, nonce: Bytes12, now: u64)
    requires core.endpoint.side.Allocator? && (core.endpoint.phase.Ended? ==> ReceiptReleased(core.endpoint))
    ensures PhaseRefused(Image(core, g, nonce).endpoint, Some(core.endpoint.carrier.expiresAt), now).None?
            <==> now < core.endpoint.carrier.expiresAt
  {
  }

  lemma EstablishedRestoresExactly(w: World, saved: Saved, key: Bytes32, carrier: Carrier, generation: u64,
      profile: Bytes32, now: u64, mode: Mode, freshScalar: Bytes32, verifier: Bytes)
    requires Lawful(w) && SavedOk(w, saved) && saved.state.Established?
    ensures var c, core := saved.checkpoint, saved.state.core;
            Restore(w, c, key, carrier, generation, profile, now, mode, freshScalar, verifier).Ok? <==>
              key == c.key && generation == c.generation && now < core.endpoint.carrier.expiresAt
              && carrier == core.endpoint.carrier && BytesAccountedFor(core.endpoint.last, V2.Allocator, core.relay)
  {
    hide SoundCore, EncodeEndpoint, DecodeEndpoint, BootstrapCodec.DecodeBootstrap, PhaseRefused, Image, Restorable,
         Lawful, ReceiptReleased;
    var c, core := saved.checkpoint, saved.state.core;
    EndpointIsNoBootstrap(w, core, c.generation, c.nonce, carrier, generation, c.nonce, mode);
    EndpointRoundTrip(w, core, c.generation, c.nonce);
    SideOf(w, core);
    HeldOf(w, core);
    OnlyForgottenBytesBar(w, core);
    ImageStaysSealable(core, c.generation, c.nonce, now);
    if DecodeEndpoint(w, c.plaintext, V2.Allocator, carrier, c.generation, c.nonce).Ok? {
      OtherCarrierFails(w, core, c.generation, c.nonce, carrier);
    }
  }

  lemma HeldOf(w: World, core: Restored)
    requires SoundCore(w, core)
    ensures Held(w, core)
  {
  }

  // ---------------------------------------------------------------- sending

  lemma CoveredIsAccounted(w: World, saved: Saved, m: ClientMessage)
    requires Lawful(w) && SavedOk(w, saved) && Covers(w, WireOf(saved.state), m)
    ensures Accounted(w, WireOf(saved.state), m)
  {
    OutstandingFrame(w, saved.state);
    hide WireOf, Sound, SealedFrom;
  }

  lemma BlankCoversNothing(w: World, m: ClientMessage)
    requires Covers(w, Blank(), m)
    ensures !m.Put? && !m.Ack?
  {
  }

  /** Releasing what the durable slot covers keeps every earlier promise. */
  lemma SendCovered(w: World, sys: System, effects: seq<Effect>)
    requires Lawful(w) && (sys.slot.Some? ==> SavedOk(w, sys.slot.value))
    requires SentOk(w, Durable(sys), sys.sent) && Covered(w, Durable(sys), effects)
    ensures SentOk(w, Durable(sys), sys.sent + Sends(effects))
  {
    hide SavedOk, Lawful;
    var wire, sent := Durable(sys), sys.sent + Sends(effects);
    forall m | m in sent ensures Accounted(w, wire, m) && (m.Put? && m !in sys.sent ==> Covers(w, wire, m)) {
      if m !in sys.sent {
        assert Covers(w, wire, m);
        if sys.slot.Some? { CoveredIsAccounted(w, sys.slot.value, m); } else { BlankCoversNothing(w, m); }
      }
    }
    hide WireOf, Durable;
    forall a, b | a in sent && b in sent && a.Put? && b.Put? && a.seqNo == b.seqNo ensures a == b {}
  }

  lemma AccountedMoves(w: World, from: Wire, to: Wire, sent: set<ClientMessage>)
    requires SentOk(w, from, sent) && Moves(from, to)
    ensures SentOk(w, to, sent)
  {
    forall m | m in sent ensures Accounted(w, to, m) { assert Accounted(w, from, m); }
  }

  lemma MoreSent(h: M.Hashes, sys: System, next: System)
    requires MailboxOk(h, sys) && next.run == sys.run && next.acknowledged == sys.acknowledged && sys.sent <= next.sent
    ensures MailboxOk(h, next)
  {
    hide R.Agrees;
  }

  // ---------------------------------------------------------------- the client's steps

  lemma TerminalIsInert(w: World, s: Session, m: ServerMessage, o: Object, now: u64, nonce: Bytes12)
    requires s.state.Terminal? && s.gate.None? && s.after == []
    ensures forall r | r in {Receive(w, s, m, now, nonce), Prepare(w, s, o, now, nonce)} ::
              && r.0.state.Terminal? && r.0.gate.None? && r.0.after == []
              && (r.1.Ok? ==> r.1.value == [] || r.1.value == [SessionTerminal])
  {
    hide PeerApplication, Redelivered, FirstShare, PeerFinished, AllocatedStep, BootAcknowledged,
         ApplicationAcknowledged;
  }

  /** One call of the live session, given how its reply may look. */
  lemma CallKeepsInv(w: World, h: M.Hashes, sys: System, reply: Reply, acknowledged: Option<u8>)
    requires Lawful(w) && Inv(w, h, sys) && sys.live.Some? && Ready(w, sys.live.value)
    requires Proceeds(w, sys.live.value, reply, acknowledged)
    requires acknowledged.Some? ==> acknowledged.value in sys.acknowledged
    ensures Inv(w, h, Emit(sys, Guarded(sys.live.value, reply)))
  {
    hide SavedOk, Sound, WireOf, MailboxOk, SealedFrom, Lawful;
    var s := sys.live.value;
    var next := Emit(sys, Guarded(s, reply));
    assert Durable(next) == Durable(sys);
    if reply.Ok? && Quiet(w, s, reply.value.0, reply.value.1) {
      SendCovered(w, sys, reply.value.1);
      MoreSent(h, sys, next);
    } else if reply.Ok? && Gated(w, s, reply.value.0, reply.value.1, acknowledged) {
      assert Sends(reply.value.1) == {};
      assert next.sent == sys.sent;
      MoreSent(h, sys, next);
      GateIsLive(w, h, sys, reply.value.0, reply.value.1, acknowledged);
    } else {
      assert Sends([SessionTerminal]) == {};
      assert next.sent == sys.sent;
      MoreSent(h, sys, next);
    }
  }

  lemma GateIsLive(w: World, h: M.Hashes, sys: System, s: Session, effects: seq<Effect>, acknowledged: Option<u8>)
    requires Inv(w, h, sys) && sys.live.Some? && Ready(w, sys.live.value)
    requires Gated(w, sys.live.value, s, effects, acknowledged)
    requires acknowledged.Some? ==> acknowledged.value in sys.acknowledged
    ensures LiveOk(w, sys.(live := Some(s), outbox := Some(Saved(effects[0].checkpoint, s.state))), s)
  {
    assert effects[0].checkpoint.generation == effects[0].generation && !s.state.Terminal?;
    hide Sound, WireOf, SealedFrom, Covered, R.Agrees, SentOk;
  }

  lemma ReceivesKeepsInv(w: World, h: M.Hashes, sys: System, m: ServerMessage, now: u64, nonce: Bytes12)
    requires Lawful(w) && Inv(w, h, sys) && Possible(w, sys, Receives(m, now, nonce))
    ensures Inv(w, h, Happens(w, h, sys, Receives(m, now, nonce)))
  {
    hide SavedOk, Sound, WireOf, MailboxOk, SentOk, ApplyServer, Covered, Moves;
    var s := sys.live.value;
    if s.gate.Some? {
      assert Happens(w, h, sys, Receives(m, now, nonce)) == sys;
    } else if s.state.Terminal? {
      InertKeepsInv(w, h, sys, Receive(w, s, m, now, nonce)) by {
        TerminalIsInert(w, s, m, Object(Offer, w.selectionDigest, [], [], w.selectionDigest), now, nonce);
      }
    } else {
      ServerProceeds(w, s, m, now, nonce);
      CallKeepsInv(w, h, sys, ApplyServer(w, s, m, now, nonce), AcknowledgedBy(m));
    }
  }

  lemma PreparesKeepsInv(w: World, h: M.Hashes, sys: System, o: Object, now: u64, nonce: Bytes12)
    requires Lawful(w) && Inv(w, h, sys) && Possible(w, sys, Prepares(o, now, nonce))
    ensures Inv(w, h, Happens(w, h, sys, Prepares(o, now, nonce)))
  {
    hide SavedOk, Sound, WireOf, MailboxOk, SentOk, PrepareObject, Covered, Moves;
    var s := sys.live.value;
    if s.gate.Some? {
      assert Happens(w, h, sys, Prepares(o, now, nonce)) == sys;
    } else if s.state.Terminal? {
      InertKeepsInv(w, h, sys, Prepare(w, s, o, now, nonce)) by { TerminalIsInert(w, s, Pong, o, now, nonce); }
    } else {
      PrepareProceeds(w, s, o, now, nonce);
      CallKeepsInv(w, h, sys, PrepareObject(w, s, o, now, nonce), None);
    }
  }

  lemma InertKeepsInv(w: World, h: M.Hashes, sys: System, outcome: (Session, Outcome<seq<Effect>>))
    requires Inv(w, h, sys) && sys.live.Some? && sys.outbox.None?
    requires outcome.0.state.Terminal? && outcome.0.gate.None? && outcome.0.after == []
    requires outcome.1.Ok? ==> outcome.1.value == [] || outcome.1.value == [SessionTerminal]
    ensures Inv(w, h, Emit(sys, outcome))
  {
    hide SavedOk, SentOk, MailboxOk, WireOf;
    var next := Emit(sys, outcome);
    assert next.sent == sys.sent;
    MoreSent(h, sys, next);
    assert Durable(next) == Durable(sys);
  }

  lemma PersistsKeepsInv(w: World, h: M.Hashes, sys: System)
    requires Inv(w, h, sys) && sys.outbox.Some?
    ensures Inv(w, h, Happens(w, h, sys, Persists))
  {
    var s := sys.live.value;
    var next := Happens(w, h, sys, Persists);
    hide SavedOk, WireOf, Sound, Covered, R.Agrees;
    if sys.slot != sys.outbox {
      AccountedMoves(w, Durable(sys), WireOf(s.state), sys.sent);
    }
    hide SentOk, Moves;
    MoreSent(h, sys, next);
  }

  lemma ReleasesKeepsInv(w: World, h: M.Hashes, sys: System)
    requires Lawful(w) && Inv(w, h, sys) && Possible(w, sys, Releases)
    ensures Inv(w, h, Happens(w, h, sys, Releases))
  {
    hide SavedOk, WireOf, Sound, Covered, SentOk, Moves, MailboxOk, Lawful;
    var s := sys.live.value;
    var next := Happens(w, h, sys, Releases);
    SendCovered(w, sys, s.after);
    MoreSent(h, sys, next);
    assert Durable(next) == Durable(sys);
    NothingCovered(w, Durable(sys));
  }

  lemma NothingCovered(w: World, wire: Wire)
    ensures Covered(w, wire, [])
  {
  }

  lemma RestoresKeepsInv(w: World, h: M.Hashes, sys: System, event: Event)
    requires Lawful(w) && Inv(w, h, sys) && event.Restores? && Possible(w, sys, event)
    ensures Inv(w, h, Happens(w, h, sys, event))
  {
    hide SavedOk, WireOf, Sound, SentOk, MailboxOk, Restore, Lawful;
    SlotRestores(w, sys.slot.value, event.key, event.carrier, event.generation, event.profile, event.now, event.mode,
                 event.freshScalar, event.verifier);
    var next := Happens(w, h, sys, event);
    MoreSent(h, sys, next);
    assert Durable(next) == Durable(sys);
  }

  // ---------------------------------------------------------------- the mailbox's step

  lemma StoredSequence(h: M.Hashes, m: M.Mailbox, past: R.History, now: u64, q: u8, body: Bytes, replay: bool)
    requires R.Agrees(h, m, past) && M.Transition(h, m, now, M.Put(M.Allocator, q, body)).Ok?
    requires M.Stored(M.Allocator, q, replay) in M.Transition(h, m, now, M.Put(M.Allocator, q, body)).value.effects
    ensures if replay then q < |past.fromAllocator| else q == |past.fromAllocator|
  {
    hide M.Valid, R.Matches;
    assert m.allocator.nextSeq == |past.fromAllocator| by { NextSequence(h, m, past); }
    R.DeletionsOnly(M.Allocator, m.Frames(M.Allocator));
    R.DeletionsOnly(M.Claimant, m.Frames(M.Claimant));
    R.EndedShown(m, M.Conflict);
  }

  lemma NextSequence(h: M.Hashes, m: M.Mailbox, past: R.History)
    requires R.Agrees(h, m, past)
    ensures m.allocator.nextSeq == |past.fromAllocator|
  {
  }

  lemma ObserveKeeps(past: R.History, command: M.Command, effects: seq<M.Effect>, sent: set<ClientMessage>)
    requires FromSent(past.fromAllocator, sent) && AckedFromSent(past, sent)
    requires command.Put? && command.sender.Allocator? ==> Put(command.seqNo, command.body) in sent
    requires command.Put? && command.sender.Allocator? && M.Stored(M.Allocator, command.seqNo, false) in effects ==>
               command.seqNo == |past.fromAllocator|
    requires command.Ack? && command.acker.Allocator? ==> Ack(command.peerSeq) in sent
    ensures var next := R.Observe(past, command, effects);
            FromSent(next.fromAllocator, sent) && AckedFromSent(next, sent)
                && |past.fromAllocator| <= |next.fromAllocator|
  {
  }

  lemma RelaysKeepsMailbox(w: World, h: M.Hashes, sys: System, now: u64, command: M.Command)
    requires MailboxOk(h, sys) && Possible(w, sys, Relays(now, command))
    ensures var next := Happens(w, h, sys, Relays(now, command));
            MailboxOk(h, next) && |sys.run.past.fromAllocator| <= |next.run.past.fromAllocator|
  {
    hide R.Agrees, M.Transition, FromSent, AckedFromSent;
    if sys.run.mailbox.Some? {
      var m, past := sys.run.mailbox.value, sys.run.past;
      R.ServeAgrees(h, m, past, now, command);
      assert R.Run(Some(m), past) == sys.run;
      var r := M.Transition(h, m, now, command);
      if r.Ok? {
        var mine := command.Put? && command.sender.Allocator?;
        if mine && M.Stored(M.Allocator, command.seqNo, true) in r.value.effects {
          StoredSequence(h, m, past, now, command.seqNo, command.body, true);
        }
        if mine && M.Stored(M.Allocator, command.seqNo, false) in r.value.effects {
          StoredSequence(h, m, past, now, command.seqNo, command.body, false);
        }
        ObserveKeeps(past, command, r.value.effects, sys.sent);
        if mine && M.Stored(M.Allocator, command.seqNo, false) in r.value.effects {
          assert |R.Observe(past, command, r.value.effects).fromAllocator| == |past.fromAllocator| + 1;
        }
      }
    }
  }

  lemma RelaysKeepsInv(w: World, h: M.Hashes, sys: System, now: u64, command: M.Command)
    requires Inv(w, h, sys) && Possible(w, sys, Relays(now, command))
    ensures Inv(w, h, Happens(w, h, sys, Relays(now, command)))
  {
    hide SavedOk, WireOf, Sound, SentOk, MailboxOk, Covered, Moves, R.Serve, StoredBy, Possible;
    RelaysKeepsMailbox(w, h, sys, now, command);
    assert Durable(Happens(w, h, sys, Relays(now, command))) == Durable(sys);
  }

  // ---------------------------------------------------------------- every run

  lemma StepKeepsInv(w: World, h: M.Hashes, sys: System, event: Event)
    requires Lawful(w) && Inv(w, h, sys) && Possible(w, sys, event)
    ensures Inv(w, h, Happens(w, h, sys, event))
  {
    match event
    case Receives(m, now, nonce) => ReceivesKeepsInv(w, h, sys, m, now, nonce); hide *;
    case Prepares(o, now, nonce) => PreparesKeepsInv(w, h, sys, o, now, nonce); hide *;
    case Persists => PersistsKeepsInv(w, h, sys); hide *;
    case Releases => ReleasesKeepsInv(w, h, sys); hide *;
    case Crashes =>
      hide SavedOk, WireOf, SentOk, LiveOk, R.Agrees;
      MoreSent(h, sys, Happens(w, h, sys, event));
      assert Durable(Happens(w, h, sys, event)) == Durable(sys);
    case Restores(_, _, _, _, _, _, _, _) => RestoresKeepsInv(w, h, sys, event); hide *;
    case Relays(now, command) => RelaysKeepsInv(w, h, sys, now, command); hide *;
  }

  /** A new session and a fresh mailbox. */
  ghost predicate Started(h: M.Hashes, sys: System) {
    && sys.live.Some? && sys.live.value.state.AwaitWelcome? && sys.live.value.gate.None? && sys.live.value.after == []
    && sys.run.mailbox.Some? && R.Fresh(h, sys.run.mailbox.value)
    && sys == Start(sys.live.value, sys.run.mailbox.value)
  }

  /** A session the constructor accepts and a mailbox the relay allocates are a start. */
  lemma NewSessionStarts(h: M.Hashes, carrier: Carrier, secret: Bytes16, claimToken: Bytes16, scalar: Bytes32,
      mode: Mode, profile: Bytes32, key: Bytes32, verifier: Bytes, allocatorHash: Bytes32, commitment: Bytes32,
      now: u64)
    requires NewSession(carrier, secret, claimToken, scalar, mode, profile, key, verifier).Ok?
    requires M.AllocateV2(carrier.mailboxId, allocatorHash, commitment, now, Some(900)).Ok?
    ensures Started(h, Start(NewSession(carrier, secret, claimToken, scalar, mode, profile, key, verifier).value,
                             M.AllocateV2(carrier.mailboxId, allocatorHash, commitment, now, Some(900)).value))
  {
  }

  lemma StartedInv(w: World, h: M.Hashes, sys: System)
    requires Started(h, sys)
    ensures Inv(w, h, sys)
  {
    var m := sys.run.mailbox.value;
    assert R.Agrees(h, m, R.NOTHING_YET);
  }

  /** Whatever the peer, the network, the clock and crashes do, the invariant holds
      after every run. */
  lemma {:induction false} EveryRun(w: World, h: M.Hashes, start: System, events: seq<Event>)
    requires Lawful(w) && Started(h, start) && Feasible(w, h, start, events)
    ensures Inv(w, h, Execute(w, h, start, events))
  {
    hide Inv, Happens, Possible, Started;
    if events == [] {
      StartedInv(w, h, start);
    } else {
      var n := |events| - 1;
      EveryRun(w, h, start, events[..n]);
      StepKeepsInv(w, h, Execute(w, h, start, events[..n]), events[n]);
    }
  }

  /** A system some run leads to. */
  ghost predicate Reachable(w: World, h: M.Hashes, sys: System) {
    exists start, events :: Started(h, start) && Feasible(w, h, start, events) && sys == Execute(w, h, start, events)
  }

  lemma ReachableInv(w: World, h: M.Hashes, sys: System)
    requires Lawful(w) && Reachable(w, h, sys)
    ensures Inv(w, h, sys)
  {
    hide Started, Feasible, Execute, Inv;
    var start, events :| Started(h, start) && Feasible(w, h, start, events) && sys == Execute(w, h, start, events);
    EveryRun(w, h, start, events);
  }

  // ---------------------------------------------------------------- what it means

  /** The durable state accounts for this message: its sequence is taken, and as long as
      the last Put is unacknowledged the state holds its very body. */
  ghost predicate Contains(w: World, state: State, m: ClientMessage) {
    var wire := WireOf(state);
    && (m.Put? ==>
         m.seqNo < wire.nextLocal && (m.seqNo + 1 == wire.nextLocal && wire.awaiting ==> Repeats(w, wire, m.body)))
    && (m.Ack? ==> m.peerSeq < wire.nextPeer)
  }

  /** All Puts an allocator ever releases for one sequence carry the same body, and every
      Put and Ack it ever released is contained in its durable checkpoint. */
  lemma CrashSafety(w: World, h: M.Hashes, sys: System)
    requires Lawful(w) && Reachable(w, h, sys)
    ensures forall q: u8, a: Bytes, b: Bytes | Put(q, a) in sys.sent && Put(q, b) in sys.sent :: a == b
    ensures forall m | m in sys.sent && (m.Put? || m.Ack?) :: sys.slot.Some? && Contains(w, sys.slot.value.state, m)
  {
    hide Reachable, MailboxOk, LiveOk, SavedOk, WireOf, Lawful;
    ReachableInv(w, h, sys);
    forall m | m in sys.sent && (m.Put? || m.Ack?) ensures sys.slot.Some? && Contains(w, sys.slot.value.state, m) {
      assert Accounted(w, Durable(sys), m);
    }
  }

  lemma NewlyCovered(w: World, s: Session, reply: Reply, acknowledged: Option<u8>, m: ClientMessage)
    requires s.gate.None? && Proceeds(w, s, reply, acknowledged) && reply.Ok? && m in Sends(reply.value.1)
    ensures Covers(w, WireOf(s.state), m)
  {
    hide Sound, WireOf, SealedFrom, Covers;
    var i :| 0 <= i < |reply.value.1| && reply.value.1[i].Send? && reply.value.1[i].message == m;
  }

  lemma LiveReleasesCovered(w: World, sys: System, event: Event, m: ClientMessage)
    requires Lawful(w) && sys.live.Some? && LiveOk(w, sys, sys.live.value) && Possible(w, sys, event)
    requires event.Receives? || event.Prepares?
    requires var s := sys.live.value;
             var r := if event.Receives? then Receive(w, s, event.m, event.now, event.nonce)
                 else Prepare(w, s, event.o, event.now, event.nonce);
             r.1.Ok? && m in Sends(r.1.value)
    ensures Covers(w, Durable(sys), m)
  {
    hide ApplyServer, PrepareObject, Sound, WireOf, Proceeds, SavedOk, Lawful, Covers;
    var s := sys.live.value;
    if s.state.Terminal? {
      var o := Object(Offer, w.selectionDigest, [], [], w.selectionDigest);
      if event.Receives? { TerminalIsInert(w, s, event.m, o, event.now, event.nonce); }
      else { TerminalIsInert(w, s, Pong, event.o, event.now, event.nonce); }
      assert false;
    } else if event.Receives? {
      ServerProceeds(w, s, event.m, event.now, event.nonce);
      NewlyCovered(w, s, ApplyServer(w, s, event.m, event.now, event.nonce), AcknowledgedBy(event.m), m);
    } else {
      PrepareProceeds(w, s, event.o, event.now, event.nonce);
      NewlyCovered(w, s, PrepareObject(w, s, event.o, event.now, event.nonce), None, m);
    }
  }

  /** Persist before release: at the moment any message leaves, the checkpoint already in
      the slot, however it is restored, gives a session that would repeat that very Put, or
      has taken in the frame that Ack names. */
  lemma ReleasedIsContained(w: World, h: M.Hashes, sys: System, event: Event, m: ClientMessage, key: Bytes32,
      carrier: Carrier, generation: u64, profile: Bytes32, now: u64, mode: Mode, freshScalar: Bytes32, verifier: Bytes)
    requires Lawful(w) && Reachable(w, h, sys) && Possible(w, sys, event)
    requires m in Happens(w, h, sys, event).sent && m !in sys.sent && (m.Put? || m.Ack?)
    ensures sys.slot.Some? && Happens(w, h, sys, event).slot == sys.slot && Covers(w, WireOf(sys.slot.value.state), m)
    ensures var r := Restore(w, sys.slot.value.checkpoint, key, carrier, generation, profile, now, mode, freshScalar,
            verifier);
            r.Ok? ==> Covers(w, WireOf(r.value.state), m)
  {
    hide Reachable, MailboxOk, SavedOk, WireOf, Lawful, SentOk, Covers, Restore, Receive, Prepare, Sound;
    ReachableInv(w, h, sys);
    if event.Releases? {
      assert Covers(w, Durable(sys), m);
    } else {
      LiveReleasesCovered(w, sys, event, m);
    }
    if sys.slot.None? { BlankCoversNothing(w, m); }
    SlotRestores(w, sys.slot.value, key, carrier, generation, profile, now, mode, freshScalar, verifier);
  }

  lemma ReleasedPutFits(w: World, h: M.Hashes, sys: System, q: u8, body: Bytes)
    requires Inv(w, h, sys) && Put(q, body) in sys.sent
    ensures var accepted := sys.run.past.fromAllocator;
            q <= |accepted| && (q < |accepted| ==> accepted[q] == body)
  {
    hide SavedOk, LiveOk, R.Agrees, WireOf;
    assert Accounted(w, Durable(sys), Put(q, body));
    var accepted := sys.run.past.fromAllocator;
    if q < |accepted| { assert Put(q, accepted[q]) in sys.sent; }
  }

  lemma FittingPutIsStored(h: M.Hashes, m: M.Mailbox, past: R.History, q: u8, body: Bytes, now: u64)
    requires R.Agrees(h, m, past) && q <= |past.fromAllocator|
             && (q < |past.fromAllocator| ==> past.fromAllocator[q] == body)
    requires FitsWire(Put(q, body)) && now < m.expiresAt && !m.status.Terminal?
    ensures var r := M.Transition(h, m, now, M.Put(M.Allocator, q, body));
            r.Ok? && |r.value.effects| > 0 && r.value.effects[0] == M.Stored(M.Allocator, q, q < |past.fromAllocator|)
  {
    NextSequence(h, m, past);
    if q < |past.fromAllocator| { R.RetryByOne(h, m, past, M.Allocator, q, body); }
    hide R.Agrees, M.Terminate;
  }

  /** A live mailbox stores every Put the allocator ever released, as new or as a repeat;
      it refuses one only once it has ended. */
  lemma NeverRefused(w: World, h: M.Hashes, sys: System, q: u8, body: Bytes, now: u64)
    requires Lawful(w) && Reachable(w, h, sys) && sys.run.mailbox.Some? && Put(q, body) in sys.sent
    ensures var m := sys.run.mailbox.value;
            var r := M.Transition(h, m, now, M.Put(M.Allocator, q, body));
            && (r.Err? <==> now < m.expiresAt && m.status.Terminal?)
            && (now < m.expiresAt && !m.status.Terminal? ==>
                  |r.value.effects| > 0 && r.value.effects[0]
                      == M.Stored(M.Allocator, q, q < |sys.run.past.fromAllocator|))
  {
    hide Reachable, Lawful, SavedOk, LiveOk, R.Agrees, M.PutStep;
    ReachableInv(w, h, sys);
    ReleasedPutFits(w, h, sys, q, body);
    assert Accounted(w, Durable(sys), Put(q, body));
    var m := sys.run.mailbox.value;
    if now < m.expiresAt && !m.status.Terminal? { FittingPutIsStored(h, m, sys.run.past, q, body, now); }
  }

  /** The mailbox's next sequence is the client's, or one less while it awaits an
      acknowledgement: for the durable state always, and for a live session too. */
  lemma NextSequenceAgrees(w: World, h: M.Hashes, sys: System)
    requires Lawful(w) && Reachable(w, h, sys)
    ensures var stored := |sys.run.past.fromAllocator|;
            && (sys.run.mailbox.Some? ==> sys.run.mailbox.value.allocator.nextSeq == stored)
            && (Durable(sys).nextLocal == stored || (Durable(sys).awaiting && Durable(sys).nextLocal == stored + 1))
            && (sys.live.Some? && !sys.live.value.state.Terminal? ==>
                  var wire := WireOf(sys.live.value.state);
                  && (wire.nextLocal == stored || (wire.awaiting && wire.nextLocal == stored + 1))
                  && (sys.live.value.gate.None? ==> wire == Durable(sys)))
  {
    hide Reachable, Lawful, SavedOk, WireOf, Sound, Covered, R.Agrees;
    ReachableInv(w, h, sys);
    if sys.run.mailbox.Some? { NextSequence(h, sys.run.mailbox.value, sys.run.past); }
    var stored := |sys.run.past.fromAllocator|;
    if stored > 0 {
      var body := sys.run.past.fromAllocator[stored - 1];
      assert Accounted(w, Durable(sys), Put(stored - 1, body));
    }
  }

  /** No peer frame leaves the mailbox on the allocator's word before the allocator's
      durable state has taken it in. */
  lemma AcknowledgedIsDurable(w: World, h: M.Hashes, sys: System, k: nat)
    requires Lawful(w) && Reachable(w, h, sys) && (M.Claimant, k) in sys.run.past.acked
    ensures sys.slot.Some? && k < WireOf(sys.slot.value.state).nextPeer
  {
    hide Reachable, Lawful, SavedOk, LiveOk, R.Agrees, WireOf;
    ReachableInv(w, h, sys);
    assert Ack(k) in sys.sent;
    assert Accounted(w, Durable(sys), Ack(k));
  }

  /** Each durable checkpoint is one generation after the last (until the counter
      saturates), and an established session's sequence runs two ahead of its counter. */
  lemma GenerationsAndCounters(w: World, h: M.Hashes, sys: System)
    requires Lawful(w) && Reachable(w, h, sys)
    ensures sys.outbox.Some? && sys.slot != sys.outbox ==>
              sys.outbox.value.checkpoint.generation == SaturatingSucc(Durable(sys).generation)
    ensures sys.slot.Some? ==> sys.slot.value.checkpoint.generation == Durable(sys).generation
    ensures sys.live.Some? && sys.live.value.state.Established? ==>
              var core := sys.live.value.state.core;
              core.channel.nextSend == Some(core.relay.nextLocal - 2)
  {
    hide Reachable, Lawful, R.Agrees, Held, SentOk, MailboxOk;
    ReachableInv(w, h, sys);
  }

  /** No AEAD nonce protects two released plaintexts: two released frames sealed under
      one key and IV whose nonces coincide are one frame, carrying one plaintext. */
  lemma OnePlaintextPerNonce(w: World, h: M.Hashes, sys: System, key: Bytes32, iv: Bytes12, transcript: Bytes64,
      a: ClientMessage, b: ClientMessage, counterA: u64, counterB: u64, plaintextA: Bytes, plaintextB: Bytes)
    requires Lawful(w) && Reachable(w, h, sys) && a in sys.sent && b in sys.sent
    requires Encloses(w, V2.Allocator, a, key, iv, transcript, counterA, plaintextA)
    requires Encloses(w, V2.Allocator, b, key, iv, transcript, counterB, plaintextB)
    requires DeriveNonce(iv, counterA) == DeriveNonce(iv, counterB)
    ensures a == b && counterA == counterB && plaintextA == plaintextB
  {
    hide Reachable, Lawful, DeriveNonce, SavedOk, LiveOk, MailboxOk;
    ReachableInv(w, h, sys);
    assert Accounted(w, Durable(sys), a) && Accounted(w, Durable(sys), b);
    OneBodyOnePlaintext(w, V2.Allocator, sys.sent, key, iv, transcript, a, b, counterA, counterB, plaintextA,
        plaintextB);
  }

  /** Some effect is a checkpoint. */
  ghost predicate Saves(effects: seq<Effect>) { exists i :: 0 <= i < |effects| && effects[i].Save? }

  lemma AloneOrNone(w: World, s: Session, reply: Reply, acknowledged: Option<u8>)
    requires s.gate.None? && Proceeds(w, s, reply, acknowledged)
    ensures reply.Ok? && Saves(reply.value.1) ==> |reply.value.1| == 1
  {
    hide Sound, WireOf, SealedFrom;
  }

  lemma LiveCallIsAlone(w: World, sys: System, m: ServerMessage, o: Object, now: u64, nonce: Bytes12)
    requires Lawful(w) && Recognised(w, o) && sys.live.Some? && LiveOk(w, sys, sys.live.value)
    ensures var s := sys.live.value;
            && (Receive(w, s, m, now, nonce).1.Ok? && Saves(Receive(w, s, m, now, nonce).1.value) ==>
                 |Receive(w, s, m, now, nonce).1.value| == 1)
            && (Prepare(w, s, o, now, nonce).1.Ok? && Saves(Prepare(w, s, o, now, nonce).1.value) ==>
                 |Prepare(w, s, o, now, nonce).1.value| == 1)
  {
    hide ApplyServer, PrepareObject, Sound, WireOf, Proceeds, SavedOk, Lawful;
    var s := sys.live.value;
    if s.state.Terminal? {
      TerminalIsInert(w, s, m, o, now, nonce);
    } else if s.gate.None? {
      ServerProceeds(w, s, m, now, nonce);
      PrepareProceeds(w, s, o, now, nonce);
      AloneOrNone(w, s, ApplyServer(w, s, m, now, nonce), AcknowledgedBy(m));
      AloneOrNone(w, s, PrepareObject(w, s, o, now, nonce), None);
    }
  }

  /** A checkpoint effect is always alone: nothing leaves in the same reply. */
  lemma CheckpointIsAlone(w: World, h: M.Hashes, sys: System, m: ServerMessage, o: Object, now: u64, nonce: Bytes12)
    requires Lawful(w) && Reachable(w, h, sys) && Recognised(w, o) && sys.live.Some?
    ensures var s := sys.live.value;
            && (Receive(w, s, m, now, nonce).1.Ok? && Saves(Receive(w, s, m, now, nonce).1.value) ==>
                 |Receive(w, s, m, now, nonce).1.value| == 1)
            && (Prepare(w, s, o, now, nonce).1.Ok? && Saves(Prepare(w, s, o, now, nonce).1.value) ==>
                 |Prepare(w, s, o, now, nonce).1.value| == 1)
  {
    hide Reachable, Lawful, SavedOk, SentOk, MailboxOk, LiveOk, Receive, Prepare, Saves;
    ReachableInv(w, h, sys);
    LiveCallIsAlone(w, sys, m, o, now, nonce);
  }

  /** In every reachable system, restoring the durable slot succeeds exactly under its own
      key, generation and carrier (and, for a bootstrap, mode and profile) before its
      expiry, unless the last object's bytes were omitted and its frame is no longer
      cached. */
  lemma SlotRestoresExactly(w: World, h: M.Hashes, sys: System, key: Bytes32, carrier: Carrier, generation: u64,
      profile: Bytes32, now: u64, mode: Mode, freshScalar: Bytes32, verifier: Bytes)
    requires Lawful(w) && Reachable(w, h, sys) && sys.slot.Some?
    ensures var c := sys.slot.value.checkpoint;
            match sys.slot.value.state
            case Boot(b) =>
              Restore(w, c, key, carrier, generation, profile, now, mode, freshScalar, verifier).Ok? <==>
                key == c.key && generation == c.generation && now < b.carrier.expiresAt
                && carrier == b.carrier && mode == b.mode && profile == b.profile
            case Established(core) =>
              Restore(w, c, key, carrier, generation, profile, now, mode, freshScalar, verifier).Ok? <==>
                key == c.key && generation == c.generation && now < core.endpoint.carrier.expiresAt
                && carrier == core.endpoint.carrier && BytesAccountedFor(core.endpoint.last, V2.Allocator, core.relay)
            case _ => false
  {
    hide Reachable, Lawful, SentOk, MailboxOk, LiveOk, Restore, SealedFrom;
    ReachableInv(w, h, sys);
    var saved := sys.slot.value;
    SealedStates(w, saved);
    hide SavedOk;
    if saved.state.Boot? {
      BootRestoresExactly(w, saved, key, carrier, generation, profile, now, mode, freshScalar, verifier);
    } else {
      EstablishedRestoresExactly(w, saved, key, carrier, generation, profile, now, mode, freshScalar, verifier);
    }
  }

  lemma ReachableStep(w: World, h: M.Hashes, sys: System, event: Event)
    requires Reachable(w, h, sys) && Possible(w, sys, event)
    ensures Reachable(w, h, Happens(w, h, sys, event))
  {
    hide Started, Happens, Possible;
    var start, events :| Started(h, start) && Feasible(w, h, start, events) && sys == Execute(w, h, start, events);
    var more := events + [event];
    assert more[..|events|] == events;
    assert Feasible(w, h, start, more) && Execute(w, h, start, more) == Happens(w, h, sys, event);
  }

  lemma ForgottenAcknowledged(w: World, s: Session, core: Restored, g: u64, n: Bytes12, q: u8, now: u64, nonce: Bytes12)
    requires s.state == Established(Image(core, g, n)) && s.gate.None? && core.relay.cached.Some?
             && core.relay.awaitingAck
    requires core.endpoint.side.Allocator? && core.endpoint.last.Some? && core.endpoint.last.value.sender.Allocator?
    requires core.relay.nextLocal == q + 1 && Receive(w, s, Acknowledged(q), now, nonce).1.Ok?
    ensures var (next, r) := Receive(w, s, Acknowledged(q), now, nonce);
            && |r.value| == 1 && r.value[0].Save? && next.state.Established?
            && !BytesAccountedFor(next.state.core.endpoint.last, V2.Allocator, next.state.core.relay)
  {
    hide SealEndpoint;
  }

  /** In any reachable system whose slot holds an own object with its frame still cached, the
      run goes on: crash, restore, the acknowledgement of that frame, and the write of the
      checkpoint it causes. Every one of these steps is possible, and no call whatever
      restores the slot they leave. */
  lemma ForgottenRun(w: World, h: M.Hashes, sys: System, restore: Event, q: u8, now: u64, nonce: Bytes12)
    requires Lawful(w) && Reachable(w, h, sys) && sys.slot.Some? && sys.slot.value.state.Established?
    requires var core := sys.slot.value.state.core;
             core.relay.cached.Some? && core.endpoint.last.Some? && core.endpoint.last.value.sender.Allocator?
             && core.relay.nextLocal == q + 1 && q in sys.acknowledged
    requires var restored := Happens(w, h, Happens(w, h, sys, Crashes), restore);
             restore.Restores? && restored.live.Some?
                 && Receive(w, restored.live.value, Acknowledged(q), now, nonce).1.Ok?
    ensures var crashed := Happens(w, h, sys, Crashes);
            var restored := Happens(w, h, crashed, restore);
            var acknowledged := Happens(w, h, restored, Receives(Acknowledged(q), now, nonce));
            var last := Happens(w, h, acknowledged, Persists);
            && Reachable(w, h, crashed) && Reachable(w, h, restored) && Reachable(w, h, acknowledged)
                 && Reachable(w, h, last)
            && last.slot.Some?
            && forall key, carrier, generation, profile, at, mode, freshScalar, verifier ::
                 Restore(w, last.slot.value.checkpoint, key, carrier, generation, profile, at, mode, freshScalar,
                     verifier).Err?
  {
    hide Reachable, Lawful, SentOk, MailboxOk, Restore, Receive, SealedFrom;
    ReachableInv(w, h, sys);
    var crashed := Happens(w, h, sys, Crashes);
    ReachableStep(w, h, sys, Crashes);
    var restored := Happens(w, h, crashed, restore);
    ReachableStep(w, h, crashed, restore);
    var acknowledged := Happens(w, h, restored, Receives(Acknowledged(q), now, nonce));
    ReachableStep(w, h, restored, Receives(Acknowledged(q), now, nonce));
    var last := Happens(w, h, acknowledged, Persists);
    var saved := sys.slot.value;
    EstablishedSlotRestores(w, saved, restore.key, restore.carrier, restore.generation, restore.profile, restore.now,
                            restore.mode, restore.freshScalar, restore.verifier);
    SlotRestores(w, saved, restore.key, restore.carrier, restore.generation, restore.profile, restore.now,
                 restore.mode, restore.freshScalar, restore.verifier);
    ForgottenAcknowledged(w, restored.live.value, saved.state.core, saved.checkpoint.generation,
        saved.checkpoint.nonce, q, now, nonce);
    hide Sound, SavedOk, LiveOk;
    ReachableStep(w, h, acknowledged, Persists);
    forall key, carrier, generation, profile, at, mode, freshScalar, verifier
      ensures Restore(w, last.slot.value.checkpoint, key, carrier, generation, profile, at, mode, freshScalar,
              verifier).Err?
    {
      SlotRestoresExactly(w, h, last, key, carrier, generation, profile, at, mode, freshScalar, verifier);
    }
  }

  lemma SealedStates(w: World, saved: Saved)
    requires SavedOk(w, saved)
    ensures saved.state.Boot? || saved.state.Established?
  {
  }
}
