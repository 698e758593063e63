/** The claimant with its durable slot, from the established channel on and through crashes
    and restores: its FinalApprove and Payload frames leave only once a durable checkpoint
    contains them. */
module ClaimantSystem {
  import opened Base
  import opened V2
  import opened Projections
  import opened Channels
  import opened Endpoints
  import opened EndpointCodec
  import opened Checkpoints
  import opened Wires
  import opened Claimants
  import A = AllocatorSteps
  import AllocatorSystem
  import EndpointRuns

  type Saved = Wires.Saved<Restored>

  /** Every Put that ever left: `early` holds those released at once, without a checkpoint
      (the bootstrap's two and `prepare_application_object`'s), `sent` those released by
      the durable half. */
  datatype System = System(
    live: Option<Claim>, outbox: Option<Saved>, slot: Option<Saved>, early: set<ClientMessage>,
    sent: set<ClientMessage>)

  datatype Event =
    | Receives(m: ServerMessage, now: u64, verdict: OfferVerdict)
    | Early(o: Object)
    | FinalApproval(o: Object, key: Bytes32, nonce: Bytes12, now: u64)
    | PayloadReady(o: Object, key: Bytes32, nonce: Bytes12, now: u64)
    | Persists
    | Releases
    | Resumes
    | Durable(m: ServerMessage, now: u64, key: Bytes32, nonce: Bytes12)
    | ReceiptArrives(m: ServerMessage)
    | Authenticates(o: Object)
    | Commits(receipt: Recovered)
    | Crashes
    | Restores(key: Bytes32, carrier: Carrier, generation: u64, now: u64)

  ghost predicate Possible(w: World, sys: System, event: Event) {
    match event
    case Persists => sys.outbox.Some?
    case Releases => sys.live.Some? && sys.outbox.Some? && sys.slot == sys.outbox
    case Crashes => true
    case Restores(_, _, _, _) => sys.live.None? && sys.slot.Some?
    case Early(o) => sys.live.Some? && Recognised(w, o)
    case FinalApproval(o, _, _, _) => sys.live.Some? && Recognised(w, o)
    case PayloadReady(o, _, _, _) => sys.live.Some? && Recognised(w, o)
    case Authenticates(o) => sys.live.Some? && Recognised(w, o)
    case _ => sys.live.Some?
  }

  function Puts(effects: seq<Effect>): set<ClientMessage> {
    set i | 0 <= i < |effects| && effects[i].Send? && effects[i].message.Put? :: effects[i].message
  }

  function Emit(sys: System, reply: Reply): System {
    var next := sys.(live := reply.0, outbox := if reply.0.None? then None else sys.outbox);
    if reply.1.Err? || reply.0.None? then next
    else
      var effects := reply.1.value;
      next.(sent := sys.sent + Puts(effects),
            outbox := if |effects| > 0 && effects[0].Save?
                then Some(Saved(effects[0].checkpoint, reply.0.value.core)) else next.outbox)
  }

  function Happens(w: World, sys: System, event: Event): System {
    match event
    case Persists => sys.(slot := sys.outbox)
    case Crashes => sys.(live := None, outbox := None)
    case Restores(key, carrier, generation, now) =>
      if sys.slot.None? then sys
      else (match Restore(w, sys.slot.value.checkpoint, key, carrier, generation, now)
            case Err(_) => sys
            case Ok(claim) => sys.(live := Some(claim)))
    case _ => if sys.live.None? then sys else Called(w, sys, sys.live.value, event)
  }

  function Called(w: World, sys: System, c: Claim, event: Event): System {
    match event
    case Receives(m, now, verdict) => Emit(sys, Receive(w, c, m, now, verdict))
    case Early(o) =>
      var (next, r) := PrepareEarly(w, c, o);
      sys.(live := next, early := sys.early + if r.Ok? then Puts(r.value) else {})
    case FinalApproval(o, key, nonce, now) => Emit(sys, PrepareFinalApproval(w, c, o, key, nonce, now))
    case PayloadReady(o, key, nonce, now) => Emit(sys, PreparePayload(w, c, o, key, nonce, now))
    case Releases =>
      if sys.outbox.None? then sys
      else
        var (next, r) := CheckpointPersisted(c, sys.outbox.value.checkpoint.generation);
        if r.Err? then sys else sys.(live := next, outbox := None, sent := sys.sent + Puts(r.value))
    case Resumes => Emit(sys, (Some(c), Resume(w, c)))
    case Durable(m, now, key, nonce) => Emit(sys, ReceiveDurable(w, c, m, now, key, nonce))
    case ReceiptArrives(m) => Gives(sys, ReceiveReceipt(w, c, m).0)
    case Authenticates(o) => Gives(sys, AuthenticateObject(w, c, o).0)
    case Commits(receipt) => Emit(sys, CommitReceipt(w, c, receipt))
    case _ => sys
  }

  /** The session after a call that releases nothing. */
  function Gives(sys: System, live: Option<Claim>): System {
    sys.(live := live, outbox := if live.None? then None else sys.outbox)
  }

  function Execute(w: World, start: System, events: seq<Event>): System {
    if events == [] then start else Happens(w, Execute(w, start, events[..|events| - 1]), events[|events| - 1])
  }

  ghost predicate Feasible(w: World, start: System, events: seq<Event>) {
    events == []
    || (var n := |events| - 1;
        Feasible(w, start, events[..n]) && Possible(w, Execute(w, start, events[..n]), events[n]))
  }

  // ---------------------------------------------------------------- invariant

  /** The sending half of what a core shows the relay. */
  function SendWire(core: Restored): Wire {
    Wire(core.relay.nextLocal, 0, core.relay.awaitingAck, core.relay.cached, core.endpoint.generation)
  }

  /** Sequence and counter run in step, and no phase sends more than one object, so
      neither ever comes near its limit. */
  ghost predicate Wired(core: Restored) {
    && core.endpoint.side.Claimant? && core.channel.side == core.endpoint.side && RelayShape(core.relay)
    && 2 <= core.relay.nextLocal <= 2 + EndpointRuns.Rank(core.endpoint.phase)
    && core.channel.nextSend == Some(core.relay.nextLocal - 2)
    && (core.relay.cached.Some? ==> FrameFor(V2.Claimant, core.relay.cached.value, core.relay.nextLocal - 1))
  }

  ghost predicate Fit(w: World, core: Restored) { Held(w, core) && Wired(core) }

  ghost predicate SavedOk(w: World, saved: Saved) {
    var c, core := saved.checkpoint, saved.state;
    && Fit(w, core) && (core.endpoint.phase.FinalApproved? || core.endpoint.phase.PayloadSent?)
    && core.endpoint.generation == c.generation && core.endpoint.nonce == Some(c.nonce)
    && c.side.Claimant? && c.generation > 0 && c.ceremony == core.endpoint.carrier.ceremony
    && c.expiry == (if core.endpoint.phase.FinalApproved? then Some(core.endpoint.carrier.expiresAt) else None)
    && |c.plaintext| <= EndpointCodec.MAX_PLAINTEXT && EncodeEndpoint(w, core, c.generation, c.nonce) == Ok(c.plaintext)
  }

  /** The same frames, or one fewer outstanding. */
  ghost predicate Near(from: Wire, to: Wire) {
    && to.nextLocal == from.nextLocal && to.generation == from.generation && to.nextPeer == from.nextPeer
    && (to.awaiting ==> from.awaiting && to.outstanding == from.outstanding)
  }

  ghost predicate AllCovered(w: World, wire: Wire, effects: seq<Effect>) {
    forall i :: 0 <= i < |effects| ==>
        effects[i].Send? && (effects[i].message.Put? ==> Covers(w, wire, effects[i].message))
  }

  ghost predicate Accounted(w: World, wire: Wire, m: ClientMessage) {
    && m.Put? && FitsWire(m) && Framed(w, V2.Claimant, m)
    && m.seqNo < wire.nextLocal
    && (m.seqNo + 1 == wire.nextLocal && wire.awaiting ==> Repeats(w, wire, m.body))
  }

  ghost predicate SentOk(w: World, sys: System) {
    && (sys.sent != {} ==> sys.slot.Some?)
    && OneBodyPerSequence(sys.sent)
    && (sys.slot.Some? ==> forall m | m in sys.sent :: Accounted(w, SendWire(sys.slot.value.state), m))
  }

  ghost predicate LiveOk(w: World, sys: System, c: Claim) {
    && Wired(c.core)
    && (!c.core.endpoint.phase.Ended? ==> Held(w, c.core))
    && if !DurablePhase(c) then
         c.gate.None? && c.after == [] && sys.outbox.None? && (sys.slot.Some? ==> c.core.endpoint.phase.Ended?)
       else if c.gate.None? then
         c.after == [] && sys.outbox.None? && sys.slot.Some? && Near(SendWire(sys.slot.value.state), SendWire(c.core))
       else
         && sys.outbox.Some? && sys.outbox.value.state == c.core && SavedOk(w, sys.outbox.value)
         && c.gate == Some(sys.outbox.value.checkpoint.generation)
         && AllCovered(w, SendWire(c.core), c.after)
         && (sys.slot == sys.outbox || sys.slot.None? || Moves(SendWire(sys.slot.value.state), SendWire(c.core)))
  }

  ghost predicate Inv(w: World, sys: System) {
    && (sys.slot.Some? ==> SavedOk(w, sys.slot.value))
    && SentOk(w, sys)
    && (if sys.live.None? then sys.outbox.None? else LiveOk(w, sys, sys.live.value))
  }

  // ---------------------------------------------------------------- the barrier

  lemma OutboundMoves(w: World, core: Restored, o: Object)
    requires Lawful(w) && Recognised(w, o) && Fit(w, core)
    ensures var out := PrepareOutbound(w, core.endpoint, core.channel, core.relay, o);
            var next := Restored(out.endpoint, out.channel, out.relay);
            && next.endpoint.side.Claimant? && next.endpoint.carrier == core.endpoint.carrier
            && (out.result.Ok? ==>
                  && out.relay.cached == Some(out.result.value)
                  && (!out.endpoint.phase.Ended? ==> Fit(w, next))
                  && Moves(SendWire(core), SendWire(next).(generation := SaturatingSucc(next.endpoint.generation))))
  {
    A.AppliedIsHeld(w, core.endpoint, o, core.endpoint.side);
    hide Apply, Lawful, ConsistentProjection;
  }

  lemma SealedClaimant(w: World, core: Restored, key: Bytes32, expiry: Option<u64>, nonce: Bytes12, now: u64)
    requires Fit(w, core)
    requires SealEndpoint(w, core, key, SaturatingSucc(core.endpoint.generation), expiry, nonce, now).Ok?
    ensures var g := SaturatingSucc(core.endpoint.generation);
            var stamped := core.(endpoint := core.endpoint.(generation := g, nonce := Some(nonce)));
            && SavedOk(w, Saved(SealEndpoint(w, core, key, g, expiry, nonce, now).value, stamped))
            && SendWire(stamped) == SendWire(core).(generation := g)
  {
    hide EncodeEndpoint, ConsistentProjection, Retainable;
    A.EndpointStamp(w, core, SaturatingSucc(core.endpoint.generation), nonce);
  }

  /** A checkpoint that succeeds comes out alone and holds everything else back. */
  ghost predicate HeldBack(w: World, c: Claim, next: Claim, effects: seq<Effect>) {
    && |effects| == 1 && effects[0].Save? && next.gate == Some(effects[0].generation)
    && effects[0].generation == effects[0].checkpoint.generation
    && SavedOk(w, Saved(effects[0].checkpoint, next.core))
    && AllCovered(w, SendWire(next.core), next.after)
    && Moves(SendWire(c.core), SendWire(next.core))
  }

  lemma CheckpointedHolds(w: World, from: Claim, c: Claim, key: Bytes32, nonce: Bytes12, now: u64,
      expiry: Option<u64>, after: seq<Effect>)
    requires Fit(w, c.core) && Checkpointed(w, c, key, nonce, now, expiry, after).Ok?
    requires AllCovered(w, SendWire(c.core), after)
    requires Moves(SendWire(from.core), SendWire(c.core).(generation := SaturatingSucc(c.core.endpoint.generation)))
    ensures var (next, effects) := Checkpointed(w, c, key, nonce, now, expiry, after).value;
            HeldBack(w, from, next, effects) && next.receiptPending == c.receiptPending && DurablePhase(next)
  {
    hide SealEndpoint, SavedOk, Moves, Held, Wired;
    var (next, effects) := Checkpointed(w, c, key, nonce, now, expiry, after).value;
    SealedClaimant(w, c.core, key, expiry, nonce, now);
    SealGeneration(w, c.core, key, SaturatingSucc(c.core.endpoint.generation), expiry, nonce, now);
    forall i | 0 <= i < |after|
        ensures after[i].Send? && (after[i].message.Put? ==> Covers(w, SendWire(next.core), after[i].message)) {
      assert after[i].Send? && (after[i].message.Put? ==> Covers(w, SendWire(c.core), after[i].message));
    }
    SavedIsDurable(w, Saved(effects[0].checkpoint, next.core));
  }

  lemma SavedIsDurable(w: World, saved: Saved)
    requires SavedOk(w, saved)
    ensures saved.state.endpoint.phase.FinalApproved? || saved.state.endpoint.phase.PayloadSent?
  {
  }

  lemma SealGeneration(w: World, core: Restored, key: Bytes32, g: u64, expiry: Option<u64>, nonce: Bytes12, now: u64)
    requires SealEndpoint(w, core, key, g, expiry, nonce, now).Ok?
    ensures SealEndpoint(w, core, key, g, expiry, nonce, now).value.generation == g
    ensures !(core.endpoint.phase.Ended? && core.endpoint.side.Claimant?)
  {
    hide EncodeEndpoint;
  }

  lemma BarrierHolds(w: World, c: Claim, o: Object, key: Bytes32, nonce: Bytes12, now: u64, expiry: Option<u64>)
    requires Lawful(w) && Recognised(w, o) && Fit(w, c.core)
    requires Barrier(w, c, o, key, nonce, now, expiry).1.Ok?
    ensures var (next, effects) := Barrier(w, c, o, key, nonce, now, expiry);
            next.Some? && HeldBack(w, c, next.value, effects.value) && DurablePhase(next.value)
  {
    hide PrepareOutbound, SealEndpoint, Lawful, Moves;
    OutboundMoves(w, c.core, o);
    var out := PrepareOutbound(w, c.core.endpoint, c.core.channel, c.core.relay, o);
    var core := Restored(out.endpoint, out.channel, out.relay);
    var put := Outgoing(w, c, o).1.value;
    SealGeneration(w, core, key, SaturatingSucc(core.endpoint.generation), expiry, nonce, now);
    assert AllCovered(w, SendWire(core), [put]);
    hide AllCovered, Outgoing, Checkpointed, Held, Wired;
    assert Outgoing(w, c, o).0 == core && Outgoing(w, c, o).1 == Ok(put) by { OutgoingIs(w, c, o); }
    CheckpointedHolds(w, c, c.(core := core), key, nonce, now, expiry, [put]);
  }

  lemma OutgoingIs(w: World, c: Claim, o: Object)
    ensures var out := PrepareOutbound(w, c.core.endpoint, c.core.channel, c.core.relay, o);
            Outgoing(w, c, o).0 == Restored(out.endpoint, out.channel, out.relay)
  {
  }

  /** An ended claimant never passes the barrier. */
  lemma EndedIsBarred(w: World, c: Claim, o: Object, key: Bytes32, nonce: Bytes12, now: u64, expiry: Option<u64>)
    requires c.core.endpoint.phase.Ended? && c.core.endpoint.side.Claimant?
    ensures Barrier(w, c, o, key, nonce, now, expiry).0.None?
  {
    hide EncodeEndpoint;
    OutgoingIs(w, c, o);
    hide Outgoing;
    EndedStaysEnded(w, c.core, o);
  }

  lemma EndedStaysEnded(w: World, core: Restored, o: Object)
    requires core.endpoint.phase.Ended?
    ensures var out := PrepareOutbound(w, core.endpoint, core.channel, core.relay, o);
            out.endpoint.phase.Ended? && out.endpoint.side == core.endpoint.side
  {
  }

  // ---------------------------------------------------------------- sending

  lemma CoveredIsFramed(w: World, core: Restored, m: ClientMessage)
    requires Lawful(w) && Wired(core) && Covers(w, SendWire(core), m)
    ensures Framed(w, V2.Claimant, m)
  {
    hide EndpointRuns.Rank;
  }

  lemma SendCovered(w: World, sys: System, effects: seq<Effect>)
    requires Lawful(w) && sys.slot.Some? && SavedOk(w, sys.slot.value)
    requires SentOk(w, sys) && AllCovered(w, SendWire(sys.slot.value.state), effects)
    ensures SentOk(w, sys.(sent := sys.sent + Puts(effects)))
  {
    hide SendWire, SavedOk, Lawful, Framed;
    var wire, sent := SendWire(sys.slot.value.state), sys.sent + Puts(effects);
    SavedFits(w, sys.slot.value);
    hide Held, Wired;
    forall m | m in sent ensures Accounted(w, wire, m) && (m !in sys.sent ==> m.Put? && Covers(w, wire, m)) {
      if m !in sys.sent {
        assert Covers(w, wire, m);
        CoveredIsFramed(w, sys.slot.value.state, m);
      }
    }
    forall a, b | a in sent && b in sent && a.Put? && b.Put? && a.seqNo == b.seqNo ensures a == b {}
  }

  lemma AccountedMoves(w: World, sys: System, saved: Saved)
    requires SentOk(w, sys) && (sys.slot.Some? ==> Moves(SendWire(sys.slot.value.state), SendWire(saved.state)))
    ensures SentOk(w, sys.(slot := Some(saved)))
  {
    hide SendWire;
    if sys.slot.Some? {
      forall m | m in sys.sent ensures Accounted(w, SendWire(saved.state), m) {
        assert Accounted(w, SendWire(sys.slot.value.state), m);
      }
    }
  }

  lemma NearCovers(w: World, from: Wire, to: Wire, effects: seq<Effect>)
    requires Near(from, to) && AllCovered(w, to, effects)
    ensures AllCovered(w, from, effects)
  {
    forall i | 0 <= i < |effects|
        ensures effects[i].Send? && (effects[i].message.Put? ==> Covers(w, from, effects[i].message)) {
      assert effects[i].Send? && (effects[i].message.Put? ==> Covers(w, to, effects[i].message));
    }
  }

  lemma NearMoves(a: Wire, b: Wire, c: Wire)
    requires Near(a, b) && Moves(b, c)
    ensures Moves(a, c)
  {
  }

  // ---------------------------------------------------------------- every step

  /** A checkpoint from a session that may take one. */
  lemma HeldBackKeepsInv(w: World, sys: System, c: Claim, next: Claim, effects: seq<Effect>)
    requires Inv(w, sys) && sys.live == Some(c) && c.gate.None? && !c.core.endpoint.phase.Ended?
    requires HeldBack(w, c, next, effects) && DurablePhase(next)
    ensures Inv(w, Emit(sys, (Some(next), Ok(effects))))
  {
    hide SavedOk, SendWire, Moves, AllCovered, Near;
    assert Puts(effects) == {};
    var after := Emit(sys, (Some(next), Ok(effects)));
    assert after.sent == sys.sent && after.slot == sys.slot;
    SavedFits(w, Saved(effects[0].checkpoint, next.core));
    hide SentOk;
    SameSent(w, sys, after);
    if sys.slot.Some? { NearMoves(SendWire(sys.slot.value.state), SendWire(c.core), SendWire(next.core)); }
  }

  lemma SavedFits(w: World, saved: Saved)
    requires SavedOk(w, saved)
    ensures Fit(w, saved.state)
  {
  }

  lemma SameSent(w: World, sys: System, next: System)
    requires SentOk(w, sys) && next.sent == sys.sent && next.slot == sys.slot
    ensures SentOk(w, next)
  {
  }

  /** A reply that leaves the session where it was, or gone. */
  lemma IdleKeepsInv(w: World, sys: System, c: Claim, reply: Reply)
    requires Inv(w, sys) && sys.live == Some(c) && (reply.0 == Some(c) || reply.0.None?)
    requires reply.0.Some? && reply.1.Ok? ==> reply.1.value == []
    ensures Inv(w, Emit(sys, reply))
  {
    hide SavedOk, SendWire, Moves, AllCovered, Near;
    assert Puts([]) == {};
    var next := Emit(sys, reply);
    assert next.sent == sys.sent;
    hide SentOk;
    SameSent(w, sys, next);
  }

  lemma BarrierKeepsInv(w: World, sys: System, c: Claim, o: Object, key: Bytes32, nonce: Bytes12, now: u64,
      expiry: Option<u64>)
    requires Lawful(w) && Inv(w, sys) && sys.live == Some(c) && c.gate.None? && Recognised(w, o)
    ensures Inv(w, Emit(sys, Barrier(w, c, o, key, nonce, now, expiry)))
  {
    hide SavedOk, SendWire, Moves, AllCovered, Near, SentOk, Outgoing, Checkpointed, Lawful, HeldBack, Emit;
    var reply := Barrier(w, c, o, key, nonce, now, expiry);
    if c.core.endpoint.phase.Ended? {
      EndedIsBarred(w, c, o, key, nonce, now, expiry);
      IdleKeepsInv(w, sys, c, reply);
    } else if reply.1.Err? {
      IdleKeepsInv(w, sys, c, reply);
    } else {
      BarrierHolds(w, c, o, key, nonce, now, expiry);
      hide Barrier;
      HeldBackKeepsInv(w, sys, c, reply.0.value, reply.1.value);
    }
  }

  /** Changing nothing but what is received keeps the sending half as it was. */
  lemma ReceivedKeepsInv(w: World, sys: System, c: Claim, next: Claim)
    requires Inv(w, sys) && sys.live == Some(c) && c.gate.None? && DurablePhase(c)
    requires next.gate.None? && next.after == c.after && next.core.endpoint.phase == c.core.endpoint.phase
    requires Fit(w, next.core) && Near(SendWire(c.core), SendWire(next.core))
    ensures Inv(w, sys.(live := Some(next)))
  {
    hide SavedOk, SendWire, SentOk, Held, Wired;
    SameSent(w, sys, sys.(live := Some(next)));
  }

  // ---------------------------------------------------------------- relay traffic before final approval

  /** What hearing one peer object leaves of the endpoint. */
  lemma HeardHolds(w: World, e: Endpoint, o: Object, verdict: OfferVerdict)
    requires Lawful(w) && Recognised(w, o) && e.side.Claimant? && !e.phase.FinalApproved? && !e.phase.PayloadSent?
    requires !e.phase.Ended? ==> Retainable(w, e.last) && ConsistentProjection(w, e.phase, e.intent, e.last)
    requires Heard(w, e, o, verdict).1.Ok?
    ensures var next := Heard(w, e, o, verdict).0;
            && next.side == e.side && !next.phase.FinalApproved? && !next.phase.PayloadSent?
            && EndpointRuns.Rank(e.phase) <= EndpointRuns.Rank(next.phase)
            && (e.phase.Ended? ==> next == e)
            && next.generation == e.generation
            && (!next.phase.Ended? ==>
                 Retainable(w, next.last) && ConsistentProjection(w, next.phase, next.intent, next.last))
  {
    A.RecognisedIsRetainable(w, o, V2.Allocator);
    if !PreOffer(e.phase) {
      EndpointRuns.ApplyRaisesRank(w, e, o, V2.Allocator);
      PeerNeverApproves(w, e, o);
      if !e.phase.Ended? { A.AppliedIsHeld(w, e, o, V2.Allocator); }
      hide Apply, ConsistentProjection, Retainable, Lawful, Recognised;
    }
  }

  /** The allocator's objects lead neither to final approval nor to a payload. */
  lemma PeerNeverApproves(w: World, e: Endpoint, o: Object)
    requires !e.phase.FinalApproved? && !e.phase.PayloadSent? && Apply(w, e, o, V2.Allocator).1.Ok?
    ensures var next := Apply(w, e, o, V2.Allocator).0;
            && !next.phase.FinalApproved? && !next.phase.PayloadSent? && (e.phase.Ended? ==> next == e)
  {
    hide Retransmits;
  }

  lemma DecodedIsRecognised(w: World, s: Bytes)
    requires Lawful(w) && w.decodeObject(s).Ok?
    ensures Recognised(w, w.decodeObject(s).value)
  {
  }

  /** Opening one peer frame touches only the receiving half. */
  lemma PeerApplicationHolds(w: World, core: Restored, peerSeq: u8, body: Bytes, verdict: OfferVerdict)
    requires Lawful(w) && Wired(core) && (!core.endpoint.phase.Ended? ==> Held(w, core))
    requires !core.endpoint.phase.FinalApproved? && !core.endpoint.phase.PayloadSent?
    requires PeerApplication(w, core, peerSeq, body, verdict).Ok?
    ensures var (next, effects) := PeerApplication(w, core, peerSeq, body, verdict).value;
            && Wired(next) && (!next.endpoint.phase.Ended? ==> Held(w, next))
            && !next.endpoint.phase.FinalApproved? && !next.endpoint.phase.PayloadSent?
            && (core.endpoint.phase.Ended? ==> next.endpoint == core.endpoint)
            && SendWire(next) == SendWire(core)
            && Puts(effects) == {} && effects[0].Send?
            && next.channel.keys == core.channel.keys && next.channel.transcript == core.channel.transcript
  {
    hide Heard, Retainable, ConsistentProjection;
    var frame := w.decodeFrame(body).value;
    var o := w.decodeObject(core.channel.Open(w, frame).1.value).value;
    DecodedIsRecognised(w, core.channel.Open(w, frame).1.value);
    HeardHolds(w, core.endpoint, o, verdict);
    hide Lawful, EndpointRuns.Rank;
  }

  /** Any change to a session that nothing durable speaks for. */
  lemma EarlyLiveKeepsInv(w: World, sys: System, c: Claim, core: Restored)
    requires Inv(w, sys) && sys.live == Some(c) && !DurablePhase(c)
    requires Wired(core) && (!core.endpoint.phase.Ended? ==> Held(w, core))
    requires !core.endpoint.phase.FinalApproved? && !core.endpoint.phase.PayloadSent?
    requires c.core.endpoint.phase.Ended? ==> core.endpoint.phase.Ended?
    ensures Inv(w, sys.(live := Some(c.(core := core))))
  {
    hide SavedOk, SendWire, SentOk, Held, Wired;
    SameSent(w, sys, sys.(live := Some(c.(core := core))));
  }

  lemma LocalAcknowledgedHolds(w: World, core: Restored, sequence: u8)
    requires Wired(core) && LocalAcknowledged(core, sequence).Ok?
    ensures var next := LocalAcknowledged(core, sequence).value;
            && Wired(next) && next.endpoint == core.endpoint && next.channel == core.channel
            && (Held(w, core) ==> Held(w, next)) && Near(SendWire(core), SendWire(next))
  {
    hide ConsistentProjection, Retainable;
  }

  lemma ReceivesKeepsInv(w: World, sys: System, c: Claim, m: ServerMessage, now: u64, verdict: OfferVerdict)
    requires Lawful(w) && Inv(w, sys) && sys.live == Some(c)
    ensures Inv(w, Emit(sys, Receive(w, c, m, now, verdict)))
  {
    hide SavedOk, AllCovered, SentOk, SendWire, Moves, Near, PeerApplication, LocalAcknowledged, Wired, Held, Lawful;
    var reply := Receive(w, c, m, now, verdict);
    if reply.0.None? || (reply.0 == Some(c) && (reply.1.Err? || reply.1.value == [])) {
      hide Emit, Receive, LiveOk;
      IdleKeepsInv(w, sys, c, reply);
    } else if m.PeerFrame? {
      PeerApplicationHolds(w, c.core, m.peerSeq, m.body, verdict);
      EarlyLiveKeepsInv(w, sys, c, reply.0.value.core);
      assert Emit(sys, reply).sent == sys.sent;
    } else {
      LocalAcknowledgedHolds(w, c.core, m.seqNo);
      EarlyLiveKeepsInv(w, sys, c, reply.0.value.core);
      assert Puts([]) == {};
      assert Emit(sys, reply).sent == sys.sent;
    }
  }

  lemma DurableKeepsInv(w: World, sys: System, c: Claim, m: ServerMessage, now: u64, key: Bytes32, nonce: Bytes12)
    requires Lawful(w) && Inv(w, sys) && sys.live == Some(c)
    ensures Inv(w, Emit(sys, ReceiveDurable(w, c, m, now, key, nonce)))
  {
    hide SavedOk, AllCovered, SentOk, Checkpointed, Lawful, HeldBack, Emit, SealEndpoint, Moves, Near;
    var reply := ReceiveDurable(w, c, m, now, key, nonce);
    if reply.0 == Some(c) && (reply.1.Err? || reply.1.value == []) {
      IdleKeepsInv(w, sys, c, reply);
    } else {
      var settled := c.(core := c.core.(relay := c.core.relay.AcknowledgeApplication(m.seqNo).value));
      var expiry := if c.core.endpoint.phase.FinalApproved? then Some(c.core.endpoint.carrier.expiresAt) else None;
      SettledIsNear(w, c.core, m.seqNo);
      hide SendWire, Held, Wired;
      if Checkpointed(w, settled, key, nonce, now, expiry, []).Err? {
        ReceivedKeepsInv(w, sys, c, settled);
        EmitNothing(sys, settled, reply.1);
      } else {
        NothingCovered(w, SendWire(settled.core));
        CheckpointedHolds(w, c, settled, key, nonce, now, expiry, []);
        HeldBackKeepsInv(w, sys, c, reply.0.value, reply.1.value);
      }
    }
  }

  lemma NothingCovered(w: World, wire: Wire)
    ensures AllCovered(w, wire, [])
  {
  }

  lemma EmitNothing(sys: System, next: Claim, r: Outcome<seq<Effect>>)
    requires r.Err?
    ensures Emit(sys, (Some(next), r)) == sys.(live := Some(next))
  {
  }

  lemma SettledIsNear(w: World, core: Restored, sequence: u8)
    requires Fit(w, core) && core.relay.AcknowledgeApplication(sequence).Ok?
    ensures var settled := core.(relay := core.relay.AcknowledgeApplication(sequence).value);
            && Fit(w, settled) && Near(SendWire(core), SendWire(settled))
            && Moves(SendWire(core), SendWire(settled).(generation := SaturatingSucc(settled.endpoint.generation)))
  {
    hide ConsistentProjection, Retainable;
  }

  /** Authenticating a Receipt changes nothing the checkpoint rules look at. */
  lemma AuthenticatedFits(w: World, core: Restored, o: Object)
    requires Fit(w, core)
    ensures var e := AuthenticateReceipt(w, core.endpoint, o).0;
            && e == core.endpoint.(verifier := e.verifier)
            && Fit(w, core.(endpoint := e)) && SendWire(core.(endpoint := e)) == SendWire(core)
  {
    hide Retainable;
  }

  lemma OpenedFits(w: World, c: Claim, peerSeq: u8, body: Bytes)
    requires Fit(w, c.core) && OpenReceipt(w, c, peerSeq, body).Ok?
    ensures var core := OpenReceipt(w, c, peerSeq, body).value.0;
            Fit(w, core) && SendWire(core) == SendWire(c.core) && core.endpoint.phase == c.core.endpoint.phase
  {
    hide AuthenticateReceipt, Retainable, ConsistentProjection;
    var frame := w.decodeFrame(body).value;
    var o := w.decodeObject(c.core.channel.Open(w, frame).1.value).value;
    AuthenticatedFits(w, c.core, o);
  }

  lemma NearItself(wire: Wire)
    ensures Near(wire, wire)
  {
  }

  lemma ReceiptKeepsInv(w: World, sys: System, c: Claim, m: ServerMessage)
    requires Inv(w, sys) && sys.live == Some(c)
    ensures Inv(w, Gives(sys, ReceiveReceipt(w, c, m).0))
  {
    hide SavedOk, AllCovered, SentOk, OpenReceipt, SendWire, Moves, Near, Held, Wired;
    var next := ReceiveReceipt(w, c, m).0;
    if next.None? || next == Some(c) {
      IdleKeepsInv(w, sys, c, (next, Err(PhaseFault)));
    } else {
      OpenedFits(w, c, m.peerSeq, m.body);
      NearItself(SendWire(c.core));
      ReceivedKeepsInv(w, sys, c, next.value);
    }
  }

  lemma AuthenticateKeepsInv(w: World, sys: System, c: Claim, o: Object)
    requires Inv(w, sys) && sys.live == Some(c)
    ensures Inv(w, Gives(sys, AuthenticateObject(w, c, o).0))
  {
    hide SavedOk, AllCovered, SentOk, AuthenticateReceipt, SendWire, Moves, Near, Held, Wired;
    var next := AuthenticateObject(w, c, o).0.value;
    if next == c {
      IdleKeepsInv(w, sys, c, (Some(c), Err(PhaseFault)));
    } else {
      AuthenticatedFits(w, c.core, o);
      NearItself(SendWire(c.core));
      ReceivedKeepsInv(w, sys, c, next);
    }
  }

  lemma CommitKeepsInv(w: World, sys: System, c: Claim, r: Recovered)
    requires Inv(w, sys) && sys.live == Some(c)
    ensures Inv(w, Emit(sys, CommitReceipt(w, c, r)))
  {
    hide SavedOk, AllCovered, SentOk, SendWire, Moves, Near, Emit, Held, Wired;
    RecoveryRefusals(w, c.core.endpoint, r.o, r.authority);
    hide RecoverReceipt;
    IdleKeepsInv(w, sys, c, CommitReceipt(w, c, r));
  }

  lemma RecoveryRefusals(w: World, e: Endpoint, o: Object, authority: ReceiptAuthority)
    ensures RecoverReceipt(w, e, o, authority).1.Err? ==> RecoverReceipt(w, e, o, authority).0 == e
  {
  }

  // ---------------------------------------------------------------- objects released at once

  /** Preparing an object keeps sequence and counter in step whatever comes of it; when it
      succeeds the frame is the cached one, under the wire it moves to. */
  lemma OutboundStaysWired(w: World, core: Restored, o: Object)
    requires Wired(core)
    ensures var out := PrepareOutbound(w, core.endpoint, core.channel, core.relay, o);
            var next := Restored(out.endpoint, out.channel, out.relay);
            && Wired(next)
            && next.channel.keys == core.channel.keys && next.channel.transcript == core.channel.transcript
            && (out.result.Err? ==> next.relay == core.relay && next.channel == core.channel)
            && (out.result.Ok? ==>
                 out.relay.cached == Some(out.result.value) && (next == core || core.relay.cached.None?))
            && (out.result.Ok? && next != core ==> next.relay.nextLocal == core.relay.nextLocal + 1)
  {
    EndpointRuns.ApplyRaisesRank(w, core.endpoint, o, core.endpoint.side);
    ApplyKeepsSide(w, core.endpoint, o, core.endpoint.side);
    hide Apply;
  }

  lemma ApplyKeepsSide(w: World, e: Endpoint, o: Object, sender: Side)
    ensures var next := Apply(w, e, o, sender).0;
            next.side == e.side && next.carrier == e.carrier && next.generation == e.generation && next.nonce == e.nonce
  {
    hide ValidSender, Retransmits, NextPhase;
  }

  /** The only early object that leaves past final approval is a Refusal, before a payload
      and with nothing outstanding; anything else leaves the session as it was, or ends its
      endpoint where it stood. */
  lemma EarlyPastFinal(w: World, core: Restored, o: Object)
    requires core.endpoint.phase.FinalApproved? || core.endpoint.phase.PayloadSent?
    requires EarlyKind(o.kind) && Held(w, core) && Wired(core)
    ensures var out := PrepareOutbound(w, core.endpoint, core.channel, core.relay, o);
            && (out.result.Ok? ==>
                  core.endpoint.phase.FinalApproved? && o.kind.Refusal? && core.relay.cached.None?
                      && out.endpoint.phase.Ended?)
            && (out.result.Err? ==> || out.endpoint == core.endpoint
                                    || (out.endpoint.phase.Ended? && core.relay.cached.None?
                                         && out.endpoint.last == core.endpoint.last))
  {
    hide Retainable;
  }

  lemma EarlyStays(w: World, core: Restored, o: Object)
    requires Lawful(w) && Wired(core) && (!core.endpoint.phase.Ended? ==> Held(w, core)) && Recognised(w, o)
    requires EarlyKind(o.kind) && !core.endpoint.phase.FinalApproved? && !core.endpoint.phase.PayloadSent?
    ensures var out := PrepareOutbound(w, core.endpoint, core.channel, core.relay, o);
            && !out.endpoint.phase.FinalApproved? && !out.endpoint.phase.PayloadSent?
            && (core.endpoint.phase.Ended? ==> out.endpoint.phase.Ended?)
            && (!out.endpoint.phase.Ended? ==> Held(w, Restored(out.endpoint, out.channel, out.relay)))
  {
    EarlyNeverFinal(w, core.endpoint, o);
    if !core.endpoint.phase.Ended? { A.AppliedIsHeld(w, core.endpoint, o, core.endpoint.side); }
    hide Apply, Lawful, ConsistentProjection, Retainable, EarlyKind, Recognised, EndpointRuns.Rank;
  }

  /** An object of an early kind never leads to final approval or payload. */
  lemma EarlyNeverFinal(w: World, e: Endpoint, o: Object)
    requires EarlyKind(o.kind) && !e.phase.FinalApproved? && !e.phase.PayloadSent?
    ensures var next := Apply(w, e, o, e.side).0;
            && next.side == e.side && !next.phase.FinalApproved? && !next.phase.PayloadSent?
            && (e.phase.Ended? ==> next.phase.Ended?)
  {
    hide ValidSender, Retransmits;
  }

  lemma EarlyKeepsInv(w: World, sys: System, c: Claim, o: Object)
    requires Lawful(w) && Inv(w, sys) && sys.live == Some(c) && Recognised(w, o)
    ensures Inv(w, Called(w, sys, c, Early(o)))
  {
    hide SavedOk, AllCovered, SentOk, SendWire, Moves, Near, PrepareOutbound, Held, Lawful, Wired, Puts;
    var next := PrepareEarly(w, c, o).0.value;
    SameSent(w, sys, Called(w, sys, c, Early(o)));
    if c.gate.None? && EarlyKind(o.kind) {
      OutgoingIs(w, c, o);
      hide Outgoing;
      OutboundStaysWired(w, c.core, o);
      if DurablePhase(c) {
        EarlyPastFinal(w, c.core, o);
      } else {
        EarlyStays(w, c.core, o);
      }
    }
  }

  lemma PersistsKeepsInv(w: World, sys: System)
    requires Inv(w, sys) && sys.outbox.Some?
    ensures Inv(w, sys.(slot := sys.outbox))
  {
    hide SavedOk, AllCovered, SendWire, Moves, Near, SentOk, Held, Wired;
    if sys.slot != sys.outbox { AccountedMoves(w, sys, sys.outbox.value); }
        else { SameSent(w, sys, sys.(slot := sys.outbox)); }
  }

  lemma ReleasesKeepsInv(w: World, sys: System, c: Claim)
    requires Lawful(w) && Inv(w, sys) && sys.live == Some(c) && sys.outbox.Some? && sys.slot == sys.outbox
    ensures Inv(w, Called(w, sys, c, Releases))
  {
    hide SavedOk, AllCovered, SendWire, Moves, Near, SentOk, Held, Wired;
    SendCovered(w, sys, c.after);
    NearItself(SendWire(c.core));
    var next := Called(w, sys, c, Releases);
    SameSent(w, sys.(sent := sys.sent + Puts(c.after)), next);
  }

  lemma ResumeIsCovered(w: World, c: Claim)
    requires Resume(w, c).Ok?
    ensures AllCovered(w, SendWire(c.core), Resume(w, c).value)
  {
  }

  lemma ResumesKeepsInv(w: World, sys: System, c: Claim)
    requires Lawful(w) && Inv(w, sys) && sys.live == Some(c)
    ensures Inv(w, Emit(sys, (Some(c), Resume(w, c))))
  {
    hide SavedOk, SendWire, Moves, SentOk, Resume, Near, Held, Wired;
    var r := Resume(w, c);
    if r.Err? {
      IdleKeepsInv(w, sys, c, (Some(c), r));
    } else {
      ResumeNeedsDurable(w, c);
      ResumeIsCovered(w, c);
      NearCovers(w, SendWire(sys.slot.value.state), SendWire(c.core), r.value);
      SendCovered(w, sys, r.value);
      SameSent(w, sys.(sent := sys.sent + Puts(r.value)), Emit(sys, (Some(c), r)));
    }
  }

  lemma ResumeNeedsDurable(w: World, c: Claim)
    requires Resume(w, c).Ok?
    ensures c.gate.None? && DurablePhase(c)
  {
  }

  /** Whatever arguments a restore is called with, it returns the durable core. */
  lemma SlotRestores(w: World, saved: Saved, key: Bytes32, carrier: Carrier, generation: u64, now: u64)
    requires Lawful(w) && SavedOk(w, saved)
    ensures var r := Restore(w, saved.checkpoint, key, carrier, generation, now);
            r.Ok? ==> r.value == Claim(Image(saved.state, saved.checkpoint.generation, saved.checkpoint.nonce), None,
                [], false)
  {
    hide EncodeEndpoint, DecodeEndpoint, PhaseRefused, Image, Restorable, Lawful, Held;
    var c, core := saved.checkpoint, saved.state;
    EndpointRoundTrip(w, core, c.generation, c.nonce);
    if DecodeEndpoint(w, c.plaintext, V2.Claimant, carrier, c.generation, c.nonce).Ok? {
      AllocatorSystem.OtherCarrierFails(w, core, c.generation, c.nonce, carrier);
    }
  }

  lemma ImagePhase(core: Restored, g: u64, nonce: Bytes12, expiry: Option<u64>, now: u64)
    requires core.endpoint.side.Claimant?
    requires if core.endpoint.phase.FinalApproved? then expiry == Some(core.endpoint.carrier.expiresAt)
             else core.endpoint.phase.PayloadSent? && expiry.None?
    ensures PhaseRefused(Image(core, g, nonce).endpoint, expiry, now).None? <==> expiry.Some? ==> now < expiry.value
  {
  }

  /** After every run, restoring the durable slot succeeds exactly under its own key,
      generation and carrier, before its expiry if it has one, unless the last object's
      bytes were omitted and its frame is no longer cached. */
  lemma SlotRestoresExactly(w: World, start: System, events: seq<Event>, key: Bytes32, carrier: Carrier,
      generation: u64, now: u64)
    requires Lawful(w) && Started(w, start) && Feasible(w, start, events) && Execute(w, start, events).slot.Some?
    ensures var c, core := Execute(w, start, events).slot.value.checkpoint, Execute(w, start, events).slot.value.state;
            Restore(w, c, key, carrier, generation, now).Ok? <==>
              && key == c.key && generation == c.generation && carrier == core.endpoint.carrier
              && (core.endpoint.phase.FinalApproved? ==> now < core.endpoint.carrier.expiresAt)
              && BytesAccountedFor(core.endpoint.last, V2.Claimant, core.relay)
  {
    hide Execute, Feasible, Started, Lawful, LiveOk, SentOk, Restore, SavedOk;
    EveryRun(w, start, events);
    SavedRestoresExactly(w, Execute(w, start, events).slot.value, key, carrier, generation, now);
  }

  lemma SavedRestoresExactly(w: World, saved: Saved, key: Bytes32, carrier: Carrier, generation: u64, now: u64)
    requires Lawful(w) && SavedOk(w, saved)
    ensures var c, core := saved.checkpoint, saved.state;
            Restore(w, c, key, carrier, generation, now).Ok? <==>
              && key == c.key && generation == c.generation && carrier == core.endpoint.carrier
              && (core.endpoint.phase.FinalApproved? ==> now < core.endpoint.carrier.expiresAt)
              && BytesAccountedFor(core.endpoint.last, V2.Claimant, core.relay)
  {
    hide EncodeEndpoint, DecodeEndpoint, PhaseRefused, Image, Restorable, Lawful, Held, EndpointRuns.Rank;
    var c, core := saved.checkpoint, saved.state;
    EndpointRoundTrip(w, core, c.generation, c.nonce);
    OnlyForgottenBytesBar(w, core);
    ImagePhase(core, c.generation, c.nonce, c.expiry, now);
    ImageFits(w, saved);
    if DecodeEndpoint(w, c.plaintext, V2.Claimant, carrier, c.generation, c.nonce).Ok? {
      AllocatorSystem.OtherCarrierFails(w, core, c.generation, c.nonce, carrier);
    }
  }

  lemma ImageFits(w: World, saved: Saved)
    requires SavedOk(w, saved)
    ensures var core := Image(saved.state, saved.checkpoint.generation, saved.checkpoint.nonce);
            Fit(w, core) && SendWire(core) == SendWire(saved.state) && core.endpoint.phase == saved.state.endpoint.phase
  {
    hide EncodeEndpoint;
  }

  lemma RestoresKeepsInv(w: World, sys: System, event: Event)
    requires Lawful(w) && Inv(w, sys) && event.Restores? && Possible(w, sys, event)
    ensures Inv(w, Happens(w, sys, event))
  {
    hide SavedOk, SendWire, Moves, SentOk, Restore, Image, Near, Lawful, Held, Wired;
    var saved := sys.slot.value;
    SlotRestores(w, saved, event.key, event.carrier, event.generation, event.now);
    ImageFits(w, saved);
    SavedIsDurable(w, saved);
    NearItself(SendWire(saved.state));
    var next := Happens(w, sys, event);
    SameSent(w, sys, next);
  }

  lemma PayloadKeepsInv(w: World, sys: System, c: Claim, o: Object, key: Bytes32, nonce: Bytes12, now: u64)
    requires Lawful(w) && Inv(w, sys) && sys.live == Some(c) && Recognised(w, o)
    ensures Inv(w, Emit(sys, PreparePayload(w, c, o, key, nonce, now)))
    ensures Inv(w, Emit(sys, PrepareFinalApproval(w, c, o, key, nonce, now)))
  {
    hide Inv, Barrier, Emit, Lawful;
    if c.gate.None? {
      BarrierKeepsInv(w, sys, c, o, key, nonce, now, None);
      BarrierKeepsInv(w, sys, c, o, key, nonce, now, Some(c.core.endpoint.carrier.expiresAt));
    }
    IdleKeepsInv(w, sys, c, (Some(c), Err(PhaseFault)));
    IdleKeepsInv(w, sys, c, (Some(c), Err(ExpiredFault)));
  }

  lemma CallKeepsInv(w: World, sys: System, c: Claim, event: Event)
    requires Lawful(w) && Inv(w, sys) && sys.live == Some(c) && Possible(w, sys, event)
    ensures Inv(w, Called(w, sys, c, event))
  {
    hide Emit, Gives, PrepareEarly, PrepareFinalApproval, PreparePayload, Resume, ReceiveDurable, ReceiveReceipt,
         AuthenticateObject, CommitReceipt, Lawful, SavedOk, SentOk, Near, Moves, AllCovered, SendWire, Held;
    match event
    case Receives(m, now, verdict) => ReceivesKeepsInv(w, sys, c, m, now, verdict);
    case Early(o) => hide LiveOk; EarlyKeepsInv(w, sys, c, o);
    case FinalApproval(o, key, nonce, now) => PayloadKeepsInv(w, sys, c, o, key, nonce, now);
    case PayloadReady(o, key, nonce, now) => PayloadKeepsInv(w, sys, c, o, key, nonce, now);
    case Releases => hide LiveOk; ReleasesKeepsInv(w, sys, c);
    case Resumes => ResumesKeepsInv(w, sys, c);
    case Durable(m, now, key, nonce) => DurableKeepsInv(w, sys, c, m, now, key, nonce);
    case ReceiptArrives(m) => ReceiptKeepsInv(w, sys, c, m);
    case Authenticates(o) => AuthenticateKeepsInv(w, sys, c, o);
    case Commits(receipt) => CommitKeepsInv(w, sys, c, receipt);
    case _ =>
  }

  lemma StepKeepsInv(w: World, sys: System, event: Event)
    requires Lawful(w) && Inv(w, sys) && Possible(w, sys, event)
    ensures Inv(w, Happens(w, sys, event))
  {
    hide Called, Lawful, SavedOk, SentOk, LiveOk;
    match event
    case Persists => PersistsKeepsInv(w, sys);
    case Crashes => SameSent(w, sys, Happens(w, sys, event));
    case Restores(_, _, _, _) => RestoresKeepsInv(w, sys, event);
    case _ => if sys.live.Some? { CallKeepsInv(w, sys, sys.live.value, event); }
  }

  /** A new endpoint over a channel just confirmed, its share and Finished value stored. */
  ghost predicate Fresh(core: Restored) {
    && core.endpoint == NewEndpoint(V2.Claimant, core.endpoint.carrier, core.endpoint.verifier)
    && core.channel == Channel(V2.Claimant, core.channel.transcript, core.channel.keys, Some(0), Some(0), false)
    && core.relay == Projection(core.relay.token, 2, 2, false, None)
  }

  /** A claimant whose channel has just been established and whose peer's profile has been
      authorised. */
  ghost predicate Started(w: World, sys: System) {
    && sys.live.Some? && sys == System(Some(Claim(sys.live.value.core, None, [], false)), None, None, sys.early, {})
    && Fresh(sys.live.value.core)
    && OneBodyPerSequence(sys.early)
    && forall m | m in sys.early :: m.Put? && m.seqNo < 2 && FitsWire(m) && Framed(w, V2.Claimant, m)
  }

  lemma {:induction false} EveryRun(w: World, start: System, events: seq<Event>)
    requires Lawful(w) && Started(w, start) && Feasible(w, start, events)
    ensures Inv(w, Execute(w, start, events))
  {
    hide Happens, Possible, SavedOk, Lawful;
    if events != [] {
      hide Inv, Started;
      var n := |events| - 1;
      EveryRun(w, start, events[..n]);
      StepKeepsInv(w, Execute(w, start, events[..n]), events[n]);
    }
  }

  /** The durable state accounts for this Put: its sequence is taken, and as long as it is
      the last and unacknowledged the state holds its very body. */
  ghost predicate Contains(w: World, core: Restored, m: ClientMessage) {
    && m.Put? && m.seqNo < core.relay.nextLocal
    && (m.seqNo + 1 == core.relay.nextLocal && core.relay.awaitingAck ==>
          core.relay.cached.Some? && w.encodeFrame(core.relay.cached.value) == Ok(m.body))
  }

  /** In every run, every FinalApprove or Payload Put that left is contained in the durable
      checkpoint, no two of them share a sequence, and the next checkpoint is one
      generation after it. */
  lemma PersistBeforeRelease(w: World, start: System, events: seq<Event>)
    requires Lawful(w) && Started(w, start) && Feasible(w, start, events)
    ensures var sys := Execute(w, start, events);
            && (forall m | m in sys.sent :: sys.slot.Some? && Contains(w, sys.slot.value.state, m))
            && OneBodyPerSequence(sys.sent)
            && (sys.slot.Some? && sys.outbox.Some? && sys.slot != sys.outbox ==>
                  sys.outbox.value.checkpoint.generation == SaturatingSucc(sys.slot.value.checkpoint.generation))
  {
    hide Execute, Feasible, Started, Lawful;
    EveryRun(w, start, events);
    var sys := Execute(w, start, events);
    forall m | m in sys.sent ensures sys.slot.Some? && Contains(w, sys.slot.value.state, m) {
      assert Accounted(w, SendWire(sys.slot.value.state), m);
    }
  }

  lemma PeerApplicationSendsNoPut(w: World, core: Restored, peerSeq: u8, body: Bytes, verdict: OfferVerdict)
    requires PeerApplication(w, core, peerSeq, body, verdict).Ok?
    ensures Puts(PeerApplication(w, core, peerSeq, body, verdict).value.1) == {}
  {
    hide Heard;
  }

  /** Only a confirmed checkpoint and a resume release anything of the durable half. */
  lemma OnlyReleasesSend(w: World, sys: System, c: Claim, event: Event)
    requires !event.Releases? && !event.Resumes?
    ensures Called(w, sys, c, event).sent == sys.sent && Called(w, sys, c, event).slot == sys.slot
  {
    hide Outgoing, SealEndpoint, OpenReceipt, AuthenticateReceipt, RecoverReceipt, PeerApplication;
    if event.Receives? && event.m.PeerFrame?
        && PeerApplication(w, c.core, event.m.peerSeq, event.m.body, event.verdict).Ok? {
      PeerApplicationSendsNoPut(w, c.core, event.m.peerSeq, event.m.body, event.verdict);
    }
  }

  lemma ReleasesCovered(w: World, sys: System, event: Event, m: ClientMessage)
    requires Inv(w, sys) && Possible(w, sys, event)
    requires m in Happens(w, sys, event).sent && m !in sys.sent
    ensures sys.slot.Some? && Happens(w, sys, event).slot == sys.slot && Covers(w, SendWire(sys.slot.value.state), m)
  {
    hide SavedOk, SendWire, Moves, Held, Wired, SentOk, Near, Resume, Covers;
    var c := sys.live.value;
    if event.Releases? {
      hide Called;
      ReleasedAfter(w, sys, c, m);
    } else if event.Resumes? {
      ResumeNeedsDurable(w, c);
      ResumeIsCovered(w, c);
      NearCovers(w, SendWire(sys.slot.value.state), SendWire(c.core), Resume(w, c).value);
    } else {
      hide Called;
      OnlyReleasesSend(w, sys, c, event);
    }
  }

  lemma ReleasedAfter(w: World, sys: System, c: Claim, m: ClientMessage)
    requires sys.live == Some(c) && sys.outbox.Some? && m in Called(w, sys, c, Releases).sent && m !in sys.sent
    ensures m in Puts(c.after) && Called(w, sys, c, Releases).slot == sys.slot
  {
  }

  /** Persist before release: at the moment a FinalApprove or Payload Put leaves, the
      checkpoint already in the slot, however it is restored, gives a session that would
      repeat that very Put. */
  lemma ReleasedIsContained(w: World, start: System, events: seq<Event>, event: Event, m: ClientMessage, key: Bytes32,
      carrier: Carrier, generation: u64, now: u64)
    requires Lawful(w) && Started(w, start) && Feasible(w, start, events)
    requires Possible(w, Execute(w, start, events), event)
    requires m in Happens(w, Execute(w, start, events), event).sent && m !in Execute(w, start, events).sent
    ensures var sys := Execute(w, start, events);
            && sys.slot.Some? && Happens(w, sys, event).slot == sys.slot && Covers(w, SendWire(sys.slot.value.state), m)
            && var r := Restore(w, sys.slot.value.checkpoint, key, carrier, generation, now);
               r.Ok? ==> Covers(w, SendWire(r.value.core), m)
  {
    hide Execute, Feasible, Started, Lawful, Happens, Possible, SavedOk, Restore, Covers, SendWire, Image;
    EveryRun(w, start, events);
    var sys := Execute(w, start, events);
    ReleasesCovered(w, sys, event, m);
    SlotRestores(w, sys.slot.value, key, carrier, generation, now);
    ImageFits(w, sys.slot.value);
  }

  /** The barrier itself: preparing either object emits one checkpoint and nothing else. */
  lemma BarrierEmitsOnlyACheckpoint(w: World, c: Claim, o: Object, key: Bytes32, nonce: Bytes12, now: u64)
    ensures forall r | r in {PrepareFinalApproval(w, c, o, key, nonce, now),
            PreparePayload(w, c, o, key, nonce, now)} && r.1.Ok? ::
              r.0.Some? && |r.1.value| == 1 && r.1.value[0].Save? && r.0.value.gate == Some(r.1.value[0].generation)
  {
    hide Outgoing, SealEndpoint;
  }
}
