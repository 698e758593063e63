/** Every Put a claimant releases, those without a checkpoint included. They stay one per
    sequence, and one plaintext per nonce, exactly until a Refusal is prepared between
    final approval and payload: it leaves at once, and a restart from the checkpoint before
    it uses the same sequence, counter and key again. */
module ClaimantRefusals {
  import opened Base
  import opened V2
  import opened Projections
  import opened Octets
  import opened Endpoints
  import opened EndpointCodec
  import opened Checkpoints
  import opened Wires
  import opened Claimants
  import opened ClaimantSystem
  import EndpointRuns

  type Saved = ClaimantSystem.Saved

  /** Every Put that ever left. */
  function AllPuts(sys: System): set<ClientMessage> { sys.early + sys.sent }

  /** What a caller can see before `prepare_application_object`: a Refusal, between final
      approval and payload, with nothing outstanding. */
  predicate AtRisk(c: Claim, o: Object) {
    c.gate.None? && c.core.endpoint.phase.FinalApproved? && c.core.relay.cached.None? && o.kind.Refusal?
  }

  /** The step releases such a Refusal. */
  predicate Splits(w: World, sys: System, event: Event) {
    event.Early? && sys.live.Some? && AtRisk(sys.live.value, event.o) && PrepareEarly(w, sys.live.value, event.o).1.Ok?
  }

  ghost predicate Disciplined(w: World, start: System, events: seq<Event>, from: nat) {
    forall n :: from <= n < |events| ==> !Splits(w, Execute(w, start, events[..n]), events[n])
  }

  ghost predicate Safe(w: World, sys: System) {
    OneBodyPerSequence(AllPuts(sys)) && OnePlaintextPerNonce(w, V2.Claimant, AllPuts(sys))
  }

  // ---------------------------------------------------------------- invariant

  /** The sequence of the FinalApprove. */
  function Boundary(core: Restored): int {
    core.relay.nextLocal - if core.endpoint.phase.FinalApproved? then 1 else 2
  }

  ghost predicate Below(early: set<ClientMessage>, bound: int) { forall m | m in early :: m.Put? && m.seqNo < bound }

  ghost predicate NotBelow(sent: set<ClientMessage>, bound: int) { forall m | m in sent :: m.Put? && m.seqNo >= bound }

  ghost predicate AllAccounted(w: World, core: Restored, early: set<ClientMessage>) {
    forall m | m in early :: Accounted(w, SendWire(core), m)
  }

  /** An endpoint that has ended, with nothing cached that would fit the wire. */
  ghost predicate Mute(w: World, core: Restored) {
    && core.endpoint.phase.Ended?
    && (core.relay.CachedApplicationSequence().Ok? ==>
          PutMessage(w, core.relay.CachedApplicationSequence().value, core.relay.cached.value).Err?)
  }

  ghost predicate Standing(w: World, slot: Option<Saved>, early: set<ClientMessage>, c: Claim) {
    if slot.None? then if DurablePhase(c) then Below(early, Boundary(c.core)) else AllAccounted(w, c.core, early)
    else if DurablePhase(c) then Boundary(c.core) == Boundary(slot.value.state) else Mute(w, c.core)
  }

  ghost predicate Apart(w: World, sys: System) {
    && OneBodyPerSequence(sys.early) && (forall m | m in sys.early :: Framed(w, V2.Claimant, m))
    && (sys.slot.Some? ==>
         Below(sys.early, Boundary(sys.slot.value.state)) && NotBelow(sys.sent, Boundary(sys.slot.value.state)))
    && (sys.live.Some? ==> Standing(w, sys.slot, sys.early, sys.live.value))
  }

  /** Nothing left, and the session stands where it stood or is gone. */
  lemma StillApart(w: World, sys: System, next: System)
    requires Apart(w, sys) && next.early == sys.early && next.sent == sys.sent && next.slot == sys.slot
    requires next.live.Some? ==> sys.live.Some? && SameStanding(sys.live.value, next.live.value)
    ensures Apart(w, next)
  {
    hide Framed, SendWire;
  }

  predicate SameStanding(c: Claim, next: Claim) {
    c.core == next.core || (DurablePhase(c) && DurablePhase(next) && Boundary(next.core) == Boundary(c.core))
  }

  // ---------------------------------------------------------------- objects released at once

  lemma NearAccounted(w: World, from: Restored, to: Restored, early: set<ClientMessage>)
    requires AllAccounted(w, from, early) && Near(SendWire(from), SendWire(to))
    ensures AllAccounted(w, to, early)
  {
    hide SendWire, Framed;
    forall m | m in early ensures Accounted(w, SendWire(to), m) { assert Accounted(w, SendWire(from), m); }
  }

  lemma AccountedLater(w: World, from: Restored, to: Restored, early: set<ClientMessage>)
    requires AllAccounted(w, from, early)
    requires to.relay == from.relay || to.relay.nextLocal == from.relay.nextLocal + 1
    ensures AllAccounted(w, to, early)
  {
    hide Framed;
    forall m | m in early ensures Accounted(w, SendWire(to), m) { assert Accounted(w, SendWire(from), m); }
  }

  lemma AccountedIsFramed(w: World, core: Restored, early: set<ClientMessage>)
    requires AllAccounted(w, core, early)
    ensures forall m | m in early :: Framed(w, V2.Claimant, m)
  {
    hide Framed, SendWire;
    forall m | m in early ensures Framed(w, V2.Claimant, m) { assert Accounted(w, SendWire(core), m); }
  }

  /** One more early Put, under the wire the session has moved to. */
  lemma OneMoreEarly(w: World, from: Restored, to: Restored, early: set<ClientMessage>, m: ClientMessage)
    requires Lawful(w) && Wired(to) && OneBodyPerSequence(early) && AllAccounted(w, from, early)
    requires to == from || (to.relay.nextLocal == from.relay.nextLocal + 1 && to.relay.cached.Some?)
    requires m.Put? && Covers(w, SendWire(to), m)
    ensures OneBodyPerSequence(early + {m}) && AllAccounted(w, to, early + {m})
  {
    hide Lawful, Framed;
    CoveredIsFramed(w, to, m);
    AccountedLater(w, from, to, early);
    forall a | a in early ensures Accounted(w, SendWire(to), a) && (a.seqNo == m.seqNo ==> a == m) {
      assert Accounted(w, SendWire(from), a);
    }
  }

  lemma EarlyPutIsCovered(w: World, c: Claim, o: Object)
    requires Wired(c.core) && PrepareEarly(w, c, o).1.Ok?
    ensures var (next, r) := PrepareEarly(w, c, o);
            && |r.value| == 1 && r.value[0].Send? && r.value[0].message.Put? && Puts(r.value) == {r.value[0].message}
            && Covers(w, SendWire(next.value.core), r.value[0].message)
  {
    hide PrepareOutbound;
    OutboundStaysWired(w, c.core, o);
    var r := PrepareEarly(w, c, o).1;
    assert r.value == [r.value[0]];
  }

  /** Past final approval an early call releases only a Refusal at risk; otherwise it leaves
      the session as it was or mute. */
  lemma EarlyAtRisk(w: World, c: Claim, o: Object)
    requires Wired(c.core) && Held(w, c.core) && DurablePhase(c)
    ensures PrepareEarly(w, c, o).1.Ok? ==> AtRisk(c, o)
    ensures PrepareEarly(w, c, o).1.Err? ==>
            PrepareEarly(w, c, o).0 == Some(c) || Mute(w, PrepareEarly(w, c, o).0.value.core)
  {
    hide PrepareOutbound, ConsistentProjection, Retainable;
    if c.gate.None? && EarlyKind(o.kind) {
      EarlyPastFinal(w, c.core, o);
      OutboundStaysWired(w, c.core, o);
    }
  }

  /** A mute session stays as it is and releases nothing, whatever is prepared. */
  lemma MuteStays(w: World, c: Claim, o: Object)
    requires Wired(c.core) && Mute(w, c.core)
    ensures PrepareEarly(w, c, o).0 == Some(c) && PrepareEarly(w, c, o).1.Err?
  {
  }

  lemma EarlyApart(w: World, sys: System, c: Claim, o: Object)
    requires Lawful(w) && Inv(w, sys) && Apart(w, sys) && sys.live == Some(c) && Recognised(w, o)
    requires !Splits(w, sys, Early(o))
    ensures Apart(w, Called(w, sys, c, Early(o)))
  {
    hide SavedOk, SentOk, SendWire, Moves, Near, Held, Lawful, Wired, Puts, PrepareEarly, Mute, AtRisk, AllCovered,
         Framed;
    var (next, r) := PrepareEarly(w, c, o);
    EarlyKeepsSession(w, c, o);
    if sys.slot.Some? {
      if DurablePhase(c) { EarlyAtRisk(w, c, o); } else { MuteStays(w, c, o); }
      StillMute(w, sys, c, next.value);
    } else if DurablePhase(c) {
      GatedIsRefused(w, c, o);
    } else {
      PreFinalApart(w, sys, c, o);
    }
  }

  lemma EarlyKeepsSession(w: World, c: Claim, o: Object)
    ensures PrepareEarly(w, c, o).0.Some?
  {
  }

  lemma GatedIsRefused(w: World, c: Claim, o: Object)
    requires c.gate.Some?
    ensures PrepareEarly(w, c, o) == (Some(c), Err(PhaseFault))
  {
  }

  lemma StillMute(w: World, sys: System, c: Claim, next: Claim)
    requires Apart(w, sys) && sys.slot.Some? && sys.live == Some(c)
    requires next == c || Mute(w, next.core)
    ensures Apart(w, sys.(live := Some(next)))
  {
    hide Framed;
  }

  /** Before final approval every early Put takes a sequence of its own or repeats one. */
  lemma PreFinalApart(w: World, sys: System, c: Claim, o: Object)
    requires Lawful(w) && Apart(w, sys) && sys.live == Some(c) && sys.slot.None? && Recognised(w, o)
    requires !DurablePhase(c) && Wired(c.core) && (!c.core.endpoint.phase.Ended? ==> Held(w, c.core))
    ensures Apart(w, Called(w, sys, c, Early(o)))
  {
    hide Lawful, PrepareOutbound, Held, Framed, Recognised, Puts, SendWire, Covers;
    var (next, r) := PrepareEarly(w, c, o);
    if c.gate.None? && EarlyKind(o.kind) {
      EarlyStays(w, c.core, o);
      OutboundStaysWired(w, c.core, o);
      if r.Ok? {
        EarlyPutIsCovered(w, c, o);
        OneMoreEarly(w, c.core, next.value.core, sys.early, r.value[0].message);
        AccountedIsFramed(w, next.value.core, sys.early + {r.value[0].message});
      } else {
        AccountedLater(w, c.core, next.value.core, sys.early);
      }
    }
  }

  // ---------------------------------------------------------------- the other calls

  lemma ReceivesApart(w: World, sys: System, c: Claim, m: ServerMessage, now: u64, verdict: OfferVerdict)
    requires Lawful(w) && Inv(w, sys) && Apart(w, sys) && sys.live == Some(c)
    ensures Apart(w, Called(w, sys, c, Receives(m, now, verdict)))
  {
    hide SavedOk, AllCovered, SentOk, SendWire, Moves, PeerApplication, LocalAcknowledged, Wired, Held, Lawful,
         Framed, Near, Mute;
    var reply := Receive(w, c, m, now, verdict);
    var next := Called(w, sys, c, Receives(m, now, verdict));
    OnlyReleasesSend(w, sys, c, Receives(m, now, verdict));
    if reply.0.None? || reply.0 == Some(c) {
      StillApart(w, sys, next);
    } else {
      var core := reply.0.value.core;
      if m.PeerFrame? {
        PeerApplicationHolds(w, c.core, m.peerSeq, m.body, verdict);
        NearItself(SendWire(c.core));
        if sys.slot.Some? { PeerApplicationIsMute(w, c.core, m.peerSeq, m.body, verdict); }
      } else {
        LocalAcknowledgedHolds(w, c.core, m.seqNo);
        if sys.slot.Some? { LocalAcknowledgedIsMute(w, c.core, m.seqNo); }
      }
      if sys.slot.None? { NearAccounted(w, c.core, core, sys.early); } else { StillMute(w, sys, c, reply.0.value); }
      SameRest(w, sys.(live := reply.0), next);
    }
  }

  lemma SameRest(w: World, a: System, b: System)
    requires a.live == b.live && a.slot == b.slot && a.early == b.early && a.sent == b.sent
    ensures Apart(w, a) <==> Apart(w, b)
  {
  }

  lemma PeerApplicationIsMute(w: World, core: Restored, peerSeq: u8, body: Bytes, verdict: OfferVerdict)
    requires Lawful(w) && Mute(w, core) && PeerApplication(w, core, peerSeq, body, verdict).Ok?
    ensures Mute(w, PeerApplication(w, core, peerSeq, body, verdict).value.0)
  {
    hide PutMessage, Lawful;
  }

  lemma LocalAcknowledgedIsMute(w: World, core: Restored, sequence: u8)
    requires Mute(w, core) && LocalAcknowledged(core, sequence).Ok?
    ensures Mute(w, LocalAcknowledged(core, sequence).value)
  {
    hide PutMessage;
  }

  /** A fresh FinalApprove sits at the boundary; a Payload one above it. */
  lemma OutboundBoundary(w: World, core: Restored, o: Object)
    requires Wired(core)
    ensures var out := PrepareOutbound(w, core.endpoint, core.channel, core.relay, o);
            var next := Restored(out.endpoint, out.channel, out.relay);
            out.result.Ok? && (out.endpoint.phase.FinalApproved? || out.endpoint.phase.PayloadSent?) ==>
              Boundary(next) == if core.endpoint.phase.FinalApproved? || core.endpoint.phase.PayloadSent?
                  then Boundary(core)
                                else core.relay.nextLocal as int
  {
    PhaseRoad(w, core.endpoint, o);
    OutboundStaysWired(w, core, o);
    hide Apply, Wired;
  }

  lemma PhaseRoad(w: World, e: Endpoint, o: Object)
    ensures var (next, r) := Apply(w, e, o, e.side);
            r == Ok(Advanced) ==>
              (next.phase.FinalApproved? ==> e.phase.Confirmed?) && (next.phase.PayloadSent? ==> e.phase.FinalApproved?)
  {
    hide Retransmits, ValidSender;
  }

  lemma BarrierStanding(w: World, c: Claim, o: Object, key: Bytes32, nonce: Bytes12, now: u64, expiry: Option<u64>)
    requires Wired(c.core) && Barrier(w, c, o, key, nonce, now, expiry).1.Ok?
    ensures var next := Barrier(w, c, o, key, nonce, now, expiry).0.value;
            && DurablePhase(next)
            && Boundary(next.core) == if DurablePhase(c) then Boundary(c.core) else c.core.relay.nextLocal as int
  {
    hide PrepareOutbound, EncodeEndpoint, Wired;
    OutboundBoundary(w, c.core, o);
    OutboundStaysWired(w, c.core, o);
    var out := PrepareOutbound(w, c.core.endpoint, c.core.channel, c.core.relay, o);
    ClaimantOf(Restored(out.endpoint, out.channel, out.relay));
  }

  lemma BarrierApart(w: World, sys: System, c: Claim, o: Object, key: Bytes32, nonce: Bytes12, now: u64,
      expiry: Option<u64>, event: Event)
    requires Inv(w, sys) && Apart(w, sys) && sys.live == Some(c) && c.gate.None?
    requires Called(w, sys, c, event).slot == sys.slot && Called(w, sys, c, event).early == sys.early
    requires Called(w, sys, c, event).sent == sys.sent
             && Called(w, sys, c, event).live == Barrier(w, c, o, key, nonce, now, expiry).0
    ensures Apart(w, Called(w, sys, c, event))
  {
    hide SavedOk, AllCovered, SentOk, Moves, Barrier, Held, Framed, Near, Mute, Wired, Called;
    var reply := Barrier(w, c, o, key, nonce, now, expiry);
    var next := Called(w, sys, c, event);
    BarrierReplies(w, c, o, key, nonce, now, expiry);
    if reply.0.None? {
      StillApart(w, sys, next);
    } else {
      BarrierStanding(w, c, o, key, nonce, now, expiry);
      if DurablePhase(c) {
        StillApart(w, sys, next);
      } else if sys.slot.Some? {
        EndedIsBarred(w, c, o, key, nonce, now, expiry) by { ClaimantOf(c.core); }
      } else {
        FirstDurable(w, c.core, sys.early);
      }
    }
  }

  lemma ClaimantOf(core: Restored)
    requires Wired(core)
    ensures core.endpoint.side.Claimant?
  {
  }

  lemma BarrierReplies(w: World, c: Claim, o: Object, key: Bytes32, nonce: Bytes12, now: u64, expiry: Option<u64>)
    ensures Barrier(w, c, o, key, nonce, now, expiry).0.Some? <==> Barrier(w, c, o, key, nonce, now, expiry).1.Ok?
  {
    hide Outgoing, Checkpointed;
  }

  lemma FirstDurable(w: World, core: Restored, early: set<ClientMessage>)
    requires AllAccounted(w, core, early)
    ensures Below(early, core.relay.nextLocal as int)
  {
    hide Framed;
    forall m | m in early ensures m.Put? && m.seqNo < core.relay.nextLocal { assert Accounted(w, SendWire(core), m); }
  }

  /** The durable half's own calls move neither the phase nor the sequence. */
  lemma DurableCallsStand(w: World, sys: System, c: Claim, event: Event)
    requires event.Durable? || event.ReceiptArrives? || event.Authenticates? || event.Commits?
    ensures var next := Called(w, sys, c, event);
            && next.early == sys.early && next.slot == sys.slot && next.sent == sys.sent
            && (next.live.Some? ==> SameStanding(c, next.live.value))
  {
    hide SealEndpoint, AuthenticateReceipt, RecoverReceipt;
    AuthenticationStands(w, c, event);
    if event.Commits? { RecoveryRefusals(w, c.core.endpoint, event.receipt.o, event.receipt.authority); }
  }

  lemma AuthenticationStands(w: World, c: Claim, event: Event)
    ensures forall o :: AuthenticateReceipt(w, c.core.endpoint, o).0.phase == c.core.endpoint.phase
  {
  }

  /** What the durable half releases lies at the boundary or above. */
  lemma CoveredNotBelow(w: World, sys: System, effects: seq<Effect>, next: System)
    requires Apart(w, sys) && sys.slot.Some? && AllCovered(w, SendWire(sys.slot.value.state), effects)
    requires next.early == sys.early && next.slot == sys.slot && next.sent == sys.sent + Puts(effects)
    requires next.live.Some? && sys.live.Some? && next.live.value.core == sys.live.value.core
    ensures Apart(w, next)
  {
    hide Framed, Mute, AllAccounted;
    forall m | m in Puts(effects) ensures m.Put? && m.seqNo >= Boundary(sys.slot.value.state) {
      assert Covers(w, SendWire(sys.slot.value.state), m);
    }
  }

  lemma ReleasesApart(w: World, sys: System, c: Claim)
    requires Inv(w, sys) && Apart(w, sys) && sys.live == Some(c) && sys.outbox.Some? && sys.slot == sys.outbox
    ensures Apart(w, Called(w, sys, c, Releases))
  {
    hide SavedOk, AllCovered, SendWire, Moves, Near, Held, Wired, SentOk, Apart;
    CoveredNotBelow(w, sys, c.after, Called(w, sys, c, Releases));
  }

  lemma ResumesApart(w: World, sys: System, c: Claim)
    requires Inv(w, sys) && Apart(w, sys) && sys.live == Some(c)
    ensures Apart(w, Called(w, sys, c, Resumes))
  {
    hide SavedOk, SendWire, Moves, Held, Wired, SentOk, Resume, Near, Apart, AllCovered;
    var r := Resume(w, c);
    var next := Called(w, sys, c, Resumes);
    if r.Err? {
      StillApart(w, sys, next);
    } else {
      ResumeNeedsDurable(w, c);
      ResumeIsCovered(w, c);
      NearCovers(w, SendWire(sys.slot.value.state), SendWire(c.core), r.value);
      CoveredNotBelow(w, sys, r.value, next);
    }
  }

  lemma PersistsApart(w: World, sys: System)
    requires Inv(w, sys) && Apart(w, sys) && sys.outbox.Some?
    ensures Apart(w, sys.(slot := sys.outbox))
  {
    hide SavedOk, AllCovered, SendWire, Moves, Near, Held, Wired, Framed, Mute, AllAccounted;
  }

  lemma RestoresApart(w: World, sys: System, event: Event)
    requires Lawful(w) && Inv(w, sys) && Apart(w, sys) && event.Restores? && Possible(w, sys, event)
    ensures Apart(w, Happens(w, sys, event))
  {
    hide SavedOk, SendWire, Moves, Held, Wired, SentOk, Restore, Near, Lawful, Framed, Mute, AllAccounted;
    var saved := sys.slot.value;
    SlotRestores(w, saved, event.key, event.carrier, event.generation, event.now);
    SavedIsDurable(w, saved);
  }

  lemma CallApart(w: World, sys: System, c: Claim, event: Event)
    requires Lawful(w) && Inv(w, sys) && Apart(w, sys) && sys.live == Some(c) && Possible(w, sys, event)
             && !Splits(w, sys, event)
    ensures Apart(w, Called(w, sys, c, event))
  {
    hide Inv, Apart, Lawful, Splits, Barrier;
    match event
    case Receives(m, now, verdict) => hide Called; ReceivesApart(w, sys, c, m, now, verdict);
    case Early(o) => hide Called; EarlyApart(w, sys, c, o);
    case FinalApproval(o, key, nonce, now) =>
      OnlyReleasesSend(w, sys, c, event);
      if Called(w, sys, c, event).live == Some(c) { StillApart(w, sys, Called(w, sys, c, event)); }
      else { BarrierApart(w, sys, c, o, key, nonce, now, Some(c.core.endpoint.carrier.expiresAt), event); }
    case PayloadReady(o, key, nonce, now) =>
      OnlyReleasesSend(w, sys, c, event);
      if Called(w, sys, c, event).live == Some(c) { StillApart(w, sys, Called(w, sys, c, event)); }
      else { BarrierApart(w, sys, c, o, key, nonce, now, None, event); }
    case Releases => hide Called; ReleasesApart(w, sys, c);
    case Resumes => hide Called; ResumesApart(w, sys, c);
    case _ =>
      if event.Durable? || event.ReceiptArrives? || event.Authenticates? || event.Commits? {
        hide Called;
        DurableCallsStand(w, sys, c, event);
        StillApart(w, sys, Called(w, sys, c, event));
      }
  }

  lemma StepApart(w: World, sys: System, event: Event)
    requires Lawful(w) && Inv(w, sys) && Apart(w, sys) && Possible(w, sys, event) && !Splits(w, sys, event)
    ensures Apart(w, Happens(w, sys, event))
  {
    hide Called, Lawful, Inv, Apart, Splits;
    match event
    case Persists => PersistsApart(w, sys);
    case Crashes => StillApart(w, sys, Happens(w, sys, event));
    case Restores(_, _, _, _) => RestoresApart(w, sys, event);
    case _ => if sys.live.Some? { CallApart(w, sys, sys.live.value, event); }
  }

  // ---------------------------------------------------------------- every disciplined run

  lemma StartedApart(w: World, start: System)
    requires Started(w, start)
    ensures Apart(w, start)
  {
    hide Framed;
  }

  lemma {:induction false} EveryDisciplinedRun(w: World, start: System, events: seq<Event>)
    requires Lawful(w) && Started(w, start) && Feasible(w, start, events) && Disciplined(w, start, events, 0)
    ensures Apart(w, Execute(w, start, events))
  {
    hide Happens, Possible, Lawful, Inv, Apart, Splits, Started;
    if events == [] {
      StartedApart(w, start);
    } else {
      var n := |events| - 1;
      forall i | 0 <= i < n ensures !Splits(w, Execute(w, start, events[..n][..i]), events[..n][i]) {
        assert events[..n][..i] == events[..i];
        assert !Splits(w, Execute(w, start, events[..i]), events[i]);
      }
      EveryDisciplinedRun(w, start, events[..n]);
      EveryRun(w, start, events[..n]);
      StepApart(w, Execute(w, start, events[..n]), events[n]);
    }
  }

  lemma ApartIsSafe(w: World, sys: System)
    requires Lawful(w) && Inv(w, sys) && Apart(w, sys)
    ensures Safe(w, sys)
  {
    hide Lawful, SavedOk, LiveOk, Framed, OnePlaintextPerNonce, SendWire;
    forall m | m in AllPuts(sys) ensures Framed(w, V2.Claimant, m) {
      if m in sys.sent { assert Accounted(w, SendWire(sys.slot.value.state), m); }
    }
    OneBodyManyNonces(w, V2.Claimant, AllPuts(sys));
  }

  /** In every run that releases no Refusal between final approval and payload, all Puts a
      claimant ever releases for one sequence carry one body, and no nonce protects two of
      their plaintexts. */
  lemma DisciplinedIsSafe(w: World, start: System, events: seq<Event>)
    requires Lawful(w) && Started(w, start) && Feasible(w, start, events) && Disciplined(w, start, events, 0)
    ensures Safe(w, Execute(w, start, events))
  {
    hide Lawful, Started, Feasible, Execute, Disciplined, Safe, Inv, Apart;
    EveryRun(w, start, events);
    EveryDisciplinedRun(w, start, events);
    ApartIsSafe(w, Execute(w, start, events));
  }

  // ---------------------------------------------------------------- one key throughout

  predicate Keyed(core: Restored, keys: Keys, transcript: Bytes64) {
    core.channel.keys == keys && core.channel.transcript == transcript
  }

  predicate AllKeyed(sys: System, keys: Keys, transcript: Bytes64) {
    && (sys.live.Some? ==> Keyed(sys.live.value.core, keys, transcript))
    && (sys.slot.Some? ==> Keyed(sys.slot.value.state, keys, transcript))
    && (sys.outbox.Some? ==> Keyed(sys.outbox.value.state, keys, transcript))
  }

  lemma OutgoingKeepsKeys(w: World, c: Claim, o: Object)
    ensures Keyed(Outgoing(w, c, o).0, c.core.channel.keys, c.core.channel.transcript)
  {
    hide Apply;
  }

  lemma PeerApplicationKeepsKeys(w: World, core: Restored, peerSeq: u8, body: Bytes, verdict: OfferVerdict)
    requires PeerApplication(w, core, peerSeq, body, verdict).Ok?
    ensures Keyed(PeerApplication(w, core, peerSeq, body, verdict).value.0, core.channel.keys, core.channel.transcript)
  {
    hide Heard;
  }

  lemma OpenKeepsKeys(w: World, c: Claim, peerSeq: u8, body: Bytes)
    requires OpenReceipt(w, c, peerSeq, body).Ok?
    ensures Keyed(OpenReceipt(w, c, peerSeq, body).value.0, c.core.channel.keys, c.core.channel.transcript)
  {
    hide AuthenticateReceipt;
  }

  lemma EmitKeyed(sys: System, reply: Reply, keys: Keys, transcript: Bytes64)
    requires AllKeyed(sys, keys, transcript) && (reply.0.Some? ==> Keyed(reply.0.value.core, keys, transcript))
    ensures AllKeyed(Emit(sys, reply), keys, transcript)
  {
    hide Puts;
  }

  lemma BarrierKeyed(w: World, c: Claim, o: Object, key: Bytes32, nonce: Bytes12, now: u64)
    ensures forall r | r in {PrepareFinalApproval(w, c, o, key, nonce, now),
            PreparePayload(w, c, o, key, nonce, now)} && r.0.Some? ::
              Keyed(r.0.value.core, c.core.channel.keys, c.core.channel.transcript)
  {
    hide Outgoing, SealEndpoint;
    OutgoingKeepsKeys(w, c, o);
  }

  lemma ReceiveKeyed(w: World, c: Claim, m: ServerMessage, now: u64, verdict: OfferVerdict)
    ensures var next := Receive(w, c, m, now, verdict).0;
            next.Some? ==> Keyed(next.value.core, c.core.channel.keys, c.core.channel.transcript)
  {
    hide PeerApplication;
    if m.PeerFrame? && PeerApplication(w, c.core, m.peerSeq, m.body, verdict).Ok? {
      PeerApplicationKeepsKeys(w, c.core, m.peerSeq, m.body, verdict);
    }
  }

  lemma DurableKeyed(w: World, c: Claim, event: Event)
    requires event.Durable? || event.ReceiptArrives? || event.Authenticates? || event.Commits?
    ensures var next := match event
                        case Durable(m, now, key, nonce) => ReceiveDurable(w, c, m, now, key, nonce).0
                        case ReceiptArrives(m) => ReceiveReceipt(w, c, m).0
                        case Authenticates(o) => AuthenticateObject(w, c, o).0
                        case Commits(receipt) => CommitReceipt(w, c, receipt).0;
            next.Some? ==> Keyed(next.value.core, c.core.channel.keys, c.core.channel.transcript)
  {
    hide OpenReceipt, SealEndpoint, AuthenticateReceipt, RecoverReceipt;
    if event.ReceiptArrives? && event.m.PeerFrame? && OpenReceipt(w, c, event.m.peerSeq, event.m.body).Ok? {
      OpenKeepsKeys(w, c, event.m.peerSeq, event.m.body);
    }
  }

  lemma CallKeyed(w: World, sys: System, c: Claim, event: Event, keys: Keys, transcript: Bytes64)
    requires AllKeyed(sys, keys, transcript) && sys.live == Some(c)
    ensures AllKeyed(Called(w, sys, c, event), keys, transcript)
  {
    hide Outgoing, Puts, Emit, Receive, PrepareFinalApproval, PreparePayload, ReceiveDurable, ReceiveReceipt,
         AuthenticateObject,
         CommitReceipt, Resume;
    match event
    case Receives(m, now, verdict) =>
      ReceiveKeyed(w, c, m, now, verdict);
      EmitKeyed(sys, Receive(w, c, m, now, verdict), keys, transcript);
    case Early(o) => OutgoingKeepsKeys(w, c, o);
    case FinalApproval(o, key, nonce, now) =>
      BarrierKeyed(w, c, o, key, nonce, now);
      EmitKeyed(sys, PrepareFinalApproval(w, c, o, key, nonce, now), keys, transcript);
    case PayloadReady(o, key, nonce, now) =>
      BarrierKeyed(w, c, o, key, nonce, now);
      EmitKeyed(sys, PreparePayload(w, c, o, key, nonce, now), keys, transcript);
    case Resumes => EmitKeyed(sys, (Some(c), Resume(w, c)), keys, transcript);
    case Durable(m, now, key, nonce) =>
      DurableKeyed(w, c, event);
      EmitKeyed(sys, ReceiveDurable(w, c, m, now, key, nonce), keys, transcript);
    case Commits(receipt) =>
      DurableKeyed(w, c, event);
      EmitKeyed(sys, CommitReceipt(w, c, receipt), keys, transcript);
    case ReceiptArrives(_) => DurableKeyed(w, c, event);
    case Authenticates(_) => DurableKeyed(w, c, event);
    case _ =>
  }

  lemma StepKeyed(w: World, sys: System, event: Event, keys: Keys, transcript: Bytes64)
    requires Lawful(w) && Inv(w, sys) && Possible(w, sys, event) && AllKeyed(sys, keys, transcript)
    ensures AllKeyed(Happens(w, sys, event), keys, transcript)
  {
    hide Called, Lawful, SavedOk, SentOk, LiveOk, Restore;
    match event
    case Restores(key, carrier, generation, now) => SlotRestores(w, sys.slot.value, key, carrier, generation, now);
    case Persists =>
    case Crashes =>
    case _ => if sys.live.Some? { CallKeyed(w, sys, sys.live.value, event, keys, transcript); }
  }

  /** A run never changes its channel's keys, through crashes and restores too. */
  lemma {:induction false} EveryRunKeyed(w: World, start: System, events: seq<Event>)
    requires Lawful(w) && Started(w, start) && Feasible(w, start, events)
    ensures AllKeyed(Execute(w, start, events), start.live.value.core.channel.keys,
            start.live.value.core.channel.transcript)
  {
    if events != [] {
      hide Happens, Possible, Lawful, Inv, Started, AllKeyed;
      var n := |events| - 1;
      EveryRunKeyed(w, start, events[..n]);
      EveryRun(w, start, events[..n]);
      StepKeyed(w, Execute(w, start, events[..n]), events[n], start.live.value.core.channel.keys,
          start.live.value.core.channel.transcript);
    }
  }

  // ---------------------------------------------------------------- the failing runs

  /** A frame sealed afresh: under the next counter, at the next sequence. */
  lemma FreshlySealed(w: World, c: Claim, o: Object)
    requires Lawful(w) && Wired(c.core) && c.core.relay.cached.None? && Outgoing(w, c, o).1.Ok?
    ensures var put := Outgoing(w, c, o).1.value;
            && put.Send? && put.message.Put? && put.message.seqNo == c.core.relay.nextLocal
            && Encloses(w, V2.Claimant, put.message, c.core.channel.keys.sendKey, c.core.channel.keys.sendIv,
                 c.core.channel.transcript,
                        c.core.relay.nextLocal - 2, o.bytes)
  {
    hide Apply, EndpointRuns.Rank, DeriveNonce;
  }

  /** After a crash the checkpoint in the slot restores, and the restored session takes
      this payload. */
  predicate Payable(w: World, sys: System, p: Object, key: Bytes32, carrier: Carrier, generation: u64,
      restoredAt: u64, sealKey: Bytes32, nonce: Bytes12, now: u64)
  {
    && sys.slot.Some?
    && var r := Restore(w, sys.slot.value.checkpoint, key, carrier, generation, restoredAt);
       r.Ok? && PreparePayload(w, r.value, p, sealKey, nonce, now).1.Ok?
  }

  /** Crash, restore, send the payload: what a caller does next. */
  function Recovery(p: Object, key: Bytes32, carrier: Carrier, generation: u64, restoredAt: u64, sealKey: Bytes32,
      nonce: Bytes12, now: u64): seq<Event>
  {
    [Crashes, Restores(key, carrier, generation, restoredAt), PayloadReady(p, sealKey, nonce, now), Persists, Releases]
  }

  lemma OneMore(w: World, start: System, events: seq<Event>, event: Event)
    ensures Execute(w, start, events + [event]) == Happens(w, Execute(w, start, events), event)
    ensures Feasible(w, start, events + [event]) <==>
            Feasible(w, start, events) && Possible(w, Execute(w, start, events), event)
  {
    hide Happens, Possible;
    assert (events + [event])[..|events|] == events;
  }

  /** The refusal leaves at once, and the slot stays where it was. */
  lemma AfterRefusal(w: World, sys: System, o: Object)
    requires Lawful(w) && Inv(w, sys) && Splits(w, sys, Early(o))
    ensures var c := sys.live.value;
            var next := Happens(w, sys, Early(o));
            && sys.slot.Some? && next.slot == sys.slot && next.sent == sys.sent
            && exists m :: m in next.early && m.Put? && m.seqNo == sys.slot.value.state.relay.nextLocal
                 && Encloses(w, V2.Claimant, m, c.core.channel.keys.sendKey, c.core.channel.keys.sendIv,
                      c.core.channel.transcript,
                             c.core.relay.nextLocal - 2, o.bytes)
  {
    hide SavedOk, SentOk, Outgoing, Held, Lawful, Encloses, AllCovered, Moves;
    var c := sys.live.value;
    FreshlySealed(w, c, o);
    var put := Outgoing(w, c, o).1.value;
    hide Wired;
    assert PrepareEarly(w, c, o).1.value == [put];
    assert put.message in Puts([put]) by { assert [put][0].message == put.message; }
    assert put.message in Happens(w, sys, Early(o)).early;
  }

  /** A payload from the restored slot passes the barrier with a frame of its own. */
  lemma PayloadPut(w: World, saved: Saved, c: Claim, p: Object, key: Bytes32, nonce: Bytes12, now: u64)
    requires Lawful(w) && SavedOk(w, saved)
             && c == Claim(Image(saved.state, saved.checkpoint.generation, saved.checkpoint.nonce), None, [], false)
    requires Recognised(w, p) && PreparePayload(w, c, p, key, nonce, now).1.Ok?
    ensures var (next, r) := PreparePayload(w, c, p, key, nonce, now);
            && next.Some? && |r.value| == 1 && r.value[0].Save?
                 && next.value.gate == Some(r.value[0].checkpoint.generation)
            && |next.value.after| == 1 && next.value.after[0].Send?
            && var m := next.value.after[0].message;
               && m.Put? && m.seqNo == saved.state.relay.nextLocal
               && Encloses(w, V2.Claimant, m, saved.state.channel.keys.sendKey, saved.state.channel.keys.sendIv,
                    saved.state.channel.transcript,
                           saved.state.relay.nextLocal - 2, p.bytes)
  {
    hide Lawful, SavedOk, Encloses, SealEndpoint, PrepareOutbound;
    ImageFits(w, saved);
    NothingCachedBeforePayload(w, c, p);
    FreshlySealed(w, c, p);
    hide Outgoing;
    var core := Outgoing(w, c, p).0;
    SealGeneration(w, core, key, SaturatingSucc(core.endpoint.generation), None, nonce, now);
  }

  lemma NothingCachedBeforePayload(w: World, c: Claim, p: Object)
    requires Fit(w, c.core) && c.core.endpoint.phase.FinalApproved? && p.kind.Payload? && Outgoing(w, c, p).1.Ok?
    ensures c.core.relay.cached.None?
  {
    hide Apply, Retainable;
  }

  lemma {:induction false} RunsCompose(w: World, start: System, first: seq<Event>, second: seq<Event>)
    ensures Execute(w, start, first + second) == Execute(w, Execute(w, start, first), second)
    ensures Feasible(w, start, first + second) <==>
            Feasible(w, start, first) && Feasible(w, Execute(w, start, first), second)
    decreases |second|
  {
    hide Happens, Possible;
    if second == [] {
      assert first + second == first;
    } else {
      var n := |second| - 1;
      RunsCompose(w, start, first, second[..n]);
      assert (first + second)[..|first| + n] == first + second[..n];
    }
  }

  /** The message with this plaintext, under the sequence and counter the slot has next. */
  ghost predicate Carries(w: World, core: Restored, m: ClientMessage, plaintext: Bytes) {
    && m.Put? && core.relay.nextLocal >= 2 && m.seqNo == core.relay.nextLocal
    && Encloses(w, V2.Claimant, m, core.channel.keys.sendKey, core.channel.keys.sendIv, core.channel.transcript,
                core.relay.nextLocal - 2, plaintext)
  }

  /** Crash, restore and payload from any system with such a slot. */
  lemma RecoverySends(w: World, sys: System, p: Object, key: Bytes32, carrier: Carrier, generation: u64,
      restoredAt: u64, sealKey: Bytes32, nonce: Bytes12, now: u64)
    requires Lawful(w) && sys.slot.Some? && SavedOk(w, sys.slot.value) && Recognised(w, p)
    requires Payable(w, sys, p, key, carrier, generation, restoredAt, sealKey, nonce, now)
    ensures var tail := Recovery(p, key, carrier, generation, restoredAt, sealKey, nonce, now);
            && Feasible(w, sys, tail) && Execute(w, sys, tail).early == sys.early
            && exists m :: m in Execute(w, sys, tail).sent && Carries(w, sys.slot.value.state, m, p.bytes)
  {
    hide Lawful, SavedOk, Payable, Execute, Feasible, Happens, Carries;
    FiveSteps(w, sys, Crashes, Restores(key, carrier, generation, restoredAt), PayloadReady(p, sealKey, nonce, now),
        Persists, Releases);
    RecoveryStates(w, sys, p, key, carrier, generation, restoredAt, sealKey, nonce, now);
  }

  lemma FiveSteps(w: World, sys: System, a: Event, b: Event, c: Event, d: Event, e: Event)
    ensures var s1 := Happens(w, sys, a);
            var s2 := Happens(w, s1, b);
            var s3 := Happens(w, s2, c);
            var s4 := Happens(w, s3, d);
            && Execute(w, sys, [a, b, c, d, e]) == Happens(w, s4, e)
            && (Feasible(w, sys, [a, b, c, d, e]) <==>
                  Possible(w, sys, a) && Possible(w, s1, b) && Possible(w, s2, c) && Possible(w, s3, d)
                      && Possible(w, s4, e))
  {
    hide Happens, Possible;
    OneMore(w, sys, [], a);
    assert Feasible(w, sys, []) && Execute(w, sys, []) == sys;
    hide Execute, Feasible;
    OneMore(w, sys, [a], b);
    OneMore(w, sys, [a, b], c);
    OneMore(w, sys, [a, b, c], d);
    OneMore(w, sys, [a, b, c, d], e);
    assert [] + [a] == [a] && [a] + [b] == [a, b] && [a, b] + [c] == [a, b, c];
    assert [a, b, c] + [d] == [a, b, c, d] && [a, b, c, d] + [e] == [a, b, c, d, e];
  }

  lemma RecoveryStates(w: World, sys: System, p: Object, key: Bytes32, carrier: Carrier, generation: u64,
      restoredAt: u64, sealKey: Bytes32, nonce: Bytes12, now: u64)
    requires Lawful(w) && sys.slot.Some? && SavedOk(w, sys.slot.value) && Recognised(w, p)
    requires Payable(w, sys, p, key, carrier, generation, restoredAt, sealKey, nonce, now)
    ensures var s1 := Happens(w, sys, Crashes);
            var s2 := Happens(w, s1, Restores(key, carrier, generation, restoredAt));
            var s3 := Happens(w, s2, PayloadReady(p, sealKey, nonce, now));
            var s4 := Happens(w, s3, Persists);
            var s5 := Happens(w, s4, Releases);
            && s1.live.None? && s1.slot.Some? && s2.live.Some? && s3.outbox.Some? && s4.live.Some? && s4.outbox.Some?
                 && s4.slot == s4.outbox
            && s5.early == sys.early && exists m :: m in s5.sent && Carries(w, sys.slot.value.state, m, p.bytes)
  {
    hide Lawful, Restore, PreparePayload, Encloses, EncodeEndpoint;
    var saved := sys.slot.value;
    SlotRestores(w, saved, key, carrier, generation, restoredAt);
    var c := Restore(w, saved.checkpoint, key, carrier, generation, restoredAt).value;
    PayloadPut(w, saved, c, p, sealKey, nonce, now);
    assert saved.state.relay.nextLocal >= 2 by { SavedFits(w, saved); }
    hide SavedOk;
    var next := PreparePayload(w, c, p, sealKey, nonce, now).0.value;
    var m := next.after[0].message;
    assert m in Puts(next.after);
    assert Carries(w, saved.state, m, p.bytes);
  }

  lemma DifferentObjects(w: World, o: Object, p: Object)
    requires Recognised(w, o) && Recognised(w, p) && o.kind != p.kind
    ensures o.bytes != p.bytes
  {
  }

  /** Two plaintexts under one sequence and counter are two bodies under one nonce. */
  lemma TwoPlaintexts(w: World, core: Restored, sent: set<ClientMessage>, a: ClientMessage, b: ClientMessage,
      textA: Bytes, textB: Bytes)
    requires Lawful(w) && a in sent && b in sent && textA != textB
    requires Carries(w, core, a, textA) && Carries(w, core, b, textB)
    ensures !OneBodyPerSequence(sent) && !OnePlaintextPerNonce(w, V2.Claimant, sent)
  {
    hide Lawful, Encloses;
    var keys, transcript, counter := core.channel.keys, core.channel.transcript, core.relay.nextLocal - 2;
    if a == b {
      SameCiphertextSamePlaintext(w, V2.Claimant, a, keys.sendKey, keys.sendIv, transcript, counter, textA, textB);
    }
  }

  /** What the shell does after such a Refusal, step by step: it has released the Refusal,
      crashes, restores the checkpoint before it, and sends the payload. The run is
      feasible, and in it one sequence has two bodies and one nonce two plaintexts. */
  lemma RefusalThenPayload(w: World, start: System, events: seq<Event>, o: Object, p: Object, key: Bytes32,
      carrier: Carrier, generation: u64, restoredAt: u64, sealKey: Bytes32, nonce: Bytes12, now: u64)
    requires Lawful(w) && Started(w, start) && Feasible(w, start, events)
    requires Recognised(w, o) && Recognised(w, p) && Splits(w, Execute(w, start, events), Early(o))
    requires Payable(w, Execute(w, start, events), p, key, carrier, generation, restoredAt, sealKey, nonce, now)
    ensures var tail := Recovery(p, key, carrier, generation, restoredAt, sealKey, nonce, now);
            var run := events + [Early(o)] + tail;
            && Feasible(w, start, run) && Disciplined(w, start, run, |events| + 1)
            && !OneBodyPerSequence(AllPuts(Execute(w, start, run)))
            && !OnePlaintextPerNonce(w, V2.Claimant, AllPuts(Execute(w, start, run)))
  {
    hide Lawful, Started, Feasible, Execute, Happens, Payable, SavedOk, SentOk, LiveOk, OneBodyPerSequence,
         OnePlaintextPerNonce, Encloses, Splits;
    var sys := Execute(w, start, events);
    var tail := Recovery(p, key, carrier, generation, restoredAt, sealKey, nonce, now);
    EveryRun(w, start, events);
    OneMore(w, start, events, Early(o));
    var refused := Execute(w, start, events + [Early(o)]);
    RefusalCarried(w, start, events, o);
    var a :| a in refused.early && Carries(w, sys.slot.value.state, a, o.bytes);
    SamePayable(w, sys, refused, p, key, carrier, generation, restoredAt, sealKey, nonce, now);
    RecoverySends(w, refused, p, key, carrier, generation, restoredAt, sealKey, nonce, now);
    RunsCompose(w, start, events + [Early(o)], tail);
    var run := events + [Early(o)] + tail;
    var b :| b in Execute(w, start, run).sent && Carries(w, sys.slot.value.state, b, p.bytes);
    PayableKind(w, sys, p, key, carrier, generation, restoredAt, sealKey, nonce, now);
    SplitKind(w, sys, o);
    DifferentObjects(w, o, p);
    TwoPlaintexts(w, sys.slot.value.state, AllPuts(Execute(w, start, run)), a, b, o.bytes, p.bytes);
    forall n | |events| + 1 <= n < |run| ensures !Splits(w, Execute(w, start, run[..n]), run[n]) {
      assert run[n] == tail[n - |events| - 1] && !run[n].Early?;
      NotEarly(w, Execute(w, start, run[..n]), run[n]);
    }
  }

  lemma NotEarly(w: World, sys: System, event: Event)
    requires !event.Early?
    ensures !Splits(w, sys, event)
  {
  }

  lemma SplitKind(w: World, sys: System, o: Object)
    requires Splits(w, sys, Early(o))
    ensures o.kind.Refusal? && sys.live.Some? && EarlyIsPossible(w, sys, o)
  {
  }

  ghost predicate EarlyIsPossible(w: World, sys: System, o: Object) { Recognised(w, o) ==> Possible(w, sys, Early(o)) }

  lemma PayableKind(w: World, sys: System, p: Object, key: Bytes32, carrier: Carrier, generation: u64,
      restoredAt: u64, sealKey: Bytes32, nonce: Bytes12, now: u64)
    requires Payable(w, sys, p, key, carrier, generation, restoredAt, sealKey, nonce, now)
    ensures p.kind.Payload?
  {
    hide Restore, Barrier;
  }

  lemma SamePayable(w: World, sys: System, next: System, p: Object, key: Bytes32, carrier: Carrier, generation: u64,
      restoredAt: u64, sealKey: Bytes32, nonce: Bytes12, now: u64)
    requires Payable(w, sys, p, key, carrier, generation, restoredAt, sealKey, nonce, now) && next.slot == sys.slot
    ensures Payable(w, next, p, key, carrier, generation, restoredAt, sealKey, nonce, now)
  {
    hide Restore, PreparePayload;
  }

  lemma RefusalCarried(w: World, start: System, events: seq<Event>, o: Object)
    requires Lawful(w) && Started(w, start) && Feasible(w, start, events)
             && Splits(w, Execute(w, start, events), Early(o))
    ensures var sys := Execute(w, start, events);
            var next := Happens(w, sys, Early(o));
            && sys.slot.Some? && SavedOk(w, sys.slot.value) && next.slot == sys.slot
            && exists m :: m in next.early && Carries(w, sys.slot.value.state, m, o.bytes)
  {
    hide Lawful, Started, Feasible, Execute, Happens, SavedOk, SentOk, Encloses, AllCovered, Held, Moves, PrepareEarly;
    var sys := Execute(w, start, events);
    EveryRun(w, start, events);
    EveryRunKeyed(w, start, events);
    AfterRefusal(w, sys, o);
    var c, slot := sys.live.value, sys.slot.value.state;
    var m :| m in Happens(w, sys, Early(o)).early && m.Put? && m.seqNo == slot.relay.nextLocal
             && Encloses(w, V2.Claimant, m, c.core.channel.keys.sendKey, c.core.channel.keys.sendIv,
                  c.core.channel.transcript,
                         c.core.relay.nextLocal - 2, o.bytes);
    assert Carries(w, slot, m, o.bytes);
  }

  /** From any system a disciplined run has led to, with a payload its slot would accept:
      preparing an early object leaves every later disciplined run safe if and only if the
      call does not release a Refusal between final approval and payload. */
  lemma SafeExactlyWithoutRefusal(w: World, start: System, events: seq<Event>, o: Object, p: Object, key: Bytes32,
      carrier: Carrier, generation: u64, restoredAt: u64, sealKey: Bytes32, nonce: Bytes12, now: u64)
    requires Lawful(w) && Started(w, start) && Feasible(w, start, events) && Disciplined(w, start, events, 0)
    requires Recognised(w, o) && Recognised(w, p)
    requires Payable(w, Execute(w, start, events), p, key, carrier, generation, restoredAt, sealKey, nonce, now)
    ensures Splits(w, Execute(w, start, events), Early(o)) <==>
              exists tail :: var run := events + [Early(o)] + tail;
                Feasible(w, start, run) && Disciplined(w, start, run, |events| + 1) && !Safe(w, Execute(w, start, run))
  {
    hide Lawful, Started, Feasible, Execute, Payable, OneBodyPerSequence, OnePlaintextPerNonce, Splits;
    if Splits(w, Execute(w, start, events), Early(o)) {
      RefusalThenPayload(w, start, events, o, p, key, carrier, generation, restoredAt, sealKey, nonce, now);
    } else {
      forall tail: seq<Event>
        | Feasible(w, start, events + [Early(o)] + tail)
            && Disciplined(w, start, events + [Early(o)] + tail, |events| + 1)
        ensures Safe(w, Execute(w, start, events + [Early(o)] + tail))
      {
        var run := events + [Early(o)] + tail;
        forall n | 0 <= n < |run| ensures !Splits(w, Execute(w, start, run[..n]), run[n]) {
          if n < |events| {
            assert run[..n] == events[..n] && run[n] == events[n];
          } else if n == |events| {
            assert run[..n] == events && run[n] == Early(o);
          }
        }
        DisciplinedIsSafe(w, start, run);
      }
    }
  }
}
