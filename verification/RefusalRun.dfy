/** One run in full, in a world that refuses nothing: a claimant goes from its new channel
    through the consent path to a durable, acknowledged final approval, prepares a Refusal,
    crashes, and sends its payload under the same sequence and nonce. */
module RefusalRuns {
  import opened Base
  import opened V2
  import opened Projections
  import opened Channels
  import opened Endpoints
  import opened EndpointCodec
  import opened Checkpoints
  import opened Wires
  import opened Claimants
  import opened Cpace
  import opened Hypotheses
  import opened ClaimantRefusals
  import S = ClaimantSystem
  import Octets

  type System = S.System

  function Zero12(): Bytes12 { seq(12, _ => 0) }
  function One12(): Bytes12 { seq(12, _ => 1) }
  function Two12(): Bytes12 { seq(12, _ => 2) }
  function Zero64(): Bytes64 { seq(64, _ => 0) }

  function TheCarrier(): Carrier { Carrier([], [], Zero32(), Zero32(), Zero32(), Zero32(), 100, None) }

  function TheKeys(): Keys { Keys(Zero32(), Zero32(), Zero12(), Zero12(), Zero32()) }

  function Ciphertext(kind: Kind): Bytes { [KindNumber(kind)] + Zeros(16) }

  function Mine(counter: u64, kind: Kind): Frame { Sealed(ClaimantToAllocator, counter, Ciphertext(kind)) }

  function Theirs(counter: u64, kind: Kind): Frame { Sealed(AllocatorToClaimant, counter, Ciphertext(kind)) }

  /** A session that has sent `sent` objects and heard `heard`, the last of this kind. */
  function CoreAt(phase: Phase, sender: Side, kind: Kind, sent: nat, heard: nat, cached: Option<Frame>, generation: u64,
      nonce: Option<Bytes12>): Restored
    requires sent < 8 && heard < 8
  {
    Restored(
      Endpoint(V2.Claimant, TheCarrier(), phase, Some(Zero32()),
               Some(Last(sender, Some([KindNumber(kind)]), kind, Zero32(), Zero32())), [], generation, nonce),
      Channel(V2.Claimant, Zero64(), TheKeys(), Some(sent), Some(heard), false),
      Projection(Zero32(), 2 + sent, 2 + heard, cached.Some?, cached))
  }

  function FreshCore(): Restored {
    Restored(NewEndpoint(V2.Claimant, TheCarrier(), []),
        Channel(V2.Claimant, Zero64(), TheKeys(), Some(0), Some(0), false),
             Projection(Zero32(), 2, 2, false, None))
  }

  function Live(core: Restored): Claim { Claim(core, None, [], false) }

  lemma ObjectsAre(w: World, kind: Kind)
    requires Plain(w)
    ensures Recognised(w, ObjectOf(kind)) && w.decodeObject([KindNumber(kind)]) == Ok(ObjectOf(kind))
  {
  }

  /** Sealing any object under the plain world's cipher. */
  lemma SealsPlainly(w: World, c: Channel, kind: Kind)
    requires Plain(w) && c.side.Claimant? && !c.terminal && c.nextSend.Some? && c.nextSend.value < 8
    ensures c.CanSeal([KindNumber(kind)]).None?
    ensures c.Seal(w, [KindNumber(kind)]) == Ok((c.(nextSend := Some(c.nextSend.value + 1)),
            Mine(c.nextSend.value, kind)))
  {
  }

  lemma OpensPlainly(w: World, c: Channel, kind: Kind)
    requires Plain(w) && c.side.Claimant? && !c.terminal && c.nextReceive.Some? && c.nextReceive.value < 8
    ensures c.Open(w, Theirs(c.nextReceive.value, kind))
         == (c.(nextReceive := Some(c.nextReceive.value + 1)), Ok([KindNumber(kind)]))
  {
    var counter := c.nextReceive.value;
    var nonce, aad := Octets.DeriveNonce(c.keys.receiveIv, counter),
        w.sealedAad(AllocatorToClaimant, counter, c.transcript);
    assert w.encrypt(c.keys.receiveKey, nonce, aad, [KindNumber(kind)]) == Ciphertext(kind);
  }

  lemma PutsPlainly(w: World, sequence: u8, counter: u64, kind: Kind)
    requires Plain(w) && sequence <= 15
    ensures RelayPut(w, sequence, Mine(counter, kind))
            == Ok(Send(Put(sequence, w.encodeFrame(Mine(counter, kind)).value)))
  {
    assert |Mine(counter, kind).ciphertext| == 17;
  }

  // ---------------------------------------------------------------- one object at a time

  /** Kinds the claimant sends along the path, each unlike the object before it. */
  predicate Sendable(phase: Phase, sender: Side, before: Kind, kind: Kind, next: Phase) {
    && NextPhase(phase, kind) == Some(next) && !phase.Ended? && ValidSender(kind, V2.Claimant)
    && !kind.AccountSelect? && !kind.Offer? && (before != kind || sender.Allocator?)
  }

  lemma OwnApplies(w: World, e: Endpoint, kind: Kind, next: Phase)
    requires Plain(w) && e.side.Claimant? && e.carrier.ceremony == Zero32() && e.intent == Some(Zero32())
             && e.last.Some?
    requires e.last.value.hash == Zero32() && Sendable(e.phase, e.last.value.sender, e.last.value.kind, kind, next)
    ensures Apply(w, e, ObjectOf(kind), V2.Claimant)
         == (e.(last := Some(Last(V2.Claimant, Some([KindNumber(kind)]), kind, Zero32(), Zero32())), phase := next),
             Ok(Advanced))
  {
  }

  lemma OwnObject(w: World, c: Claim, phase: Phase, sender: Side, before: Kind, sent: nat, heard: nat, generation: u64,
      nonce: Option<Bytes12>, kind: Kind, next: Phase)
    requires Plain(w) && sent < 7 && heard < 8 && Sendable(phase, sender, before, kind, next)
    requires c.core == CoreAt(phase, sender, before, sent, heard, None, generation, nonce)
    ensures Outgoing(w, c, ObjectOf(kind))
         == (CoreAt(next, V2.Claimant, kind, sent + 1, heard, Some(Mine(sent, kind)), generation, nonce),
             Ok(Send(Put(2 + sent, w.encodeFrame(Mine(sent, kind)).value))))
  {
    OwnApplies(w, c.core.endpoint, kind, next);
    SealsPlainly(w, c.core.channel, kind);
    PutsPlainly(w, 2 + sent, sent, kind);
    hide Plain, Apply, Channel.Seal, RelayPut, Ciphertext;
  }

  lemma PeerObject(w: World, phase: Phase, before: Kind, sent: nat, heard: nat, kind: Kind, next: Phase,
      verdict: OfferVerdict)
    requires Plain(w) && sent < 8 && heard < 7 && !PreOffer(phase) && !phase.Ended?
             && NextPhase(phase, kind) == Some(next)
    requires ValidSender(kind, V2.Allocator) && !kind.Offer? && !kind.Refusal?
    ensures var r := PeerApplication(w, CoreAt(phase, V2.Claimant, before, sent, heard, None, 0, None), 2 + heard,
                                     w.encodeFrame(Theirs(heard, kind)).value, verdict);
            r.Ok? && r.value.0 == CoreAt(next, V2.Allocator, kind, sent, heard + 1, None, 0, None)
  {
    var core := CoreAt(phase, V2.Claimant, before, sent, heard, None, 0, None);
    OpensPlainly(w, core.channel, kind);
    ObjectsAre(w, kind);
    assert w.decodeFrame(w.encodeFrame(Theirs(heard, kind)).value) == Ok(Theirs(heard, kind));
    PeerApplies(w, core.endpoint, kind, next);
    hide Ciphertext, Channel.Open, Plain, Apply;
  }

  lemma PeerApplies(w: World, e: Endpoint, kind: Kind, next: Phase)
    requires Plain(w) && e.carrier.ceremony == Zero32() && e.intent == Some(Zero32()) && e.last.Some?
    requires e.last.value.hash == Zero32() && e.last.value.sender.Claimant? && !e.phase.Ended?
    requires NextPhase(e.phase, kind) == Some(next) && ValidSender(kind, V2.Allocator) && !kind.Offer? && !kind.Refusal?
    ensures Apply(w, e, ObjectOf(kind), V2.Allocator)
         == (e.(last := Some(Last(V2.Allocator, Some([KindNumber(kind)]), kind, Zero32(), Zero32())), phase := next),
             Ok(Advanced))
  {
  }

  lemma FirstOffer(w: World)
    requires Plain(w)
    ensures var r := PeerApplication(w, FreshCore(), 2, w.encodeFrame(Theirs(0, Offer)).value,
            Presents(Zero32(), [], None));
            r.Ok? && r.value.0 == CoreAt(Offered, V2.Allocator, Offer, 0, 1, None, 0, None)
  {
    var core := FreshCore();
    OpensPlainly(w, core.channel, Offer);
    ObjectsAre(w, Offer);
    assert w.decodeFrame(w.encodeFrame(Theirs(0, Offer)).value) == Ok(Theirs(0, Offer));
    hide Ciphertext, Channel.Open, Plain;
  }

  lemma SmallEncoding(w: World, phase: Phase, kind: Kind, sent: nat, heard: nat, cached: Option<Frame>, g: u64,
      n: Option<Bytes12>, generation: u64, nonce: Bytes12)
    requires Plain(w) && sent < 8 && heard < 8 && (cached.Some? ==> Short(cached.value))
    ensures var s := EncodeEndpoint(w, CoreAt(phase, V2.Claimant, kind, sent, heard, cached, g, n), generation, nonce);
            s.Ok? && 0 < |s.value| <= EndpointCodec.MAX_PLAINTEXT
  {
    var r := CoreAt(phase, V2.Claimant, kind, sent, heard, cached, g, n);
    var last := Kept(r.endpoint.last, r.endpoint.side, r.relay);
    assert PutLast(last).Ok? && |PutLast(last).value| <= 100;
    RelayIsSmall(w, r.relay);
    assert |PutChannel(r.channel)| <= 300;
    assert |w.encodeCarrier(TheCarrier())| <= 4_000;
    hide PutLast, PutRelay, PutChannel, Plain, Kept;
  }

  predicate Short(frame: Frame) { frame.Sealed? && |frame.ciphertext| == 17 }

  lemma RelayIsSmall(w: World, relay: Projection)
    requires Plain(w) && (relay.cached.Some? ==> Short(relay.cached.value))
    ensures PutRelay(w, relay).Ok? && |PutRelay(w, relay).value| <= 200
  {
  }

  // ---------------------------------------------------------------- before final approval

  /** Nothing durable yet; the session stands here. */
  predicate Stage(sys: System, core: Restored) {
    sys.live == Some(Live(core)) && sys.outbox.None? && sys.slot.None? && sys.sent == {}
  }

  function Hears(w: World, heard: nat, kind: Kind): S.Event
    requires heard < 8
  {
    S.Receives(PeerFrame(2 + heard, (if w.encodeFrame(Theirs(heard, kind)).Ok?
        then w.encodeFrame(Theirs(heard, kind)).value else [])), 0,
               Presents(Zero32(), [], None))
  }

  function Acks(sequence: u8): S.Event { S.Receives(Acknowledged(sequence), 0, Presents(Zero32(), [], None)) }

  /** One step from here to there, possible and harmless. */
  ghost predicate Steps(w: World, sys: System, event: S.Event, core: Restored) {
    S.Possible(w, sys, event) && Stage(S.Happens(w, sys, event), core) && !Splits(w, sys, event)
  }

  lemma OfferStep(w: World, sys: System)
    requires Plain(w) && Stage(sys, FreshCore())
    ensures Steps(w, sys, Hears(w, 0, Offer), CoreAt(Offered, V2.Allocator, Offer, 0, 1, None, 0, None))
  {
    assert w.encodeFrame(Theirs(0, Offer)).Ok?;
    hide Plain, PeerApplication, S.Puts, S.Happens, S.Possible;
    FirstOffer(w);
    PeerEffects(w, FreshCore(), 2, w.encodeFrame(Theirs(0, Offer)).value, Presents(Zero32(), [], None));
    PeerStep(w, sys, FreshCore(), 0, Offer, CoreAt(Offered, V2.Allocator, Offer, 0, 1, None, 0, None));
  }

  /** Hearing a peer object that applies. */
  lemma PeerStep(w: World, sys: System, core: Restored, heard: nat, kind: Kind, next: Restored)
    requires Plain(w) && Stage(sys, core) && heard < 7 && core.endpoint.carrier == TheCarrier()
    requires !core.endpoint.phase.FinalApproved? && !core.endpoint.phase.PayloadSent?
    requires var r := PeerApplication(w, core, 2 + heard, w.encodeFrame(Theirs(heard, kind)).value,
             Presents(Zero32(), [], None));
             r.Ok? && r.value.0 == next && S.Puts(r.value.1) == {} && r.value.1[0].Send?
    ensures Steps(w, sys, Hears(w, heard, kind), next)
  {
    assert w.encodeFrame(Theirs(heard, kind)).Ok?;
    hide Plain, PeerApplication, S.Puts;
  }

  lemma ConfirmationStep(w: World, sys: System)
    requires Plain(w) && Stage(sys, CoreAt(Prepared, V2.Claimant, Preparation, 2, 1, None, 0, None))
    ensures Steps(w, sys, Hears(w, 1, ComparisonConfirmed),
                  CoreAt(Phase.Confirmed, V2.Allocator, ComparisonConfirmed, 2, 2, None, 0, None))
  {
    assert w.encodeFrame(Theirs(1, ComparisonConfirmed)).Ok?;
    hide Plain, PeerApplication, S.Puts, S.Happens, S.Possible;
    var core := CoreAt(Prepared, V2.Claimant, Preparation, 2, 1, None, 0, None);
    PeerObject(w, Prepared, Preparation, 2, 1, ComparisonConfirmed, Phase.Confirmed, Presents(Zero32(), [], None));
    PeerEffects(w, core, 3, w.encodeFrame(Theirs(1, ComparisonConfirmed)).value, Presents(Zero32(), [], None));
    PeerStep(w, sys, core, 1, ComparisonConfirmed,
        CoreAt(Phase.Confirmed, V2.Allocator, ComparisonConfirmed, 2, 2, None, 0, None));
  }

  lemma PeerEffects(w: World, core: Restored, peerSeq: u8, body: Bytes, verdict: OfferVerdict)
    requires PeerApplication(w, core, peerSeq, body, verdict).Ok?
    ensures var effects := PeerApplication(w, core, peerSeq, body, verdict).value.1;
            S.Puts(effects) == {} && effects[0].Send?
  {
    hide Heard;
  }

  lemma OwnStep(w: World, sys: System, phase: Phase, sender: Side, before: Kind, sent: nat, heard: nat, kind: Kind,
      next: Phase)
    requires Plain(w) && sent < 7 && heard < 8 && Sendable(phase, sender, before, kind, next) && EarlyKind(kind)
    requires !phase.FinalApproved? && Stage(sys, CoreAt(phase, sender, before, sent, heard, None, 0, None))
    ensures Steps(w, sys, S.Early(ObjectOf(kind)),
                  CoreAt(next, V2.Claimant, kind, sent + 1, heard, Some(Mine(sent, kind)), 0, None))
  {
    ObjectsAre(w, kind);
    OwnObject(w, sys.live.value, phase, sender, before, sent, heard, 0, None, kind, next);
    hide Plain, Outgoing, S.Puts;
  }

  lemma AckStep(w: World, sys: System, phase: Phase, kind: Kind, sent: nat, heard: nat)
    requires 0 < sent < 8 && heard < 8 && !phase.FinalApproved? && !phase.PayloadSent?
    requires Stage(sys, CoreAt(phase, V2.Claimant, kind, sent, heard, Some(Mine(sent - 1, kind)), 0, None))
    ensures Steps(w, sys, Acks(1 + sent), CoreAt(phase, V2.Claimant, kind, sent, heard, None, 0, None))
  {
    hide Mine;
  }

  // ---------------------------------------------------------------- final approval

  /** The core after a checkpoint of this generation. */
  function Approved(cached: Option<Frame>, generation: u64, nonce: Bytes12): Restored {
    CoreAt(FinalApproved, V2.Claimant, FinalApprove, 3, 2, cached, generation, Some(nonce))
  }

  function ApprovalFrame(): Frame { Mine(2, FinalApprove) }

  /** A checkpoint of that core, written and confirmed. */
  predicate Written(saved: Wires.Saved<Restored>, core: Restored, generation: u64) {
    saved.state == core && saved.checkpoint.key == Zero32() && saved.checkpoint.generation == generation
  }

  predicate Waits(sys: System, core: Restored, generation: u64) {
    && sys.live.Some? && sys.live.value.core == core && sys.live.value.gate == Some(generation)
         && !sys.live.value.receiptPending
    && sys.outbox.Some? && Written(sys.outbox.value, core, generation)
  }

  predicate Stands(sys: System, core: Restored, generation: u64) {
    sys.live == Some(Live(core)) && sys.outbox.None? && sys.slot.Some? && Written(sys.slot.value, core, generation)
  }

  lemma SealsPlain(w: World, phase: Phase, kind: Kind, sent: nat, cached: Option<Frame>, g: u64, n: Option<Bytes12>,
      expiry: Option<u64>, nonce: Bytes12)
    requires Plain(w) && sent < 8 && (cached.Some? ==> Short(cached.value)) && g < 8 && n != Some(nonce)
    requires if phase.FinalApproved? then expiry == Some(100) else phase.PayloadSent? && expiry.None?
    ensures var core := CoreAt(phase, V2.Claimant, kind, sent, 2, cached, g, n);
            var c := SealEndpoint(w, core, Zero32(), g + 1, expiry, nonce, 0);
            c.Ok? && c.value.key == Zero32() && c.value.generation == g + 1
  {
    hide EncodeEndpoint, Plain;
    SmallEncoding(w, phase, kind, sent, 2, cached, g, n, g + 1, nonce);
  }

  /** Passing the barrier in the plain world. */
  lemma BarrierPasses(w: World, c: Claim, phase: Phase, sender: Side, before: Kind, sent: nat, g: u64,
      n: Option<Bytes12>,
      kind: Kind, next: Phase, nonce: Bytes12, expiry: Option<u64>)
    requires Plain(w) && sent < 7 && g < 8 && n != Some(nonce) && Sendable(phase, sender, before, kind, next)
    requires c == Live(CoreAt(phase, sender, before, sent, 2, None, g, n))
    requires if next.FinalApproved? then expiry == Some(100) else next.PayloadSent? && expiry.None?
    ensures var (live, r) := Barrier(w, c, ObjectOf(kind), Zero32(), nonce, 0, expiry);
            && live.Some? && live.value.core == CoreAt(next, V2.Claimant, kind, sent + 1, 2, Some(Mine(sent, kind)),
                 g + 1, Some(nonce))
            && live.value.gate == Some(g + 1) && !live.value.receiptPending && r.Ok? && |r.value| == 1
                 && r.value[0].Save?
            && r.value[0].checkpoint.key == Zero32() && r.value[0].checkpoint.generation == g + 1
  {
    hide Plain, Outgoing, SealEndpoint;
    OwnObject(w, c, phase, sender, before, sent, 2, g, n, kind, next);
    SealsPlain(w, next, kind, sent + 1, Some(Mine(sent, kind)), g, n, expiry, nonce);
  }

  lemma ApprovalStep(w: World, sys: System)
    requires Plain(w) && Stage(sys, CoreAt(Phase.Confirmed, V2.Allocator, ComparisonConfirmed, 2, 2, None, 0, None))
    ensures var event := S.FinalApproval(ObjectOf(FinalApprove), Zero32(), One12(), 0);
            && S.Possible(w, sys, event) && !Splits(w, sys, event)
            && Waits(S.Happens(w, sys, event), Approved(Some(ApprovalFrame()), 1, One12()), 1)
  {
    hide Plain, S.Puts, Barrier, Recognised;
    ObjectsAre(w, FinalApprove);
    BarrierPasses(w, sys.live.value, Phase.Confirmed, V2.Allocator, ComparisonConfirmed, 2, 0, None, FinalApprove,
        FinalApproved,
                  One12(), Some(100));
  }

  lemma Settles(w: World, c: Claim)
    requires Plain(w) && c == Live(Approved(Some(ApprovalFrame()), 1, One12()))
    ensures var (live, r) := ReceiveDurable(w, c, Acknowledged(4), 0, Zero32(), Two12());
            && live.Some? && live.value.core == Approved(None, 2, Two12()) && live.value.gate == Some(2)
                 && !live.value.receiptPending
            && r.Ok? && |r.value| == 1 && r.value[0].Save?
            && r.value[0].checkpoint.key == Zero32() && r.value[0].checkpoint.generation == 2
  {
    hide Plain, SealEndpoint, Mine;
    assert One12()[0] != Two12()[0];
    SealsPlain(w, FinalApproved, FinalApprove, 3, None, 1, Some(One12()), Some(100), Two12());
  }

  lemma ConfirmStep(w: World, sys: System, core: Restored, generation: u64)
    requires Waits(sys, core, generation)
    ensures S.Possible(w, sys, S.Persists) && !Splits(w, sys, S.Persists)
    ensures var written := S.Happens(w, sys, S.Persists);
            && S.Possible(w, written, S.Releases) && !Splits(w, written, S.Releases)
            && Stands(S.Happens(w, written, S.Releases), core, generation)
  {
    hide S.Puts;
  }

  lemma SettleStep(w: World, sys: System)
    requires Plain(w) && Stands(sys, Approved(Some(ApprovalFrame()), 1, One12()), 1)
    ensures var event := S.Durable(Acknowledged(4), 0, Zero32(), Two12());
            && S.Possible(w, sys, event) && !Splits(w, sys, event)
            && Waits(S.Happens(w, sys, event), Approved(None, 2, Two12()), 2)
  {
    hide Plain, S.Puts, ReceiveDurable;
    Settles(w, sys.live.value);
  }

  // ---------------------------------------------------------------- the whole run

  function Start(): System { S.System(Some(Live(FreshCore())), None, None, {}, {}) }

  function ToApproval(w: World): seq<S.Event> {
    [Hears(w, 0, Offer), S.Early(ObjectOf(IntentApprove)), Acks(2), S.Early(ObjectOf(Preparation)), Acks(3),
     Hears(w, 1, ComparisonConfirmed), S.FinalApproval(ObjectOf(FinalApprove), Zero32(), One12(), 0), S.Persists,
         S.Releases,
     S.Durable(Acknowledged(4), 0, Zero32(), Two12()), S.Persists, S.Releases]
  }

  /** A run so far: feasible, and without an early Refusal past final approval. */
  ghost predicate Runs(w: World, events: seq<S.Event>, sys: System) {
    S.Feasible(w, Start(), events) && Disciplined(w, Start(), events, 0) && S.Execute(w, Start(), events) == sys
  }

  lemma Extends(w: World, all: seq<S.Event>, n: nat, sys: System)
    requires n < |all| && Runs(w, all[..n], sys) && S.Possible(w, sys, all[n]) && !Splits(w, sys, all[n])
    ensures Runs(w, all[..n + 1], S.Happens(w, sys, all[n]))
  {
    hide S.Happens, S.Possible, Splits, Start;
    var events, more := all[..n], all[..n + 1];
    assert more == events + [all[n]];
    OneMore(w, Start(), events, all[n]);
    hide S.Execute, S.Feasible;
    forall k | 0 <= k < |more| ensures !Splits(w, S.Execute(w, Start(), more[..k]), more[k]) {
      if k < n {
        assert more[..k] == events[..k] && more[k] == events[k];
      } else {
        assert more[..k] == events;
      }
    }
  }

  lemma NothingRuns(w: World, all: seq<S.Event>)
    ensures Runs(w, all[..0], Start()) && S.Started(w, Start()) && Stage(Start(), FreshCore())
  {
  }

  /** The consent path, object by object. */
  lemma ToConfirmation(w: World) returns (sys: System)
    requires Plain(w)
    ensures Runs(w, ToApproval(w)[..6], sys)
    ensures Stage(sys, CoreAt(Phase.Confirmed, V2.Allocator, ComparisonConfirmed, 2, 2, None, 0, None))
  {
    hide Plain, S.Happens, S.Possible, Splits, Runs, Stage, CoreAt, FreshCore;
    var events := ToApproval(w);
    NothingRuns(w, events);
    sys := Start();
    OfferStep(w, sys);
    Extends(w, events, 0, sys);
    sys := S.Happens(w, sys, events[0]);
    OwnStep(w, sys, Offered, V2.Allocator, Offer, 0, 1, IntentApprove, IntentApproved);
    Extends(w, events, 1, sys);
    sys := S.Happens(w, sys, events[1]);
    AckStep(w, sys, IntentApproved, IntentApprove, 1, 1);
    Extends(w, events, 2, sys);
    sys := S.Happens(w, sys, events[2]);
    OwnStep(w, sys, IntentApproved, V2.Claimant, IntentApprove, 1, 1, Preparation, Prepared);
    Extends(w, events, 3, sys);
    sys := S.Happens(w, sys, events[3]);
    AckStep(w, sys, Prepared, Preparation, 2, 1);
    Extends(w, events, 4, sys);
    sys := S.Happens(w, sys, events[4]);
    ConfirmationStep(w, sys);
    Extends(w, events, 5, sys);
    sys := S.Happens(w, sys, events[5]);
  }

  /** And on to a final approval that is durable, sent and acknowledged. */
  lemma ApprovedRun(w: World) returns (sys: System)
    requires Plain(w)
    ensures Runs(w, ToApproval(w), sys) && Stands(sys, Approved(None, 2, Two12()), 2)
  {
    hide Plain, S.Happens, S.Possible, Splits, Runs, Stage, CoreAt, Approved, Waits, Stands;
    var events := ToApproval(w);
    sys := ToConfirmation(w);
    ApprovalStep(w, sys);
    Extends(w, events, 6, sys);
    sys := S.Happens(w, sys, events[6]);
    ConfirmStep(w, sys, Approved(Some(ApprovalFrame()), 1, One12()), 1);
    Extends(w, events, 7, sys);
    sys := S.Happens(w, sys, events[7]);
    Extends(w, events, 8, sys);
    sys := S.Happens(w, sys, events[8]);
    SettleStep(w, sys);
    Extends(w, events, 9, sys);
    sys := S.Happens(w, sys, events[9]);
    ConfirmStep(w, sys, Approved(None, 2, Two12()), 2);
    Extends(w, events, 10, sys);
    sys := S.Happens(w, sys, events[10]);
    Extends(w, events, 11, sys);
    sys := S.Happens(w, sys, events[11]);
    assert events[..12] == events;
  }

  lemma RefusalLeaves(w: World, sys: System)
    requires Plain(w) && Stands(sys, Approved(None, 2, Two12()), 2)
    ensures Splits(w, sys, S.Early(ObjectOf(Refusal)))
  {
    hide Plain, Outgoing;
    OwnObject(w, sys.live.value, FinalApproved, V2.Claimant, FinalApprove, 3, 2, 2, Some(Two12()), Refusal, Ended);
  }

  lemma PayloadFollows(w: World, sys: System)
    requires Plain(w) && Stands(sys, Approved(None, 2, Two12()), 2) && S.SavedOk(w, sys.slot.value)
    ensures Payable(w, sys, ObjectOf(Payload), Zero32(), TheCarrier(), 2, 0, Zero32(), One12(), 0)
  {
    hide Plain, PreparePayload, Restore, S.SavedOk, Stands, Approved;
    SlotReturns(w, sys);
    PayloadPasses(w);
  }

  /** The slot restores to the session that was sealed. */
  lemma SlotReturns(w: World, sys: System)
    requires Plain(w) && Stands(sys, Approved(None, 2, Two12()), 2) && S.SavedOk(w, sys.slot.value)
    ensures sys.slot.Some?
    ensures Restore(w, sys.slot.value.checkpoint, Zero32(), TheCarrier(), 2, 0) == Ok(Live(Approved(None, 2, Two12())))
  {
    assert Lawful(w);
    hide Plain, Restore, Lawful, S.Fit, EncodeEndpoint;
    var saved := sys.slot.value;
    assert saved.checkpoint.nonce == Two12() && saved.checkpoint.generation == 2;
    hide S.SavedOk;
    S.SavedRestoresExactly(w, saved, Zero32(), TheCarrier(), 2, 0);
    S.SlotRestores(w, saved, Zero32(), TheCarrier(), 2, 0);
  }

  lemma PayloadPasses(w: World)
    requires Plain(w)
    ensures PreparePayload(w, Live(Approved(None, 2, Two12())), ObjectOf(Payload), Zero32(), One12(), 0).1.Ok?
  {
    hide Plain, Barrier;
    assert One12()[0] != Two12()[0];
    BarrierPasses(w, Live(Approved(None, 2, Two12())), FinalApproved, V2.Claimant, FinalApprove, 3, 2, Some(Two12()),
        Payload,
                  PayloadSent, One12(), None);
  }

  /** The run in full: up to here it is disciplined, the Refusal leaves, and after crash,
      restore and payload one sequence has two bodies and one nonce two plaintexts. */
  lemma RefusalRun(w: World)
    requires Plain(w)
    ensures var tail := Recovery(ObjectOf(Payload), Zero32(), TheCarrier(), 2, 0, Zero32(), One12(), 0);
            var run := ToApproval(w) + [S.Early(ObjectOf(Refusal))] + tail;
            && S.Started(w, Start()) && S.Feasible(w, Start(), run)
            && Disciplined(w, Start(), ToApproval(w), 0) && Disciplined(w, Start(), run, |ToApproval(w)| + 1)
            && !OneBodyPerSequence(AllPuts(S.Execute(w, Start(), run)))
            && !OnePlaintextPerNonce(w, V2.Claimant, AllPuts(S.Execute(w, Start(), run)))
  {
    assert Lawful(w);
    hide Plain, S.Execute, S.Feasible, Splits, Payable, Stands, Disciplined, ToApproval, Start, Lawful, Approved,
         Recovery;
    var sys := ApprovedRun(w);
    NothingRuns(w, ToApproval(w));
    S.EveryRun(w, Start(), ToApproval(w));
    ObjectsAre(w, Refusal);
    ObjectsAre(w, Payload);
    RefusalLeaves(w, sys);
    SlotIsSaved(w, sys);
    PayloadFollows(w, sys);
    RefusalThenPayload(w, Start(), ToApproval(w), ObjectOf(Refusal), ObjectOf(Payload), Zero32(), TheCarrier(), 2, 0,
        Zero32(),
                       One12(), 0);
  }

  lemma SlotIsSaved(w: World, sys: System)
    requires S.Inv(w, sys) && Stands(sys, Approved(None, 2, Two12()), 2)
    ensures S.SavedOk(w, sys.slot.value)
  {
  }
}
