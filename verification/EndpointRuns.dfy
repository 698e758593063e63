/** Whole runs of one credential/v2 endpoint, against the sequence of objects it
    accepted: the consent path, the hash chain, and agreement of two runs. */
module EndpointRuns {
  import opened Base
  import opened V2
  import opened Endpoints

  /** Every way an endpoint is driven; `Forget` is a restart from a checkpoint that
      omitted the bytes of the last object. */
  datatype Op =
    | Send(sent: Object)
    | Receive(received: Object)
    | FirstOffer(offer: Object, authority: (Bytes32, Bytes), refusal: Option<Fault>)
    | Authenticate(candidate: Object)
    | Recover(receipt: Object, minted: ReceiptAuthority)
    | Forget

  datatype Entry = Entry(sender: Side, o: Object)

  datatype Run = Run(endpoint: Endpoint, accepted: seq<Entry>)

  function Log(run: Run, outcome: (Endpoint, Outcome<Advance>), sender: Side, o: Object): Run {
    Run(outcome.0,
        if outcome.1.Ok? && outcome.1.value != ExactRetransmission then run.accepted + [Entry(sender, o)]
            else run.accepted)
  }

  function Do(w: World, run: Run, op: Op): Run {
    var e := run.endpoint;
    match op
    case Send(o) => Log(run, Apply(w, e, o, e.side), e.side, o)
    case Receive(o) => Log(run, Apply(w, e, o, e.side.Opposite()), e.side.Opposite(), o)
    case FirstOffer(o, authority, refusal) => Log(run, ReceiveOffer(e, o, authority, refusal), V2.Allocator, o)
    case Authenticate(o) => run.(endpoint := AuthenticateReceipt(w, e, o).0)
    case Recover(o, minted) => Log(run, RecoverReceipt(w, e, o, minted), V2.Allocator, o)
    case Forget =>
      run.(endpoint := e.(last := match e.last case None => None case Some(last) => Some(last.(bytes := None))))
  }

  function Execute(w: World, start: Endpoint, ops: seq<Op>): Run {
    if ops == [] then Run(start, []) else Do(w, Execute(w, start, ops[..|ops| - 1]), ops[|ops| - 1])
  }

  // ---------------------------------------------------------------- consent path

  function Rank(phase: Phase): nat {
    match phase
    case Begin => 0
    case AccountSelected => 1
    case Offered => 2
    case IntentApproved => 3
    case Prepared => 4
    case Confirmed => 5
    case FinalApproved => 6
    case PayloadSent => 7
    case Ended => 8
  }

  lemma NextRaisesRank(phase: Phase, kind: Kind)
    ensures NextPhase(phase, kind).Some? && !phase.Ended? ==> Rank(phase) < Rank(NextPhase(phase, kind).value)
  {
  }

  lemma ApplyRaisesRank(w: World, e: Endpoint, o: Object, sender: Side)
    ensures var (next, r) := Apply(w, e, o, sender);
            && Rank(e.phase) <= Rank(next.phase)
            && (r.Ok? && r.value != ExactRetransmission ==> Rank(e.phase) < Rank(next.phase))
  {
    NextRaisesRank(e.phase, o.kind);
    hide NextPhase, ValidSender, Retransmits;
  }

  /** Every accepted object strictly raises the rank, and no call ever lowers it;
      in particular nothing is accepted once the endpoint has ended. */
  lemma AcceptanceRaisesRank(w: World, run: Run, op: Op)
    ensures Rank(run.endpoint.phase) <= Rank(Do(w, run, op).endpoint.phase)
    ensures Do(w, run, op).accepted != run.accepted ==> Rank(run.endpoint.phase) < Rank(Do(w, run, op).endpoint.phase)
  {
    var e := run.endpoint;
    match op
    case Send(o) => ApplyRaisesRank(w, e, o, e.side); hide Apply;
    case Receive(o) => ApplyRaisesRank(w, e, o, e.side.Opposite()); hide Apply;
    case FirstOffer(_, _, _) =>
    case Authenticate(_) =>
    case Recover(_, _) =>
    case Forget =>
  }

  /** The protocol's arrows: where an accepted kind leads from a phase. */
  function Arrow(phase: Phase, kind: Kind): Option<Phase> {
    match phase
    case Begin => if kind.AccountSelect? then Some(AccountSelected) else if kind.Offer? then Some(Offered) else None
    case AccountSelected => if kind.Offer? then Some(Offered) else None
    case _ => NextPhase(phase, kind)
  }

  /** The phase a sequence of kinds leads to from Begin. */
  function PhaseAfter(kinds: seq<Kind>): Option<Phase> {
    if kinds == [] then Some(Begin)
    else match PhaseAfter(kinds[..|kinds| - 1])
      case None => None
      case Some(phase) => Arrow(phase, kinds[|kinds| - 1])
  }

  function KindsOf(accepted: seq<Entry>): (r: seq<Kind>)
    ensures |r| == |accepted|
  {
    seq(|accepted|, i requires 0 <= i < |accepted| => accepted[i].o.kind)
  }

  predicate Successor(kind: Kind) { !kind.Offer? && !kind.AccountSelect? }

  /** Entry `i` names the content hash of the entry before it. */
  ghost predicate Bound(w: World, accepted: seq<Entry>, i: nat)
    requires i < |accepted|
  {
    Successor(accepted[i].o.kind) ==>
      && i > 0
      && w.logicalBody(accepted[i].o).Ok?
      && w.logicalBody(accepted[i].o).value.predecessor == accepted[i - 1].o.hash
      && accepted[i].o.intent == accepted[i - 1].o.intent
  }

  ghost predicate Holds(last: Last, entry: Entry) {
    && last.sender == entry.sender && last.kind == entry.o.kind && last.intent == entry.o.intent
         && last.hash == entry.o.hash
    && (last.bytes.Some? ==> last.bytes.value == entry.o.bytes)
  }

  /** What the run has accepted, as the endpoint's own fields and hashes attest it. */
  ghost predicate Traced(w: World, run: Run) {
    var e, accepted := run.endpoint, run.accepted;
    && (accepted == [] <==> e.last.None?)
    && (accepted != [] ==> Holds(e.last.value, accepted[|accepted| - 1]))
    && (e.intent.Some? <==> (accepted != [] && !accepted[|accepted| - 1].o.kind.AccountSelect?))
    && (e.intent.Some? ==> e.intent.value == accepted[|accepted| - 1].o.intent)
    && PhaseAfter(KindsOf(accepted)).Some?
    && (!e.phase.Ended? ==> PhaseAfter(KindsOf(accepted)) == Some(e.phase))
    && (forall i :: 0 <= i < |accepted| ==> ValidSender(accepted[i].o.kind, accepted[i].sender))
    && (forall i :: 0 <= i < |accepted| ==> Bound(w, accepted, i))
    && (forall i :: 0 <= i < |accepted| && accepted[i].o.kind.AccountSelect? ==>
         i == 0 && accepted[i].o.intent == w.selectionDigest)
  }

  /** One more kind follows one more arrow. */
  lemma OneMore(w: World, run: Run, entry: Entry)
    requires Traced(w, run) && !run.endpoint.phase.Ended?
    ensures PhaseAfter(KindsOf(run.accepted + [entry])) == Arrow(run.endpoint.phase, entry.o.kind)
  {
    var kinds := KindsOf(run.accepted + [entry]);
    assert kinds[..|kinds| - 1] == KindsOf(run.accepted);
  }

  lemma Appended(w: World, run: Run, next: Endpoint, entry: Entry)
    requires Traced(w, run) && !run.endpoint.phase.Ended?
    requires next == Accept(run.endpoint.(verifier := next.verifier, intent := next.intent), entry.o, entry.sender,
             next.phase)
    requires next.intent == if entry.o.kind.AccountSelect? then run.endpoint.intent else Some(entry.o.intent)
    requires ValidSender(entry.o.kind, entry.sender)
    requires Arrow(run.endpoint.phase, entry.o.kind) == Some(next.phase)
    requires Bound(w, run.accepted + [entry], |run.accepted|)
    requires entry.o.kind.AccountSelect? ==> run.endpoint.last.None? && entry.o.intent == w.selectionDigest
    ensures Traced(w, Run(next, run.accepted + [entry]))
  {
    OneMore(w, run, entry);
    hide PhaseAfter, KindsOf, Arrow, ValidSender;
    var accepted := run.accepted + [entry];
    forall i | 0 <= i < |accepted| ensures Bound(w, accepted, i) {
      if i < |run.accepted| { assert Bound(w, run.accepted, i); }
    }
  }

  /** Ending, or changing only the verifier, accepts nothing. */
  lemma SameTraced(w: World, run: Run, next: Endpoint)
    requires Traced(w, run) && next.last == run.endpoint.last && next.intent == run.endpoint.intent
    requires next.phase == run.endpoint.phase || next.phase.Ended?
    ensures Traced(w, Run(next, run.accepted))
  {
    hide PhaseAfter, KindsOf, Bound, ValidSender, Holds;
  }

  /** A successor that names the last hash and the standing intent is bound. */
  lemma SuccessorBound(w: World, run: Run, entry: Entry)
    requires Traced(w, run) && run.endpoint.last.Some? && run.endpoint.intent == Some(entry.o.intent)
    requires w.logicalBody(entry.o).Ok? && w.logicalBody(entry.o).value.predecessor == run.endpoint.last.value.hash
    ensures Bound(w, run.accepted + [entry], |run.accepted|)
  {
    hide PhaseAfter, KindsOf, ValidSender;
  }

  lemma SuccessorTraced(w: World, run: Run, o: Object, sender: Side)
    requires Traced(w, run) && !run.endpoint.phase.Ended? && Successor(o.kind) && ValidSender(o.kind, sender)
    ensures Traced(w, Log(run, ApplySuccessor(w, run.endpoint, o, sender), sender, o))
  {
    PreOfferHasNoIntent(w, run);
    hide Traced, ValidSender;
    var (next, r) := ApplySuccessor(w, run.endpoint, o, sender);
    if r.Ok? {
      SuccessorBound(w, run, Entry(sender, o));
      Appended(w, run, next, Entry(sender, o));
    } else {
      SameTraced(w, run, next);
    }
  }

  lemma PreOfferHasNoIntent(w: World, run: Run)
    requires Traced(w, run)
    ensures run.endpoint.intent.Some? && !run.endpoint.phase.Ended? ==> !PreOffer(run.endpoint.phase)
  {
    if run.endpoint.intent.Some? && !run.endpoint.phase.Ended? {
      OfferComesFirst(KindsOf(run.accepted));
    }
  }

  lemma ApplyTraced(w: World, run: Run, o: Object, sender: Side)
    requires Traced(w, run)
    ensures Traced(w, Log(run, Apply(w, run.endpoint, o, sender), sender, o))
  {
    hide Traced, ValidSender, ApplySuccessor, Retransmits;
    var e := run.endpoint;
    var (next, r) := Apply(w, e, o, sender);
    if !Retransmits(e, o, sender) && !e.phase.Ended? && !(e.phase.PayloadSent? && o.kind.Refusal?)
        && ValidSender(o.kind, sender) && Successor(o.kind) {
      SuccessorTraced(w, run, o, sender);
    } else if r.Ok? && r.value != ExactRetransmission {
      Appended(w, run, next, Entry(sender, o));
    } else {
      SameTraced(w, run, next);
    }
  }

  lemma OfferTraced(w: World, run: Run, o: Object, authority: (Bytes32, Bytes), refusal: Option<Fault>)
    requires Traced(w, run)
    ensures Traced(w, Log(run, ReceiveOffer(run.endpoint, o, authority, refusal), V2.Allocator, o))
  {
    NoIntentBeforeOffer(w, run);
    hide Traced, Retransmits;
    var (next, r) := ReceiveOffer(run.endpoint, o, authority, refusal);
    if r == Ok(DisplayIntent) { Appended(w, run, next, Entry(V2.Allocator, o)); } else { SameTraced(w, run, next); }
  }

  lemma NoIntentBeforeOffer(w: World, run: Run)
    requires Traced(w, run)
    ensures PreOffer(run.endpoint.phase) ==> run.endpoint.intent.None?
  {
    PreOfferHasNoIntent(w, run);
  }

  lemma RecoverTraced(w: World, run: Run, o: Object, minted: ReceiptAuthority)
    requires Traced(w, run)
    ensures Traced(w, Log(run, RecoverReceipt(w, run.endpoint, o, minted), V2.Allocator, o))
  {
    hide Traced;
    var (next, r) := RecoverReceipt(w, run.endpoint, o, minted);
    if r.Ok? {
      SuccessorBound(w, run, Entry(V2.Allocator, o));
      Appended(w, run, next, Entry(V2.Allocator, o));
    } else {
      SameTraced(w, run, next);
    }
  }

  lemma DoTraced(w: World, run: Run, op: Op)
    requires Traced(w, run)
    ensures Traced(w, Do(w, run, op))
  {
    hide PhaseAfter, KindsOf, Bound, Apply, ReceiveOffer, RecoverReceipt;
    match op
    case Send(o) => hide Traced; ApplyTraced(w, run, o, run.endpoint.side);
    case Receive(o) => hide Traced; ApplyTraced(w, run, o, run.endpoint.side.Opposite());
    case FirstOffer(o, authority, refusal) => hide Traced; OfferTraced(w, run, o, authority, refusal);
    case Authenticate(o) => hide Traced; SameTraced(w, run, AuthenticateReceipt(w, run.endpoint, o).0);
    case Recover(o, minted) => hide Traced; RecoverTraced(w, run, o, minted);
    case Forget =>
  }

  lemma {:induction false} ExecuteTraced(w: World, side: Side, carrier: Carrier, verifier: Bytes, ops: seq<Op>)
    ensures Traced(w, Execute(w, NewEndpoint(side, carrier, verifier), ops))
  {
    if ops != [] {
      ExecuteTraced(w, side, carrier, verifier, ops[..|ops| - 1]);
      DoTraced(w, Execute(w, NewEndpoint(side, carrier, verifier), ops[..|ops| - 1]), ops[|ops| - 1]);
    }
  }

  // ---------------------------------------------------------------- no skipped consent

  /** The only road to each phase, oldest kind first. */
  function Road(phase: Phase, confirmation: Kind): seq<Kind>
    decreases Rank(phase)
  {
    match phase
    case Begin | AccountSelected | Ended => []
    case Offered => [Offer]
    case IntentApproved => Road(Offered, confirmation) + [IntentApprove]
    case Prepared => Road(IntentApproved, confirmation) + [Preparation]
    case Confirmed => Road(Prepared, confirmation) + [confirmation]
    case FinalApproved => Road(Confirmed, confirmation) + [FinalApprove]
    case PayloadSent => Road(FinalApproved, confirmation) + [Payload]
  }

  /** The kinds are the road to the phase, with the one choice of how the comparison
      was confirmed and the one optional account selection in front. */
  ghost predicate OnRoad(kinds: seq<Kind>, phase: Phase) {
    exists confirmation | confirmation in {ComparisonConfirmed, BindingConfirmed} ::
      OnRoadBy(kinds, phase, confirmation)
  }

  ghost predicate OnRoadBy(kinds: seq<Kind>, phase: Phase, confirmation: Kind) {
    kinds == Road(phase, confirmation) || kinds == [AccountSelect] + Road(phase, confirmation)
  }

  lemma {:induction false} OnlyRoad(kinds: seq<Kind>, phase: Phase)
    requires PhaseAfter(kinds) == Some(phase) && !phase.Ended?
    ensures OnRoad(kinds, phase)
    ensures phase.Begin? <==> kinds == []
  {
    hide OnRoad, Arrow;
    if kinds == [] {
      RoadBegins();
    } else {
      var n := |kinds| - 1;
      var before := PhaseAfter(kinds[..n]).value;
      assert Arrow(before, kinds[n]) == Some(phase);
      hide PhaseAfter;
      NothingFollowsTheEnd(kinds[n]);
      OnlyRoad(kinds[..n], before);
      assert kinds == kinds[..n] + [kinds[n]];
      RoadStep(kinds[..n], before, kinds[n]);
    }
  }

  lemma RoadBegins()
    ensures OnRoad([], Begin)
  {
    assert OnRoadBy([], Begin, ComparisonConfirmed);
  }

  lemma NothingFollowsTheEnd(kind: Kind)
    ensures Arrow(Ended, kind).None? || Arrow(Ended, kind).value.Ended?
  {
  }

  lemma RoadStep(kinds: seq<Kind>, before: Phase, kind: Kind)
    requires OnRoad(kinds, before) && (before.Begin? <==> kinds == [])
    requires Arrow(before, kind).Some? && !Arrow(before, kind).value.Ended?
    ensures OnRoad(kinds + [kind], Arrow(before, kind).value) && !Arrow(before, kind).value.Begin?
  {
    var phase := Arrow(before, kind).value;
    var c :| c in {ComparisonConfirmed, BindingConfirmed} && OnRoadBy(kinds, before, c);
    if PreOffer(before) {
      assert OnRoadBy(kinds + [kind], phase, c);
    } else {
      hide OnRoad;
      RoadExtends(kinds, before, c, kind);
    }
  }

  lemma RoadExtends(kinds: seq<Kind>, before: Phase, c: Kind, kind: Kind)
    requires c in {ComparisonConfirmed, BindingConfirmed} && OnRoadBy(kinds, before, c)
    requires Rank(before) >= 2 && NextPhase(before, kind).Some? && !NextPhase(before, kind).value.Ended?
    ensures OnRoad(kinds + [kind], NextPhase(before, kind).value) && !NextPhase(before, kind).value.Begin?
  {
    var phase := NextPhase(before, kind).value;
    var confirmation := if phase.Confirmed? then kind else c;
    assert Road(phase, confirmation) == Road(before, c) + [kind];
    assert OnRoadBy(kinds + [kind], phase, confirmation);
  }

  /** No run reaches a phase without every consent step before it: the accepted
      kinds are the road to the phase, each from the role allowed to send it. */
  lemma NoConsentStepSkipped(w: World, side: Side, carrier: Carrier, verifier: Bytes, ops: seq<Op>)
    ensures var run := Execute(w, NewEndpoint(side, carrier, verifier), ops);
            && (forall i :: 0 <= i < |run.accepted| ==> ValidSender(run.accepted[i].o.kind, run.accepted[i].sender))
            && (!run.endpoint.phase.Ended? ==> OnRoad(KindsOf(run.accepted), run.endpoint.phase))
  {
    ExecuteTraced(w, side, carrier, verifier, ops);
    var run := Execute(w, NewEndpoint(side, carrier, verifier), ops);
    hide OnRoad, Execute, PhaseAfter;
    if !run.endpoint.phase.Ended? { OnlyRoad(KindsOf(run.accepted), run.endpoint.phase); }
  }

  // ---------------------------------------------------------------- checkpoint shape

  /** A live endpoint, or an allocator that released its Receipt, has the shape the
      checkpoint decoder demands. */
  ghost predicate Sealable(w: World, e: Endpoint) {
    (e.phase.Ended? && !ReceiptReleased(e)) || ConsistentProjection(w, e.phase, e.intent, e.last)
  }

  lemma ApplySealable(w: World, e: Endpoint, o: Object, sender: Side)
    requires Sealable(w, e)
    ensures Sealable(w, Apply(w, e, o, sender).0)
  {
  }

  lemma DoSealable(w: World, run: Run, op: Op)
    requires Sealable(w, run.endpoint)
    ensures Sealable(w, Do(w, run, op).endpoint)
  {
    var e := run.endpoint;
    match op
    case Send(o) => ApplySealable(w, e, o, e.side); hide Apply, Sealable;
    case Receive(o) => ApplySealable(w, e, o, e.side.Opposite()); hide Apply, Sealable;
    case FirstOffer(_, _, _) =>
    case Authenticate(_) =>
    case Recover(_, _) =>
    case Forget =>
  }

  lemma {:induction false} ExecuteSealable(w: World, side: Side, carrier: Carrier, verifier: Bytes, ops: seq<Op>)
    ensures Sealable(w, Execute(w, NewEndpoint(side, carrier, verifier), ops).endpoint)
  {
    if ops != [] {
      ExecuteSealable(w, side, carrier, verifier, ops[..|ops| - 1]);
      DoSealable(w, Execute(w, NewEndpoint(side, carrier, verifier), ops[..|ops| - 1]), ops[|ops| - 1]);
    }
  }

  // ---------------------------------------------------------------- agreement

  /** The accepted history from the Offer on. */
  function FromOffer(accepted: seq<Entry>): seq<Entry> {
    if accepted != [] && accepted[0].o.kind.AccountSelect? then accepted[1..] else accepted
  }

  /** No two accepted objects of the two runs collide under SHA-256. */
  ghost predicate NoCollision(w: World, a: seq<Entry>, b: seq<Entry>) {
    forall i, j :: 0 <= i < |a| && 0 <= j < |b| ==>
      Recognised(w, a[i].o) && Recognised(w, b[j].o)
      && (w.sha256(a[i].o.bytes) == w.sha256(b[j].o.bytes) ==> a[i].o.bytes == b[j].o.bytes)
  }

  /** A history whose first object is its only Offer and whose every other object
      names the hash of the one before it. */
  ghost predicate Chained(w: World, s: seq<Entry>) {
    forall i :: 0 <= i < |s| ==> Linked(w, s, i)
  }

  ghost predicate Linked(w: World, s: seq<Entry>, i: nat)
    requires i < |s|
  {
    && (s[i].o.kind.Offer? <==> i == 0)
    && (i > 0 ==> w.logicalBody(s[i].o).Ok? && w.logicalBody(s[i].o).value.predecessor == s[i - 1].o.hash)
  }

  lemma ChainPrefix(w: World, s: seq<Entry>, n: nat)
    requires Chained(w, s) && n <= |s|
    ensures Chained(w, s[..n])
  {
    forall i | 0 <= i < n ensures Linked(w, s[..n], i) { assert Linked(w, s, i); }
  }

  lemma {:induction false} OfferComesFirst(kinds: seq<Kind>)
    requires PhaseAfter(kinds).Some? && kinds != []
    ensures var start := if kinds[0].AccountSelect? then 1 else 0;
            && (start < |kinds| ==> kinds[start].Offer?)
            && (forall i :: start < i < |kinds| ==> Successor(kinds[i]))
            && (|kinds| > start ==> Rank(PhaseAfter(kinds).value) >= 2)
            && (|kinds| == start ==> PhaseAfter(kinds) == Some(AccountSelected))
  {
    var n := |kinds| - 1;
    if n == 0 {
      assert kinds[..n] == [];
    } else {
      var before := PhaseAfter(kinds[..n]).value;
      assert PhaseAfter(kinds) == Arrow(before, kinds[n]);
      hide PhaseAfter;
      OfferComesFirst(kinds[..n]);
    }
  }

  lemma FromOfferIsChained(w: World, run: Run)
    requires Traced(w, run)
    ensures Chained(w, FromOffer(run.accepted))
  {
    var s, accepted := FromOffer(run.accepted), run.accepted;
    if accepted != [] {
      OfferComesFirst(KindsOf(accepted));
      var start := |accepted| - |s|;
      forall i | 0 <= i < |s| ensures Linked(w, s, i) {
        assert Bound(w, accepted, start + i);
        assert KindsOf(accepted)[start + i] == s[i].o.kind;
      }
    }
  }

  function ObjectsOf(s: seq<Entry>): (r: seq<Object>)
    ensures |r| == |s|
  {
    seq(|s|, i requires 0 <= i < |s| => s[i].o)
  }

  lemma {:induction false} ChainsAgree(w: World, a: seq<Entry>, b: seq<Entry>)
    requires Chained(w, a) && Chained(w, b) && NoCollision(w, a, b)
    requires a != [] && b != [] && a[|a| - 1].o.hash == b[|b| - 1].o.hash
    ensures ObjectsOf(a) == ObjectsOf(b)
  {
    var n, m := |a| - 1, |b| - 1;
    assert a[n].o == b[m].o && Linked(w, a, n) && Linked(w, b, m);
    if n > 0 && m > 0 {
      ChainPrefix(w, a, n);
      ChainPrefix(w, b, m);
      ChainsAgree(w, a[..n], b[..m]);
      assert ObjectsOf(a) == ObjectsOf(a[..n]) + [a[n].o];
      assert ObjectsOf(b) == ObjectsOf(b[..m]) + [b[m].o];
    }
  }

  lemma SameLastSameObjects(w: World, a: Run, b: Run)
    requires Traced(w, a) && Traced(w, b) && NoCollision(w, a.accepted, b.accepted)
    requires a.endpoint.last.Some? && b.endpoint.last.Some? && a.endpoint.last.value.hash == b.endpoint.last.value.hash
    ensures ObjectsOf(FromOffer(a.accepted)) == ObjectsOf(FromOffer(b.accepted))
  {
    hide Traced, NoCollision, Chained;
    LastAccepted(w, a);
    LastAccepted(w, b);
    SameHashSameObject(w, a.accepted, b.accepted);
    FromOfferIsChained(w, a);
    FromOfferIsChained(w, b);
    if a.accepted[|a.accepted| - 1].o.kind.AccountSelect? {
      assert |a.accepted| == 1 && |b.accepted| == 1;
    } else {
      FewerCollide(w, a.accepted, b.accepted);
      ChainsAgree(w, FromOffer(a.accepted), FromOffer(b.accepted));
    }
  }

  /** The last object is the last one accepted, and a selection is the only one. */
  lemma LastAccepted(w: World, run: Run)
    requires Traced(w, run) && run.endpoint.last.Some?
    ensures var n := |run.accepted| - 1;
            n >= 0 && run.endpoint.last.value.hash == run.accepted[n].o.hash
            && (run.accepted[n].o.kind.AccountSelect? ==> n == 0)
  {
    hide PhaseAfter, KindsOf, Bound, ValidSender;
  }

  lemma SameHashSameObject(w: World, a: seq<Entry>, b: seq<Entry>)
    requires a != [] && b != [] && NoCollision(w, a, b) && a[|a| - 1].o.hash == b[|b| - 1].o.hash
    ensures a[|a| - 1].o == b[|b| - 1].o
  {
  }

  lemma FewerCollide(w: World, a: seq<Entry>, b: seq<Entry>)
    requires NoCollision(w, a, b)
    ensures NoCollision(w, FromOffer(a), FromOffer(b))
  {
    hide Recognised;
  }

  /** Agreement by hash chain: if two endpoints, on either side and after any runs,
      hold a last object with the same content hash, they accepted the same objects
      from the Offer on, receipt recovery included. */
  lemma SameLastObjectSameHistory(w: World, sideA: Side, carrierA: Carrier, verifierA: Bytes, opsA: seq<Op>,
      sideB: Side, carrierB: Carrier, verifierB: Bytes, opsB: seq<Op>)
    requires var a := Execute(w, NewEndpoint(sideA, carrierA, verifierA), opsA);
             var b := Execute(w, NewEndpoint(sideB, carrierB, verifierB), opsB);
             && NoCollision(w, a.accepted, b.accepted)
             && a.endpoint.last.Some? && b.endpoint.last.Some?
             && a.endpoint.last.value.hash == b.endpoint.last.value.hash
    ensures var a := Execute(w, NewEndpoint(sideA, carrierA, verifierA), opsA);
            var b := Execute(w, NewEndpoint(sideB, carrierB, verifierB), opsB);
            ObjectsOf(FromOffer(a.accepted)) == ObjectsOf(FromOffer(b.accepted))
  {
    hide Execute, Traced, NoCollision;
    ExecuteTraced(w, sideA, carrierA, verifierA, opsA);
    ExecuteTraced(w, sideB, carrierB, verifierB, opsB);
    SameLastSameObjects(w, Execute(w, NewEndpoint(sideA, carrierA, verifierA), opsA),
                        Execute(w, NewEndpoint(sideB, carrierB, verifierB), opsB));
  }
}
