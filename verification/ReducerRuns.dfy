/** Whole runs of the v1 reducer: at most one grant, never without consent and key
    confirmation, and nothing at all after the end. */
module ReducerRuns {
  import opened Base
  import opened Reducers

  datatype Call =
    | BootstrapControl(a: Answers)
    | Finish(a: Answers)
    | Receive(frame: Frame, a: Answers)
    | RetryPeerFinished(peer: Side, a: Answers)
    | Cancel
    | RelayClosed(reason: Reason)
    | Offer(intended: Pending, a: Answers)
    | Choose(decision: Decision, control: Bytes, body: Bytes, a: Answers)
    | Pay(paid: Pending, a: Answers)

  function Invoke(o: Oracle, r: Reducer, call: Call): Reply {
    match call
    case BootstrapControl(a) => AdmitBootstrap(r, a)
    case Finish(a) => LocalFinished(r, a)
    case Receive(frame, a) => ReceiveFrame(o, r, frame, a)
    case RetryPeerFinished(peer, a) => RetryFinished(r, peer, a)
    case Cancel => Ends(r, Cancelled)
    case RelayClosed(reason) => Ends(r, reason)
    case Offer(p, a) => SendIntent(o, r, p, a)
    case Choose(decision, control, body, a) => Decide(o, r, decision, control, body, a)
    case Pay(p, a) => SendPayload(o, r, p, a)
  }

  /** What has happened so far: was a channel confirmed, which intents were approved by
      this endpoint's own decision, which grants came out. */
  datatype Past = Past(confirmed: bool, approved: set<Bytes32>, granted: seq<Bytes32>)

  datatype Run = Run(r: Reducer, past: Past)

  function Grants(effects: seq<Effect>): seq<Bytes32> {
    if effects == [] then []
    else Grants(effects[..|effects| - 1]) + if effects[|effects| - 1].DeliverGrant?
        then [effects[|effects| - 1].digest] else []
  }

  /** The call brought the peer's Finished value, and it matched. */
  predicate Confirms(call: Call) {
    (call.Receive? && call.frame.FinishedFrame? && call.a.confirms) || (call.RetryPeerFinished? && call.a.confirms)
  }

  /** Keys count as confirmed once such a call gave the reducer a channel it did not have. */
  function Remember(past: Past, r: Reducer, call: Call, reply: Reply): Past {
    Past(past.confirmed || (Confirms(call) && !r.channel && reply.0.channel),
         if call.Choose? && call.decision.Approve? && reply.1 == Ok([SendFrame]) && r.intent.Some?
         then past.approved + {r.intent.value.digest} else past.approved,
         past.granted + if reply.1.Ok? then Grants(reply.1.value) else [])
  }

  function Step(o: Oracle, run: Run, call: Call): Run {
    var reply := Invoke(o, run.r, call);
    Run(reply.0, Remember(run.past, run.r, call, reply))
  }

  function Execute(o: Oracle, start: Reducer, calls: seq<Call>): Run {
    if calls == [] then Run(start, Past(false, {}, []))
        else Step(o, Execute(o, start, calls[..|calls| - 1]), calls[|calls| - 1])
  }

  // ---------------------------------------------------------------- invariant

  /** Everything secret is gone and the invitation cannot be used again. */
  predicate Gone(r: Reducer) {
    !r.ceremonyKey && !r.bootstrap && !r.pendingChannel && !r.channel && !r.session && !r.localFinished
    && r.pendingFinished.None? && r.pending == [] && r.intent.None? && r.decision.None? && r.payloadControl.None?
    && r.record.status.Spent? && r.record.binding.None?
  }

  predicate Sound(r: Reducer) {
    && (r.terminal.Some? ==> Gone(r) && r.delivered <= 1)
    && (r.terminal.None? ==> r.delivered == if r.payloadControl.Some? then 1 else 0)
    && (r.session ==> r.channel)
    && (r.channel ==> r.record.status.Spent?)
    && (r.side.Claimant? && r.decision.Some? ==> r.intent.Some?)
  }

  /** The claimant's standing approval is of an intent it approved. */
  predicate Consents(r: Reducer, approved: set<Bytes32>) {
    r.side.Claimant? && r.decision.Some? && r.decision.value.decision.Approve? ==>
        r.intent.Some? && r.intent.value.digest in approved
  }

  /** What a step of the machinery may do: never lower the count, grant no more than it
      counts, and grant only to an approved intent on the claimant's side. */
  ghost predicate Earned(r: Reducer, next: Reducer, before: seq<Effect>, after: seq<Effect>, approved: set<Bytes32>) {
    && next.side == r.side
    && |Grants(after)| - |Grants(before)| <= next.delivered - r.delivered
    && r.delivered <= next.delivered
    && (forall g | g in Grants(after) :: g in Grants(before) || (g in approved && r.side.Claimant?))
  }

  lemma {:induction false} GrantsAppend(a: seq<Effect>, b: seq<Effect>)
    ensures Grants(a + b) == Grants(a) + Grants(b)
  {
    if b == [] {
      assert a + b == a;
    } else {
      var n := |b| - 1;
      assert (a + b)[..|a| + n] == a + b[..n];
      GrantsAppend(a, b[..n]);
    }
  }

  lemma GrantsOfOne(effect: Effect)
    ensures Grants([]) == [] && Grants([effect]) == if effect.DeliverGrant? then [effect.digest] else []
  {
    assert [effect][..0] == [];
  }

  ghost predicate Kept(r: Reducer, reply: Reply, approved: set<Bytes32>) {
    && Sound(reply.0) && Consents(reply.0, approved)
    && Earned(r, reply.0, [], if reply.1.Ok? then reply.1.value else [], approved)
    && (reply.0.terminal.None? ==> reply.0.session == r.session && reply.0.channel == r.channel)
  }

  lemma FailIsSound(r: Reducer, reason: Reason, error: Error, approved: set<Bytes32>)
    requires Sound(r)
    ensures Kept(r, Fail(r, reason, error), approved) && Kept(r, (Terminated(r, reason), Ok([CloseMailbox])), approved)
  {
    GrantsOfOne(CloseMailbox);
  }

  lemma IdleIsSound(r: Reducer, error: Error, approved: set<Bytes32>)
    requires Sound(r) && Consents(r, approved)
    ensures Kept(r, (r, Err(error)), approved) && Kept(r, (r, Ok([])), approved)
  {
    GrantsOfOne(CloseMailbox);
  }

  lemma ApplyIntentIsSound(o: Oracle, r: Reducer, value: Application, hash: Bytes, approved: set<Bytes32>)
    requires Sound(r) && Consents(r, approved) && r.terminal.None? && value.Intent?
    ensures Kept(r, ApplyIntent(o, r, value, hash), approved)
  {
    FailIsSound(r, IntentMismatch, IntentDigest, approved);
    FailIsSound(r, ProfileRefused, ProfileError, approved);
    IdleIsSound(r, PhaseError, approved);
    GrantsOfOne(DisplayIntent(value.digest));
  }

  lemma ApplyDecisionIsSound(r: Reducer, value: Application, hash: Bytes, approved: set<Bytes32>)
    requires Sound(r) && Consents(r, approved) && r.terminal.None? && value.Decided?
    ensures Kept(r, ApplyDecision(r, value, hash), approved)
  {
    FailIsSound(r, ProtocolViolation, ProtocolError, approved);
    FailIsSound(r, IntentMismatch, IntentDigest, approved);
    FailIsSound(r, DecisionConflict, DecisionError, approved);
    IdleIsSound(r, PhaseError, approved);
    GrantsOfOne(CloseMailbox);
  }

  lemma ApplyPayloadIsSound(o: Oracle, r: Reducer, value: Application, hash: Bytes, approved: set<Bytes32>)
    requires Sound(r) && Consents(r, approved) && r.terminal.None? && value.Payload?
    ensures Kept(r, ApplyPayload(o, r, value, hash), approved)
  {
    FailIsSound(r, ProtocolViolation, ProtocolError, approved);
    FailIsSound(r, IntentMismatch, IntentDigest, approved);
    FailIsSound(r, ProfileRefused, ProfileError, approved);
    IdleIsSound(r, PhaseError, approved);
    GrantsOfOne(DeliverGrant(value.digest));
  }

  lemma ApplyIsSound(o: Oracle, r: Reducer, value: Application, hash: Bytes, approved: set<Bytes32>)
    requires Sound(r) && Consents(r, approved) && r.terminal.None?
    ensures Kept(r, Apply(o, r, value, hash), approved)
  {
    hide Kept, Sound, Consents;
    match value
    case Intent(_, _) => ApplyIntentIsSound(o, r, value, hash, approved);
    case Decided(_, _) => ApplyDecisionIsSound(r, value, hash, approved);
    case Payload(_) => ApplyPayloadIsSound(o, r, value, hash, approved);
  }

  lemma ConsultedIsSound(r: Reducer, approved: set<Bytes32>)
    requires Sound(r) && Consents(r, approved)
    ensures Sound(r.(consults := r.consults + 1)) && Consents(r.(consults := r.consults + 1), approved)
    ensures Sound(r.(pending := [])) && Consents(r.(pending := []), approved)
    ensures Sound(Terminated(r, ProtocolViolation)) && Consents(Terminated(r, ProtocolViolation), approved)
  {
  }

  lemma {:induction false} PassIsSound(o: Oracle, r: Reducer, left: seq<Pending>, kept: seq<Pending>,
      emitted: seq<Effect>, approved: set<Bytes32>)
    requires Sound(r) && Consents(r, approved)
    ensures var p := Pass(o, r, left, kept, emitted);
            && Sound(p.r) && Consents(p.r, approved)
            && Earned(r, p.r, emitted, if p.Through? then p.emitted else emitted, approved)
            && (p.Through? && p.r.terminal.Some? ==> left == [] || |p.kept| < |kept| + |left|)
            && (p.Through? && p.r.terminal.Some? && left == [] ==> p.r == r)
    decreases |left|
  {
    hide Sound, Consents, Apply;
    if left != [] && r.session {
      var asked := r.(consults := r.consults + 1);
      ConsultedIsSound(r, approved);
      SessionIsLive(r);
      match o.admit(r.consults, left[0])
      case Refused =>
      case Violation => ConsultedIsSound(asked, approved);
      case Unknown => PassIsSound(o, asked, left[1..], kept + [left[0]], emitted, approved);
      case Valid(hash) =>
        ApplyIsSound(o, asked, left[0].decoded, hash, approved);
        var (next, result) := Apply(o, asked, left[0].decoded, hash);
        if result.Ok? {
          PassIsSound(o, next, left[1..], kept, emitted + result.value, approved);
          GrantsAppend(emitted, result.value);
        }
    }
  }

  lemma SessionIsLive(r: Reducer)
    requires Sound(r) && r.session
    ensures r.terminal.None? && Sound(r.(consults := r.consults + 1)) && r.(consults := r.consults + 1).terminal.None?
  {
  }

  lemma {:induction false} RetryIsSound(o: Oracle, r: Reducer, left: seq<Pending>, emitted: seq<Effect>,
      approved: set<Bytes32>)
    requires Sound(r) && Consents(r, approved)
    ensures var (next, result) := Retry(o, r, left, emitted);
            && Sound(next) && Consents(next, approved)
            && Earned(r, next, emitted, if result.Ok? then result.value else emitted, approved)
    decreases |left|
  {
    hide Sound, Consents, Pass;
    PassIsSound(o, r, left, [], emitted, approved);
    var p := Pass(o, r, left, [], emitted);
    if p.Through? {
      if |p.kept| < |left| {
        RetryIsSound(o, p.r, p.kept, p.emitted, approved);
      } else {
        PendingIsSound(p.r, p.kept, approved);
      }
    }
  }

  lemma PendingIsSound(r: Reducer, pending: seq<Pending>, approved: set<Bytes32>)
    requires Sound(r) && Consents(r, approved) && (r.terminal.Some? ==> pending == [])
    ensures Sound(r.(pending := pending)) && Consents(r.(pending := pending), approved)
  {
  }

  // ---------------------------------------------------------------- calls

  ghost predicate Answered(r: Reducer, reply: Reply, approved: set<Bytes32>) {
    && Sound(reply.0) && Consents(reply.0, approved)
    && Earned(r, reply.0, [], if reply.1.Ok? then reply.1.value else [], approved)
  }

  lemma KeptIsAnswered(r: Reducer, reply: Reply, approved: set<Bytes32>)
    requires Kept(r, reply, approved)
    ensures Answered(r, reply, approved)
  {
  }

  lemma EarnedComposes(a: Reducer, b: Reducer, c: Reducer, first: seq<Effect>, second: seq<Effect>,
      approved: set<Bytes32>)
    requires Earned(a, b, [], first, approved) && Earned(b, c, [], second, approved)
    ensures Earned(a, c, [], first + second, approved)
  {
    GrantsOfOne(SendFrame);
    GrantsAppend(first, second);
  }

  lemma RetryPendingIsSound(o: Oracle, r: Reducer, approved: set<Bytes32>)
    requires Sound(r) && Consents(r, approved)
    ensures Answered(r, RetryPending(o, r), approved)
  {
    ConsultedIsSound(r, approved);
    hide Sound, Consents, Retry;
    RetryIsSound(o, r.(pending := []), r.pending, [], approved);
  }

  lemma AppliedThenRetried(o: Oracle, asked: Reducer, value: Application, hash: Bytes, approved: set<Bytes32>)
    requires Sound(asked) && Consents(asked, approved) && asked.terminal.None?
    ensures var (applied, result) := Apply(o, asked, value, hash);
            var (next, more) := RetryPending(o, applied);
            && Answered(asked, (applied, result), approved)
            && (result.Ok? && more.Ok? ==> Answered(asked, (next, Ok(result.value + more.value)), approved))
            && (result.Ok? && more.Err? ==> Answered(asked, (next, more), approved))
  {
    hide Sound, Consents, Apply, RetryPending, Earned, Grants;
    var (applied, result) := Apply(o, asked, value, hash);
    var (next, more) := RetryPending(o, applied);
    ApplyIsSound(o, asked, value, hash, approved);
    if result.Ok? {
      RetryPendingIsSound(o, applied, approved);
      EarnedComposes(asked, applied, next, result.value, if more.Ok? then more.value else [], approved);
      if more.Err? { LessEarned(asked, next, result.value + [], approved); }
    }
  }

  lemma LessEarned(r: Reducer, next: Reducer, effects: seq<Effect>, approved: set<Bytes32>)
    requires Earned(r, next, [], effects, approved)
    ensures Earned(r, next, [], [], approved)
  {
    GrantsOfOne(SendFrame);
  }

  lemma AdmitIsSound(o: Oracle, r: Reducer, p: Pending, approved: set<Bytes32>)
    requires Sound(r) && Consents(r, approved)
    ensures Answered(r, Admit(o, r, p), approved)
  {
    hide Sound, Consents, Apply, RetryPending, Answered, Terminated;
    Basics(r, approved);
    if r.session {
      var asked := r.(consults := r.consults + 1);
      ConsultedIsSound(r, approved);
      SessionIsLive(r);
      Basics(asked, approved);
      SameCount(r, approved);
      match o.admit(r.consults, p)
      case Refused =>
      case Violation =>
      case Unknown => QueuedIsSound(asked, r.pending + [p], approved);
      case Valid(hash) =>
        AppliedThenRetried(o, asked, p.decoded, hash, approved);
        var (applied, result) := Apply(o, asked, p.decoded, hash);
        var (next, more) := RetryPending(o, applied);
        assert Admit(o, r, p) ==
          (if result.Err? then (applied, result) else if more.Ok? then (next, Ok(result.value + more.value))
              else (next, more));
    }
  }

  lemma QueuedIsSound(r: Reducer, pending: seq<Pending>, approved: set<Bytes32>)
    requires Sound(r) && Consents(r, approved) && r.terminal.None?
    ensures Answered(r, (r.(pending := pending), Ok([])), approved)
  {
    GrantsOfOne(SendFrame);
  }

  /** Failing, refusing and doing nothing are always sound. */
  lemma Basics(r: Reducer, approved: set<Bytes32>)
    requires Sound(r) && Consents(r, approved)
    ensures forall reason, error :: Answered(r, Fail(r, reason, error), approved)
    ensures forall error :: Answered(r, (r, Err(error)), approved)
    ensures Answered(r, (r, Ok([])), approved) && Answered(r, (r, Ok([SendFrame])), approved)
  {
    GrantsOfOne(SendFrame);
    forall reason, error ensures Answered(r, Fail(r, reason, error), approved) {
      FailIsSound(r, reason, error, approved);
      KeptIsAnswered(r, Fail(r, reason, error), approved);
    }
  }

  /** Fields no rule looks at. */
  lemma Incidental(r: Reducer, next: Reducer, result: Result<seq<Effect>, Error>, approved: set<Bytes32>)
    requires Sound(r) && Consents(r, approved) && r.terminal.None?
             && (result.Err? || result == Ok([]) || result == Ok([SendFrame]))
    requires next == r.(localFinished := next.localFinished, pendingFinished := next.pendingFinished,
             pendingChannel := next.pendingChannel,
                        payloadSent := next.payloadSent, session := next.session, channel := next.channel,
                            record := next.record, consults := next.consults)
    requires (next.session ==> next.channel) && (next.channel ==> next.record.status.Spent?)
    ensures Sound(next) && Consents(next, approved) && Answered(r, (next, result), approved)
    ensures forall reason, error :: Answered(r, Fail(next, reason, error), approved)
  {
    GrantsOfOne(SendFrame);
    forall reason, error ensures Answered(r, Fail(next, reason, error),
        approved) { FailIsSound(next, reason, error, approved); }
  }

  lemma OpenerIsSound(r: Reducer, inner: Inner, a: Answers, approved: set<Bytes32>)
    requires Sound(r) && Consents(r, approved) && r.terminal.None? && r.channel
    ensures Answered(r, ReceiveOpener(r, inner, a), approved)
  {
    ChannelSpends(r);
    Incidental(r, r.(session := true), Ok([]), approved);
    Basics(r, approved);
    hide Answered, Sound, Consents;
  }

  lemma ChannelSpends(r: Reducer)
    requires Sound(r) && r.channel
    ensures r.record.status.Spent?
  {
  }

  lemma SealedIsSound(o: Oracle, r: Reducer, digest: Option<Bytes32>, plaintext: Option<Option<Inner>>, a: Answers,
      approved: set<Bytes32>)
    requires Sound(r) && Consents(r, approved) && r.terminal.None?
    ensures Answered(r, ReceiveSealed(o, r, digest, plaintext, a), approved)
  {
    Basics(r, approved);
    hide Admit, Answered, Sound, Consents, ReceiveOpener;
    if digest.Some? && r.channel && plaintext.Some? && plaintext.value.Some? {
      var inner := plaintext.value.value;
      if !r.session {
        OpenerIsSound(r, inner, a, approved);
      } else if inner.body.Some? && inner.decoded.Some? {
        var p := Pending(inner.control, inner.body.value, inner.decoded.value);
        AdmitIsSound(o, r, p, approved);
        ReplayIsSound(r, Admit(o, r, p), digest, approved);
      }
    }
  }

  lemma ReplayIsSound(r: Reducer, reply: Reply, digest: Option<Bytes32>, approved: set<Bytes32>)
    requires Answered(r, reply, approved)
    ensures Answered(r, (reply.0.(replay := digest), reply.1), approved)
  {
  }

  lemma OpenSessionIsSound(r: Reducer, confirmed: Reducer, a: Answers, approved: set<Bytes32>)
    requires Sound(r) && Consents(r, approved) && r.terminal.None?
    requires confirmed == r.(pendingFinished := None, pendingChannel := false, channel := true,
             record := r.record.Spend())
    ensures Answered(r, OpenSession(confirmed, a), approved)
  {
    Incidental(r, confirmed, Err(PhaseError), approved);
    Incidental(r, confirmed, Err(ProtocolError), approved);
    Incidental(r, confirmed.(session := true), Ok([SendFrame]), approved);
    hide Answered, Sound, Consents;
  }

  lemma FinishedIsSound(r: Reducer, side: Side, frame: Bytes, a: Answers, approved: set<Bytes32>)
    requires Sound(r) && Consents(r, approved) && r.terminal.None?
    ensures Answered(r, ReceiveFinished(r, side, frame, a), approved)
  {
    Basics(r, approved);
    hide Answered, OpenSession;
    if r.localFinished && r.pendingChannel && !r.channel {
      var confirmed := r.(pendingFinished := None, pendingChannel := false, channel := true,
          record := r.record.Spend());
      NoChannelNoSession(r);
      hide Sound, Consents;
      OpenSessionIsSound(r, confirmed, a, approved);
      Incidental(r, r.(pendingFinished := Some(frame)), Ok([]), approved);
      Incidental(r, r.(pendingFinished := None, pendingChannel := false), Ok([]), approved);
      Incidental(r, confirmed, Ok([]), approved);
    }
  }

  lemma NoChannelNoSession(r: Reducer)
    requires Sound(r) && !r.channel
    ensures !r.session
  {
  }

  lemma SendIsSound(o: Oracle, r: Reducer, p: Pending, a: Answers, approved: set<Bytes32>)
    requires Sound(r) && Consents(r, approved)
    ensures var (next, hash) := SendControl(o, r, p, a);
            && (hash.Ok? ==> next == r.(consults := r.consults + 1) && Sound(next) && Consents(next, approved))
            && (hash.Err? ==> Answered(r, (next, Err(hash.error)), approved))
  {
    hide Answered, Sound, Consents, Terminated;
    Basics(r, approved);
    if r.session {
      ConsultedIsSound(r, approved);
      var asked := r.(consults := r.consults + 1);
      Basics(asked, approved);
      SameCount(r, approved);
      assert Answered(asked, Fail(asked, ChannelFailed, ChannelError), approved);
      assert Answered(asked, Fail(asked, ProtocolViolation, ProtocolError), approved);
      assert Answered(asked, (asked, Err(ProtocolError)), approved)
             && Answered(asked, (asked, Err(PhaseError)), approved);
    }
  }

  /** A consultation alone earns nothing and costs nothing. */
  lemma SameCount(r: Reducer, approved: set<Bytes32>)
    ensures forall reply: Reply :: Answered(r.(consults := r.consults + 1), reply, approved) ==>
            Answered(r, reply, approved)
  {
    hide Sound, Consents, Grants;
  }

  lemma IntentIsSound(o: Oracle, r: Reducer, p: Pending, a: Answers, approved: set<Bytes32>)
    requires Sound(r) && Consents(r, approved)
    ensures Answered(r, SendIntent(o, r, p, a), approved)
  {
    Basics(r, approved);
    SendIsSound(o, r, p, a, approved);
    GrantsOfOne(SendFrame);
    hide SendControl, Grants;
  }

  lemma PayloadIsSound(o: Oracle, r: Reducer, p: Pending, a: Answers, approved: set<Bytes32>)
    requires Sound(r) && Consents(r, approved)
    ensures Answered(r, SendPayload(o, r, p, a), approved)
  {
    Basics(r, approved);
    SendIsSound(o, r, p, a, approved);
    GrantsOfOne(SendFrame);
    hide SendControl, Grants;
  }

  lemma BootstrapIsSound(r: Reducer, a: Answers, reason: Reason, approved: set<Bytes32>)
    requires Sound(r) && Consents(r, approved)
    ensures Answered(r, AdmitBootstrap(r, a), approved) && Answered(r, LocalFinished(r, a), approved)
    ensures Answered(r, Ends(r, reason), approved)
  {
    Basics(r, approved);
    if r.terminal.None? {
      FailIsSound(r, reason, PhaseError, approved);
      KeptIsAnswered(r, (Terminated(r, reason), Ok([CloseMailbox])), approved);
      FinishedFlag(r, approved);
    }
    hide Answered, Sound, Consents, Terminated;
  }

  lemma FinishedFlag(r: Reducer, approved: set<Bytes32>)
    requires Sound(r) && Consents(r, approved) && r.terminal.None?
    ensures Answered(r, (r.(localFinished := true), Ok([])), approved)
  {
    GrantsOfOne(SendFrame);
  }

  lemma DecideIsSound(o: Oracle, r: Reducer, decision: Decision, control: Bytes, body: Bytes, a: Answers,
      approved: set<Bytes32>)
    requires Sound(r) && Consents(r, approved)
    ensures var reply := Decide(o, r, decision, control, body, a);
            Answered(r, reply, if decision.Approve? && reply.1 == Ok([SendFrame]) && r.intent.Some?
                then approved + {r.intent.value.digest} else approved)
  {
    Basics(r, approved);
    GrantsOfOne(SendFrame);
    if r.terminal.None? && r.intent.Some? {
      SendIsSound(o, r, Pending(control, body, Decided(r.intent.value.digest, decision)), a, approved);
      DecidedIsSound(r.(consults := r.consults + 1), decision, approved);
      SameCount(r, approved);
      SameCount(r, approved + {r.intent.value.digest});
    }
    hide SendControl, Answered, Sound, Consents, Grants;
  }

  lemma DecidedIsSound(r: Reducer, decision: Decision, approved: set<Bytes32>)
    requires Sound(r) && Consents(r, approved) && r.terminal.None? && r.intent.Some?
    ensures forall hash :: var decided := r.(decision := Some(DecisionRecord(decision, hash)));
              && (decision.Approve? ==> Answered(r, (decided, Ok([SendFrame])), approved + {r.intent.value.digest}))
              && (decision.Decline? ==>
                    Answered(r, (Terminated(decided.(localDecline := true), Declined),
                        Ok([SendFrame, CloseMailbox])), approved))
  {
    GrantsOfOne(SendFrame);
    GrantsAppend([SendFrame], [CloseMailbox]);
    GrantsOfOne(CloseMailbox);
    assert [SendFrame] + [CloseMailbox] == [SendFrame, CloseMailbox];
    hide Grants;
  }

  // ---------------------------------------------------------------- every run

  ghost predicate Inv(run: Run) {
    && Sound(run.r) && Consents(run.r, run.past.approved)
    && |run.past.granted| <= run.r.delivered
    && (run.r.channel ==> run.past.confirmed)
    && (forall g | g in run.past.granted :: g in run.past.approved && run.past.confirmed && run.r.side.Claimant?)
  }

  /** Once terminal, every call leaves the reducer as it is and yields nothing. */
  lemma NothingAfterTheEnd(o: Oracle, r: Reducer, call: Call)
    requires r.terminal.Some?
    ensures Invoke(o, r, call).0 == r && (Invoke(o, r, call).1.Ok? ==> Invoke(o, r, call).1.value == [])
  {
  }

  lemma FinishedConfirms(r: Reducer, side: Side, frame: Bytes, a: Answers)
    requires !r.channel && ReceiveFinished(r, side, frame, a).0.channel
    ensures a.confirms
  {
  }

  lemma DecisionKeepsChannel(o: Oracle, r: Reducer, decision: Decision, control: Bytes, body: Bytes, a: Answers)
    ensures Decide(o, r, decision, control, body, a).0.channel ==> r.channel
  {
    hide SendControl;
    if r.intent.Some? { SendKeepsChannel(o, r, Pending(control, body, Decided(r.intent.value.digest, decision)), a); }
  }

  lemma ControlsKeepChannel(o: Oracle, r: Reducer, p: Pending, a: Answers)
    ensures SendIntent(o, r, p, a).0.channel ==> r.channel
    ensures SendPayload(o, r, p, a).0.channel ==> r.channel
  {
    hide SendControl;
    SendKeepsChannel(o, r, p, a);
  }

  /** A channel comes only from a Finished value that matched. */
  lemma ChannelIsConfirmed(o: Oracle, r: Reducer, call: Call)
    requires !r.channel && Invoke(o, r, call).0.channel
    ensures Confirms(call)
  {
    hide Admit, ReceiveFinished, SendIntent, SendPayload, Decide, ReceiveOpener;
    match call
    case Offer(p, a) => ControlsKeepChannel(o, r, p, a);
    case Pay(p, a) => ControlsKeepChannel(o, r, p, a);
    case Choose(decision, control, body, a) => DecisionKeepsChannel(o, r, decision, control, body, a);
    case Receive(frame, a) => if frame.FinishedFrame? { FinishedConfirms(r, frame.side, frame.frame, a); }
    case RetryPeerFinished(peer, a) => FinishedConfirms(r, peer, r.pendingFinished.value, a);
    case _ =>
  }

  /** A grant comes only from a sealed frame, so only with a channel. */
  lemma GrantsNeedTheChannel(o: Oracle, r: Reducer, call: Call)
    requires Invoke(o, r, call).1.Ok? && Grants(Invoke(o, r, call).1.value) != []
    ensures r.channel
  {
    hide Admit, SendControl, Terminated, Fail, Grants;
    GrantsOfOne(SendFrame);
    GrantsOfOne(CloseMailbox);
    GrantsAppend([SendFrame], [CloseMailbox]);
    assert [SendFrame] + [CloseMailbox] == [SendFrame, CloseMailbox];
    if !r.channel {
      match call
      case Receive(frame, a) => FailGrantsNothing(r);
      case _ => FailGrantsNothing(r);
    }
  }

  lemma FailGrantsNothing(r: Reducer)
    ensures forall reason, error :: Fail(r, reason, error).1.Err?
    ensures forall next: Reducer, reason, error :: Fail(next, reason, error).1.Err?
  {
  }

  lemma SendKeepsChannel(o: Oracle, r: Reducer, p: Pending, a: Answers)
    ensures SendControl(o, r, p, a).0.channel ==> r.channel
  {
  }

  lemma InvokeIsSound(o: Oracle, r: Reducer, call: Call, past: Past)
    requires Sound(r) && Consents(r, past.approved) && r.terminal.None?
    ensures Answered(r, Invoke(o, r, call), Remember(past, r, call, Invoke(o, r, call)).approved)
  {
    hide Sound, Consents, Answered, ReceiveFinished, ReceiveSealed, Decide, SendIntent, SendPayload, AdmitBootstrap,
         LocalFinished;
    match call
    case BootstrapControl(a) => BootstrapIsSound(r, a, Cancelled, past.approved);
    case Finish(a) => BootstrapIsSound(r, a, Cancelled, past.approved);
    case Receive(frame, a) =>
      match frame {
        case CpaceFrame =>
          FailIsSound(r, ProtocolViolation, PhaseError, past.approved);
          KeptIsAnswered(r, Fail(r, ProtocolViolation, PhaseError), past.approved);
        case FinishedFrame(side, id) => FinishedIsSound(r, side, id, a, past.approved);
        case SealedFrame(digest, plaintext) => SealedIsSound(o, r, digest, plaintext, a, past.approved);
      }
    case RetryPeerFinished(peer, a) =>
      if r.pendingFinished.Some? { FinishedIsSound(r, peer, r.pendingFinished.value, a, past.approved); }
      else { IdleIsSound(r, PhaseError, past.approved); KeptIsAnswered(r, (r, Ok([])), past.approved); }
    case Cancel => BootstrapIsSound(r, Answers(true, Unknown, true, Unknown, true), Cancelled, past.approved);
    case RelayClosed(reason) => BootstrapIsSound(r, Answers(true, Unknown, true, Unknown, true), reason, past.approved);
    case Offer(p, a) => IntentIsSound(o, r, p, a, past.approved);
    case Choose(decision, control, body, a) => DecideIsSound(o, r, decision, control, body, a, past.approved);
    case Pay(p, a) => PayloadIsSound(o, r, p, a, past.approved);
  }

  lemma StepKeepsInv(o: Oracle, run: Run, call: Call)
    requires Inv(run)
    ensures Inv(Step(o, run, call))
  {
    var reply := Invoke(o, run.r, call);
    GrantsOfOne(CloseMailbox);
    if run.r.terminal.Some? {
      NothingAfterTheEnd(o, run.r, call);
      hide Invoke;
    } else {
      InvokeIsSound(o, run.r, call, run.past);
      if !run.r.channel && reply.0.channel { ChannelIsConfirmed(o, run.r, call); }
      if reply.1.Ok? && Grants(reply.1.value) != [] { GrantsNeedTheChannel(o, run.r, call); }
      hide Invoke, Sound, Consents;
    }
  }

  lemma {:induction false} EveryRun(o: Oracle, side: Side, application: Bytes, record: Record, invitation: Bytes32,
      calls: seq<Call>)
    requires NewReducer(side, application, record, invitation).Ok?
    ensures Inv(Execute(o, NewReducer(side, application, record, invitation).value, calls))
  {
    if calls != [] {
      hide Step, Inv;
      EveryRun(o, side, application, record, invitation, calls[..|calls| - 1]);
      StepKeepsInv(o, Execute(o, NewReducer(side, application, record, invitation).value, calls[..|calls| - 1]),
          calls[|calls| - 1]);
    }
  }

  /** In every run, whatever the monitors and the peer answer: at most one grant comes out,
      only on the claimant's side, only for an intent this endpoint itself approved, and
      only after its keys were confirmed. */
  lemma OneConsentedGrant(o: Oracle, side: Side, application: Bytes, record: Record, invitation: Bytes32,
      calls: seq<Call>)
    requires NewReducer(side, application, record, invitation).Ok?
    ensures var run := Execute(o, NewReducer(side, application, record, invitation).value, calls);
            && |run.past.granted| <= 1
            && (forall g | g in run.past.granted :: g in run.past.approved && run.past.confirmed
                 && run.r.side.Claimant?)
  {
    EveryRun(o, side, application, record, invitation, calls);
    hide Execute;
  }

  /** And once it has ended it holds no keys, its invitation is spent, and no further call
      yields an effect. */
  lemma EndedHoldsNothing(o: Oracle, side: Side, application: Bytes, record: Record, invitation: Bytes32,
      calls: seq<Call>, call: Call)
    requires NewReducer(side, application, record, invitation).Ok?
    requires Execute(o, NewReducer(side, application, record, invitation).value, calls).r.terminal.Some?
    ensures var r := Execute(o, NewReducer(side, application, record, invitation).value, calls).r;
            && Gone(r)
            && Invoke(o, r, call).0 == r && (Invoke(o, r, call).1.Ok? ==> Invoke(o, r, call).1.value == [])
  {
    EveryRun(o, side, application, record, invitation, calls);
    hide Execute;
    NothingAfterTheEnd(o, Execute(o, NewReducer(side, application, record, invitation).value, calls).r, call);
  }

  // ---------------------------------------------------------------- the invitation

  /** An invitation serves one attempt: once bound, the same attempt resumes it and any
      other spends it, and a spent one never comes back. */
  lemma {:induction false} OneAttemptPerInvitation(record: Record, attempts: seq<Bytes32>)
    requires record.status.Unused?
    ensures var last := Attempts(record, attempts);
            && (last.status.Bound? ==>
                 attempts != [] && last.binding == Some(attempts[0]) && forall i :: 0 <= i < |attempts| ==>
                     attempts[i] == attempts[0])
            && (last.status.Unused? ==> attempts == [])
            && (last.status.Spent? ==> last.binding.None?)
  {
    if attempts != [] { OneAttemptPerInvitation(record, attempts[..|attempts| - 1]); }
  }

  function Attempts(record: Record, attempts: seq<Bytes32>): Record {
    if attempts == [] then record else Attempts(record, attempts[..|attempts| - 1]).Bind(attempts[|attempts| - 1]).0
  }
}
