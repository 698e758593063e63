/** Whole runs of the limiter, with a log per dimension and the order in which
    dimensions were last checked. */
module LimiterRuns {
  import opened Base
  import opened LimiterLogs
  import opened Limiters

  datatype Run = Run(state: State, logs: map<Dim, Log>, order: seq<Dim>)

  datatype Event =
    | Attempt(operation: Operation, peer: Option<Bytes32>, now: u64, victim: Option<(u64, Dim)>)
    | SweepNow(now: u64)
    | SweepIfDue(now: u64)

  function EntryOf(s: State, d: Dim): Option<Entry> { if d in s.entries then Some(s.entries[d]) else None }

  function LogOf(logs: map<Dim, Log>, d: Dim): Log { if d in logs then logs[d] else [] }

  function NowOf(s: State): u64 { if s.lastNow.Some? then s.lastNow.value else 0 }

  /** Whom an attempt on `d` pushes out. */
  function Evicted(cfg: Config, s: State, d: Dim, victim: Option<(u64, Dim)>): Option<Dim> {
    if d !in s.entries && |s.entries| >= cfg.cap && victim.Some? then Some(victim.value.1) else None
  }

  /** An evicted dimension's log starts again; every decision is logged. */
  function Logged(logs: map<Dim, Log>, evicted: Option<Dim>, d: Dim, now: u64, r: Result<Decision, Error>): map<Dim,
      Log> {
    var left := if evicted.Some? then logs - {evicted.value} else logs;
    if r.Ok? then left[d := LogOf(left, d) + [Stamp(now, r.value)]] else left
  }

  function Attempted(cfg: Config, run: Run, d: Dim, now: u64, victim: Option<(u64, Dim)>): Run
    requires ValidConfig(cfg)
  {
    var (next, r) := CheckDim(cfg, run.state, d, now, victim);
    Run(next, Logged(run.logs, Evicted(cfg, run.state, d, victim), d, now, r),
        if Exhausted(run.state) then run.order else run.order + [d])
  }

  function Step(cfg: Config, run: Run, event: Event): Run
    requires ValidConfig(cfg)
  {
    var s := run.state;
    match event
    case Attempt(operation, peer, now, victim) =>
      if peer.None? then run
      else Attempted(cfg, run.(state := Prepared(cfg, s, now)), Dim(operation, peer.value), Clock(s, now), victim)
    case SweepNow(now) => run.(state := Sweep(cfg, Observed(s, now), Clock(s, now)))
    case SweepIfDue(now) => run.(state := MaybeSweep(cfg, Observed(s, now), Clock(s, now)))
  }

  ghost predicate Possible(cfg: Config, run: Run, event: Event) {
    event.Attempt? ==> Names(Prepared(cfg, run.state, event.now), event.victim)
  }

  function Execute(cfg: Config, events: seq<Event>): Run
    requires ValidConfig(cfg)
  {
    if events == [] then Run(NewLimiter(), map[], [])
        else Step(cfg, Execute(cfg, events[..|events| - 1]), events[|events| - 1])
  }

  ghost predicate Happened(cfg: Config, events: seq<Event>)
    requires ValidConfig(cfg)
  {
    events == []
    || (Happened(cfg, events[..|events| - 1])
         && Possible(cfg, Execute(cfg, events[..|events| - 1]), events[|events| - 1]))
  }

  // ---------------------------------------------------------------- the limiter is its log

  ghost predicate Agrees(cfg: Config, s: State, logs: map<Dim, Log>, now: u64) {
    && (forall d: Dim :: Tracks(cfg.policies(d.operation), EntryOf(s, d), LogOf(logs, d), now))
    && Matching(s)
  }

  /** Every recency record is that of an entry; the converse can fail, see below. */
  ghost predicate Matching(s: State) { forall p | p in s.recency :: p.1 in s.entries && s.entries[p.1].recency == p.0 }

  lemma ObservedAgrees(cfg: Config, run: Run, now: u64)
    requires Agrees(cfg, run.state, run.logs, NowOf(run.state))
    ensures Agrees(cfg, Observed(run.state, now), run.logs, Clock(run.state, now))
  {
    var s, later := Observed(run.state, now), Clock(run.state, now);
    forall d: Dim ensures Tracks(cfg.policies(d.operation), EntryOf(s, d), LogOf(run.logs, d), later) {
      LaterTracks(cfg.policies(d.operation), EntryOf(run.state, d), LogOf(run.logs, d), NowOf(run.state), later);
      hide Tracks;
    }
  }

  /** A sweep is invisible to every later decision. */
  lemma SweepAgrees(cfg: Config, s: State, logs: map<Dim, Log>, now: u64)
    requires Agrees(cfg, s, logs, now)
    ensures Agrees(cfg, Sweep(cfg, s, now), logs, now)
  {
    SweepMatching(cfg, s, now);
    hide Tracks, Dead, Kept, Matching;
    var next := Sweep(cfg, s, now);
    forall d: Dim ensures Tracks(cfg.policies(d.operation), EntryOf(next, d), LogOf(logs, d), now) {
      assert Tracks(cfg.policies(d.operation), EntryOf(s, d), LogOf(logs, d), now);
      if d in s.entries { SweepTracks(cfg.policies(d.operation), s.entries[d], LogOf(logs, d), now); }
    }
  }

  lemma SweepMatching(cfg: Config, s: State, now: u64)
    requires Matching(s)
    ensures Matching(Sweep(cfg, s, now))
  {
    hide Dead, Prune;
  }

  lemma AttemptMatching(cfg: Config, s: State, d: Dim, now: u64, victim: Option<(u64, Dim)>)
    requires ValidConfig(cfg) && Matching(s) && Names(s, victim)
    ensures Matching(CheckDim(cfg, s, d, now, victim).0)
    ensures Evicted(cfg, s, d, victim).Some? ==> Evicted(cfg, s, d, victim).value in s.entries
  {
    hide Admit;
    if d in s.entries && !Exhausted(s) { AdmitKeepsRecency(cfg.policies(d.operation), Touch(s, d).entries[d], now); }
  }

  lemma NothingTracks(policy: Policy, now: u64)
    ensures Tracks(policy, None, [], now)
  {
  }

  lemma TouchTracks(policy: Policy, e: Entry, log: Log, now: u64, recency: u64)
    requires Tracks(policy, Some(e), log, now)
    ensures Tracks(policy, Some(e.(recency := recency)), log, now)
  {
  }

  lemma LiveAttempt(cfg: Config, s: State, log: Log, d: Dim, now: u64, victim: Option<(u64, Dim)>)
    requires ValidConfig(cfg) && d in s.entries && Tracks(cfg.policies(d.operation), Some(s.entries[d]), log, now)
    ensures var policy := cfg.policies(d.operation);
            var (next, r) := CheckDim(cfg, s, d, now, victim);
            && (if Exhausted(s) then r == Err(TimeOverflow) else r == Judge(policy, log, now))
            && next.entries.Keys == s.entries.Keys
            && (forall k | k in s.entries && k != d :: next.entries[k] == s.entries[k])
            && Tracks(policy, Some(next.entries[d]), if r.Ok? then log + [Stamp(now, r.value)] else log, now)
  {
    hide Tracks, Judge, Admit;
    TouchTracks(cfg.policies(d.operation), s.entries[d], log, now, s.nextRecency);
    AdmitJudges(cfg.policies(d.operation), s.entries[d].(recency := s.nextRecency), log, now);
  }

  lemma FreshAttempt(cfg: Config, s: State, log: Log, d: Dim, now: u64, victim: Option<(u64, Dim)>)
    requires ValidConfig(cfg) && d !in s.entries && Tracks(cfg.policies(d.operation), None, log, now)
    ensures var policy := cfg.policies(d.operation);
            var (next, r) := CheckDim(cfg, s, d, now, victim);
            && (if Exhausted(s) then r == Err(TimeOverflow) else r == Judge(policy, log, now))
            && (r.Ok? ==> d in next.entries && Tracks(policy, Some(next.entries[d]), log + [Stamp(now, r.value)], now))
            && (r.Err? ==> d !in next.entries)
            && (forall k | k in s.entries && Evicted(cfg, s, d, victim) != Some(k) :: k in next.entries
                 && next.entries[k] == s.entries[k])
            && (forall k | k in next.entries && k != d :: k in s.entries && Evicted(cfg, s, d, victim) != Some(k))
  {
    hide Tracks, Judge;
    FreshJudges(cfg.policies(d.operation), log, now, s.nextRecency);
  }

  lemma LogsElsewhere(logs: map<Dim, Log>, evicted: Option<Dim>, d: Dim, now: u64, r: Result<Decision, Error>, k: Dim)
    ensures k != d ==> LogOf(Logged(logs, evicted, d, now, r), k) == if evicted == Some(k) then [] else LogOf(logs, k)
    ensures evicted != Some(d) ==>
            LogOf(Logged(logs, evicted, d, now, r), d) == if r.Ok? then LogOf(logs, d) + [Stamp(now, r.value)]
                else LogOf(logs, d)
  {
  }

  /** Every decision, with its `remaining` and `retryAt`, is the log's, and the log goes on
      being tracked; the one exception is a recency counter that has run out. */
  lemma AttemptAgrees(cfg: Config, run: Run, d: Dim, now: u64, victim: Option<(u64, Dim)>)
    requires ValidConfig(cfg) && Agrees(cfg, run.state, run.logs, now) && Names(run.state, victim)
    ensures var next := Attempted(cfg, run, d, now, victim);
            && Agrees(cfg, next.state, next.logs, now)
            && CheckDim(cfg, run.state, d, now, victim).1
               == if Exhausted(run.state) then Err(TimeOverflow)
                  else Judge(cfg.policies(d.operation), LogOf(run.logs, d), now)
  {
    hide Judge, CheckDim, Tracks, Logged, LogOf, Names, Matching;
    AttemptMatching(cfg, run.state, d, now, victim);
    var s, log := run.state, LogOf(run.logs, d);
    var (next, r) := CheckDim(cfg, s, d, now, victim);
    var evicted := Evicted(cfg, s, d, victim);
    assert Tracks(cfg.policies(d.operation), EntryOf(s, d), log, now);
    if d in s.entries {
      LiveAttempt(cfg, s, log, d, now, victim);
    } else {
      FreshAttempt(cfg, s, log, d, now, victim);
    }
    var logs := Logged(run.logs, evicted, d, now, r);
    forall k: Dim ensures Tracks(cfg.policies(k.operation), EntryOf(next, k), LogOf(logs, k), now) {
      assert Tracks(cfg.policies(k.operation), EntryOf(s, k), LogOf(run.logs, k), now);
      LogsElsewhere(run.logs, evicted, d, now, r, k);
      if k != d && Some(k) == evicted { NothingTracks(cfg.policies(k.operation), now); }
    }
  }

  // ---------------------------------------------------------------- least recently used

  /** `d` was last checked as number `k`. */
  ghost predicate LastAt(order: seq<Dim>, d: Dim, k: int) {
    0 <= k < |order| && order[k] == d && forall j :: k < j < |order| ==> order[j] != d
  }

  /** Entries and recency records are in bijection, numbered by the last check. */
  ghost predicate Ordered(cfg: Config, s: State, order: seq<Dim>) {
    && s.nextRecency == |order|
    && |s.entries| <= cfg.cap
    && (forall d | d in s.entries :: (s.entries[d].recency, d) in s.recency && LastAt(order, d, s.entries[d].recency))
    && (forall p | p in s.recency :: p.1 in s.entries && s.entries[p.1].recency == p.0)
  }

  lemma FewerEntries(a: map<Dim, Entry>, b: map<Dim, Entry>)
    requires a.Keys <= b.Keys
    ensures |a| <= |b|
  {
    SubsetSize(a.Keys, b.Keys);
    assert |a| == |a.Keys| && |b| == |b.Keys|;
  }

  lemma SweepOrdered(cfg: Config, s: State, order: seq<Dim>, now: u64)
    requires Ordered(cfg, s, order)
    ensures Ordered(cfg, Sweep(cfg, s, now), order)
  {
    hide Dead, LastAt, Prune;
    FewerEntries(Sweep(cfg, s, now).entries, s.entries);
  }

  lemma LastAtGrows(order: seq<Dim>, d: Dim, k: int, e: Dim)
    ensures LastAt(order, d, k) && d != e ==> LastAt(order + [e], d, k)
    ensures LastAt(order + [e], e, |order|)
  {
  }

  /** Eviction removes exactly the entry whose last check is the oldest. */
  lemma EvictionIsLeastRecent(cfg: Config, s: State, order: seq<Dim>, victim: (u64, Dim), d: Dim)
    requires Ordered(cfg, s, order) && First(s.recency, victim) && d in s.entries && d != victim.1
    ensures victim.1 in s.entries && s.entries[victim.1].recency < s.entries[d].recency
    ensures LastAt(order, victim.1, s.entries[victim.1].recency) && LastAt(order, d, s.entries[d].recency)
    ensures Evict(s, victim).entries == s.entries - {victim.1}
  {
  }

  lemma EvictOrdered(cfg: Config, s: State, order: seq<Dim>, victim: (u64, Dim))
    requires Ordered(cfg, s, order) && victim in s.recency
    ensures Ordered(cfg, Evict(s, victim), order) && |Evict(s, victim).entries| == |s.entries| - 1
  {
    hide LastAt;
    assert s.entries.Keys == (s.entries - {victim.1}).Keys + {victim.1};
    assert |s.entries| == |s.entries.Keys| && |s.entries - {victim.1}| == |(s.entries - {victim.1}).Keys|;
  }

  lemma TouchOrdered(cfg: Config, s: State, order: seq<Dim>, d: Dim, e: Entry)
    requires Ordered(cfg, s, order) && d in s.entries && !Exhausted(s) && e.recency == s.nextRecency
    ensures Ordered(cfg, Touch(s, d).(entries := Touch(s, d).entries[d := e]), order + [d])
  {
    hide LastAt;
    var next := Touch(s, d).(entries := Touch(s, d).entries[d := e]);
    LastAtGrows(order, d, 0, d);
    forall k | k in next.entries
      ensures (next.entries[k].recency, k) in next.recency && LastAt(order + [d], k, next.entries[k].recency)
    {
      if k != d {
        assert (s.entries[k].recency, k) in s.recency;
        LastAtGrows(order, k, s.entries[k].recency, d);
      }
    }
    forall p | p in next.recency ensures p.1 in next.entries && next.entries[p.1].recency == p.0 {
      if p != (s.nextRecency, d) { assert p in s.recency && p.1 != d; }
    }
    assert next.entries.Keys == s.entries.Keys;
    assert |next.entries| == |next.entries.Keys| && |s.entries| == |s.entries.Keys|;
  }

  lemma InsertOrdered(cfg: Config, s: State, order: seq<Dim>, d: Dim, now: u64)
    requires Ordered(cfg, s, order) && d !in s.entries && |s.entries| < cfg.cap && !Exhausted(s)
    ensures Ordered(cfg, s.(entries := s.entries[d := Entry([now], None, s.nextRecency)],
                            recency := s.recency + {(s.nextRecency, d)}, nextRecency := s.nextRecency + 1), order + [d])
  {
    var entries := s.entries[d := Entry([now], None, s.nextRecency)];
    var recency := s.recency + {(s.nextRecency, d)};
    forall k | k in entries ensures (entries[k].recency, k) in recency && LastAt(order + [d], k, entries[k].recency) {
      if k in s.entries { LastAtGrows(order, k, s.entries[k].recency, d); }
    }
  }

  /** The bijection and the cap survive an attempt exactly when it does not touch an
      existing dimension with the recency counter already run out. */
  lemma AttemptOrdered(cfg: Config, run: Run, d: Dim, now: u64, victim: Option<(u64, Dim)>)
    requires ValidConfig(cfg) && Ordered(cfg, run.state, run.order) && Names(run.state, victim)
    ensures var next := Attempted(cfg, run, d, now, victim);
            Ordered(cfg, next.state, next.order) <==> !(Exhausted(run.state) && d in run.state.entries)
  {
    hide LastAt, Admit, Logged, First;
    var s := run.state;
    if d in s.entries {
      if Exhausted(s) {
        assert (s.entries[d].recency, d) !in Touch(s, d).recency;
      } else {
        var e := Admit(cfg.policies(d.operation), Touch(s, d).entries[d], now).0;
        AdmitKeepsRecency(cfg.policies(d.operation), Touch(s, d).entries[d], now);
        TouchOrdered(cfg, s, run.order, d, e);
      }
    } else {
      var full := |s.entries| >= cfg.cap;
      if full { SomeoneToEvict(cfg, s, run.order, victim); EvictOrdered(cfg, s, run.order, victim.value); }
      var room := if full then Evict(s, victim.value) else s;
      if !Exhausted(s) { InsertOrdered(cfg, room, run.order, d, now); }
    }
  }

  lemma AdmitKeepsRecency(policy: Policy, e: Entry, now: u64)
    ensures Admit(policy, e, now).0.recency == e.recency
  {
  }

  lemma SomeoneToEvict(cfg: Config, s: State, order: seq<Dim>, victim: Option<(u64, Dim)>)
    requires cfg.cap > 0 && Ordered(cfg, s, order) && Names(s, victim) && |s.entries| >= cfg.cap
    ensures victim.Some? && victim.value in s.recency
  {
    assert s.entries != map[];
    var d :| d in s.entries;
    assert (s.entries[d].recency, d) in s.recency;
  }

  // ---------------------------------------------------------------- every run

  lemma PreparedAgrees(cfg: Config, run: Run, now: u64)
    requires Agrees(cfg, run.state, run.logs, NowOf(run.state))
    ensures var swept := Sweep(cfg, Observed(run.state, now), Clock(run.state, now));
            && Agrees(cfg, Observed(run.state, now), run.logs, Clock(run.state, now))
            && Agrees(cfg, swept, run.logs, Clock(run.state, now)) && NowOf(swept) == Clock(run.state, now)
  {
    hide Agrees;
    ObservedAgrees(cfg, run, now);
    SweepAgrees(cfg, Observed(run.state, now), run.logs, Clock(run.state, now));
  }

  lemma CheckDimClock(cfg: Config, s: State, d: Dim, now: u64, victim: Option<(u64, Dim)>)
    requires ValidConfig(cfg)
    ensures CheckDim(cfg, s, d, now, victim).0.lastNow == s.lastNow
  {
  }

  lemma StepAgrees(cfg: Config, run: Run, event: Event)
    requires ValidConfig(cfg) && Agrees(cfg, run.state, run.logs, NowOf(run.state)) && Possible(cfg, run, event)
    ensures var next := Step(cfg, run, event); Agrees(cfg, next.state, next.logs, NowOf(next.state))
  {
    hide Agrees, CheckDim, Sweep, Names;
    PreparedAgrees(cfg, run, event.now);
    if event.Attempt? && event.peer.Some? {
      var ready, d := run.(state := Prepared(cfg, run.state, event.now)), Dim(event.operation, event.peer.value);
      AttemptAgrees(cfg, ready, d, Clock(run.state, event.now), event.victim);
      CheckDimClock(cfg, ready.state, d, Clock(run.state, event.now), event.victim);
    }
  }

  lemma StartAgrees(cfg: Config)
    requires ValidConfig(cfg)
    ensures Agrees(cfg, NewLimiter(), map[], 0)
  {
    forall d: Dim ensures Tracks(cfg.policies(d.operation), None, [],
        0) { NothingTracks(cfg.policies(d.operation), 0); }
  }

  lemma {:induction false} EveryRun(cfg: Config, events: seq<Event>)
    requires ValidConfig(cfg) && Happened(cfg, events)
    ensures var run := Execute(cfg, events); Agrees(cfg, run.state, run.logs, NowOf(run.state))
  {
    hide Agrees, Step, Possible;
    if events == [] {
      StartAgrees(cfg);
    } else {
      var n := |events| - 1;
      EveryRun(cfg, events[..n]);
      StepAgrees(cfg, Execute(cfg, events[..n]), events[n]);
    }
  }

  /** For any schedule of sweeps and backwards clocks, a decision is the one an unbounded
      log that never sweeps would make, unless the dimension was evicted in between or the
      recency counter has run out, which refuses every attempt. */
  lemma DecisionIsTheLogs(cfg: Config, events: seq<Event>, operation: Operation, peer: Bytes32, now: u64,
      victim: Option<(u64, Dim)>)
    requires ValidConfig(cfg) && Happened(cfg, events)
    requires Names(Prepared(cfg, Execute(cfg, events).state, now), victim)
    ensures var run := Execute(cfg, events);
            Check(cfg, run.state, operation, Some(peer), now, victim).1
            == if Exhausted(run.state) then Err(TimeOverflow)
               else Judge(cfg.policies(operation), LogOf(run.logs, Dim(operation, peer)), Clock(run.state, now))
  {
    hide Execute, Happened, Agrees, CheckDim, Sweep, Names, Judge;
    var run := Execute(cfg, events);
    EveryRun(cfg, events);
    PreparedAgrees(cfg, run, now);
    PreparedCounter(cfg, run.state, now);
    AttemptAgrees(cfg, run.(state := Prepared(cfg, run.state, now)), Dim(operation, peer), Clock(run.state, now),
        victim);
  }

  lemma PreparedCounter(cfg: Config, s: State, now: u64)
    ensures Prepared(cfg, s, now).nextRecency == s.nextRecency
  {
  }

  /** With a window of at most 300 seconds, no half-open interval of that width holds more
      than `limit` allowed attempts on a dimension since it was last evicted. */
  lemma AdmissionsBounded(cfg: Config, events: seq<Event>, d: Dim, start: int)
    requires ValidConfig(cfg) && Happened(cfg, events) && cfg.policies(d.operation).window <= COOLDOWN_SECONDS
    ensures AllowedFrom(LogOf(Execute(cfg, events).logs, d), start, cfg.policies(d.operation).window)
            <= cfg.policies(d.operation).limit
  {
    hide Execute, Happened;
    EveryRun(cfg, events);
    var run := Execute(cfg, events);
    assert Tracks(cfg.policies(d.operation), EntryOf(run.state, d), LogOf(run.logs, d), NowOf(run.state));
    WindowBound(cfg.policies(d.operation), LogOf(run.logs, d), start);
  }

  lemma ObservedOrdered(cfg: Config, s: State, order: seq<Dim>, now: u64, later: u64)
    requires Ordered(cfg, s, order)
    ensures Ordered(cfg, Observed(s, now), order) && Ordered(cfg, Sweep(cfg, Observed(s, now), later), order)
  {
    hide LastAt;
    assert Ordered(cfg, Observed(s, now), order);
    SweepOrdered(cfg, Observed(s, now), order, later);
  }

  lemma StepOrdered(cfg: Config, run: Run, event: Event)
    requires ValidConfig(cfg) && Ordered(cfg, run.state, run.order) && Possible(cfg, run, event)
             && !Exhausted(run.state)
    ensures Ordered(cfg, Step(cfg, run, event).state, Step(cfg, run, event).order)
  {
    hide Ordered, CheckDim, Sweep, Names;
    ObservedOrdered(cfg, run.state, run.order, event.now, Clock(run.state, event.now));
    if event.Attempt? && event.peer.Some? {
      PreparedCounter(cfg, run.state, event.now);
      var ready := run.(state := Prepared(cfg, run.state, event.now));
      AttemptOrdered(cfg, ready, Dim(event.operation, event.peer.value), Clock(run.state, event.now), event.victim);
    }
  }

  lemma StepCounter(cfg: Config, run: Run, event: Event)
    requires ValidConfig(cfg)
    ensures run.state.nextRecency <= Step(cfg, run, event).state.nextRecency <= run.state.nextRecency + 1
  {
    hide Admit, Dead;
  }

  /** As long as the recency counter has not run out, which takes 2^64 - 1 admitted checks,
      entries and recency records are in bijection, ordered by last check, within the cap. */
  lemma {:induction false} OrderedUntilExhausted(cfg: Config, events: seq<Event>)
    requires ValidConfig(cfg) && Happened(cfg, events) && !Exhausted(Execute(cfg, events).state)
    ensures Ordered(cfg, Execute(cfg, events).state, Execute(cfg, events).order)
    ensures Execute(cfg, events).state.nextRecency <= |events|
  {
    hide Step, Possible, Ordered;
    if events == [] {
      StartOrdered(cfg);
    } else {
      var n := |events| - 1;
      StepCounter(cfg, Execute(cfg, events[..n]), events[n]);
      OrderedUntilExhausted(cfg, events[..n]);
      StepOrdered(cfg, Execute(cfg, events[..n]), events[n]);
    }
  }

  lemma StartOrdered(cfg: Config)
    ensures Ordered(cfg, NewLimiter(), [])
  {
  }
}
