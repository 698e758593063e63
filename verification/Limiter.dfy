/** The bounded limiter (src/limiter.rs): entries by dimension with pruned attempts, a
    recency index for eviction, lazy sweeps and a clock that never goes back. */
module Limiters {
  import opened Base
  import opened LimiterLogs

  datatype Operation = Bind | Allocate | Claim | Open | Put | Ack | Close | Ping

  /** An operation and the operator-keyed digest of a peer address. */
  datatype Dim = Dim(operation: Operation, peer: Bytes32)

  datatype Entry = Entry(attempts: seq<u64>, cooldown: Option<u64>, recency: u64)

  datatype Config = Config(policies: Operation -> Policy, cap: nat, sweepInterval: u64)

  datatype State = State(
    entries: map<Dim, Entry>, recency: set<(u64, Dim)>, nextRecency: u64,
    lastNow: Option<u64>, lastSweep: Option<u64>, reversals: u64, evictions: u64)

  predicate ValidConfig(cfg: Config) {
    cfg.cap > 0 && cfg.sweepInterval > 0
    && forall operation :: cfg.policies(operation).limit > 0 && cfg.policies(operation).window > 0
  }

  function NewLimiter(): State { State(map[], {}, 0, None, None, 0, 0) }

  // ---------------------------------------------------------------- operations

  /** `observe_time`: the high-water mark. */
  function Clock(s: State, now: u64): u64 { if s.lastNow.Some? && s.lastNow.value > now then s.lastNow.value else now }

  function Observed(s: State, now: u64): State {
    s.(reversals := if Clock(s, now) != now then SaturatingSucc(s.reversals)
        else s.reversals, lastNow := Some(Clock(s, now)))
  }

  function Prune(attempts: seq<u64>, window: u64, now: u64): seq<u64> {
    if attempts != [] && Age(now, attempts[0]) >= window then Prune(attempts[1..], window, now) else attempts
  }

  predicate Dead(policy: Policy, e: Entry, now: u64) {
    if e.cooldown.Some? then now >= e.cooldown.value else Prune(e.attempts, policy.window, now) == []
  }

  function Kept(policy: Policy, e: Entry, now: u64): Entry {
    if e.cooldown.Some? then e else e.(attempts := Prune(e.attempts, policy.window, now))
  }

  function Sweep(cfg: Config, s: State, now: u64): State {
    s.(entries := map d | d in s.entries && !Dead(cfg.policies(d.operation), s.entries[d], now)
                    :: Kept(cfg.policies(d.operation), s.entries[d], now),
       recency := s.recency - set d | d in s.entries && Dead(cfg.policies(d.operation), s.entries[d], now) ::
           (s.entries[d].recency, d),
       lastSweep := Some(now))
  }

  predicate Due(cfg: Config, s: State, now: u64) { s.lastSweep.None? || Age(now,
      s.lastSweep.value) >= cfg.sweepInterval }

  function MaybeSweep(cfg: Config, s: State, now: u64): State { if Due(cfg, s, now) then Sweep(cfg, s, now) else s }

  predicate Exhausted(s: State) { s.nextRecency == U64_MAX }

  /** `touch`: the old record goes first, and stays gone if there is no new number. */
  function Touch(s: State, d: Dim): State
    requires d in s.entries
  {
    var removed := s.recency - {(s.entries[d].recency, d)};
    if Exhausted(s) then s.(recency := removed)
    else
      s.(recency := removed + {(s.nextRecency, d)},
         entries := s.entries[d := s.entries[d].(recency := s.nextRecency)],
         nextRecency := s.nextRecency + 1)
  }

  ghost predicate First(recency: set<(u64, Dim)>,
      p: (u64, Dim)) { p in recency && forall q | q in recency :: p.0 <= q.0 }

  function Evict(s: State, victim: (u64, Dim)): State {
    s.(recency := s.recency - {victim}, entries := s.entries - {victim.1}, evictions := SaturatingSucc(s.evictions))
  }

  /** One attempt against a live entry. */
  function Admit(policy: Policy, e: Entry, now: u64): (Entry, Result<Decision, Error>) {
    if e.cooldown.Some? && now < e.cooldown.value then (e, Ok(Cooldown(e.cooldown.value)))
    else
      var pruned := Prune(if e.cooldown.Some? then [] else e.attempts, policy.window, now);
      var open := e.(cooldown := None, attempts := pruned);
      if |pruned| >= policy.limit then
        if now + COOLDOWN_SECONDS > U64_MAX then (open, Err(TimeOverflow))
        else (open.(cooldown := Some(now + COOLDOWN_SECONDS)), Ok(Cooldown(now + COOLDOWN_SECONDS)))
      else (open.(attempts := pruned + [now]), Ok(Allowed(policy.limit - |pruned| - 1)))
  }

  /** One attempt on a dimension, after clock and sweep; `victim` is whom the recency
      index names first, should room be needed. */
  function CheckDim(cfg: Config, s: State, d: Dim, now: u64, victim: Option<(u64, Dim)>): (State,
      Result<Decision, Error>)
    requires ValidConfig(cfg)
  {
    var policy := cfg.policies(d.operation);
    if d in s.entries then
      var touched := Touch(s, d);
      if Exhausted(s) then (touched, Err(TimeOverflow))
      else
        var (entry, decision) := Admit(policy, touched.entries[d], now);
        (touched.(entries := touched.entries[d := entry]), decision)
    else
      var room := if |s.entries| >= cfg.cap && victim.Some? then Evict(s, victim.value) else s;
      if Exhausted(room) then (room, Err(TimeOverflow))
      else
        (room.(entries := room.entries[d := Entry([now], None, room.nextRecency)],
               recency := room.recency + {(room.nextRecency, d)},
               nextRecency := room.nextRecency + 1),
         Ok(Allowed(policy.limit - 1)))
  }

  /** The state a check meets once the clock is read and a due sweep is done. */
  function Prepared(cfg: Config, s: State, now: u64): State { MaybeSweep(cfg, Observed(s, now), Clock(s, now)) }

  function Check(cfg: Config, s: State, operation: Operation, peer: Option<Bytes32>, now: u64,
      victim: Option<(u64, Dim)>)
    : (State, Result<Decision, Error>)
    requires ValidConfig(cfg)
  {
    if peer.None? then (s, Err(EmptyPeerAddress))
    else CheckDim(cfg, Prepared(cfg, s, now), Dim(operation, peer.value), Clock(s, now), victim)
  }

  /** The victim is the first recency record, and there is none only in an empty index. */
  ghost predicate Names(s: State, victim: Option<(u64, Dim)>) {
    if victim.None? then s.recency == {} else First(s.recency, victim.value)
  }

  // ---------------------------------------------------------------- against the log

  /** What is left of the logged times once old ones are dropped from the front. */
  ghost predicate PrunedFrom(attempts: seq<u64>, times: seq<u64>, window: u64, now: u64) {
    && |attempts| <= |times|
    && attempts == times[|times| - |attempts|..]
    && forall i :: 0 <= i < |times| - |attempts| ==> Age(now, times[i]) >= window
  }

  /** The entry, or its absence, says of the future what the whole log says. */
  ghost predicate Tracks(policy: Policy, entry: Option<Entry>, log: Log, now: u64) {
    && Feasible(policy, log)
    && (log != [] ==> log[|log| - 1].time <= now)
    && match entry
       case None =>
         && (CooldownOf(log).Some? ==> CooldownOf(log).value <= now)
         && PrunedFrom([], Since(log), policy.window, now)
       case Some(e) =>
         && e.cooldown == CooldownOf(log)
         && (e.cooldown.None? ==> PrunedFrom(e.attempts, Since(log), policy.window, now))
  }

  ghost predicate Ascends(times: seq<u64>, now: u64) {
    (forall i, j :: 0 <= i < j < |times| ==> times[i] <= times[j]) && forall i :: 0 <= i < |times| ==> times[i] <= now
  }

  lemma {:induction false} SinceAscends(policy: Policy, log: Log)
    requires Feasible(policy, log)
    ensures log != [] ==> Ascends(Since(log), log[|log| - 1].time)
  {
    if log != [] && log[|log| - 1].decision.Allowed? {
      var n := |log| - 1;
      SinceAscends(policy, log[..n]);
      assert Since(log) == Since(log[..n]) + [log[n].time];
    }
  }

  lemma LaterTracks(policy: Policy, entry: Option<Entry>, log: Log, now: u64, later: u64)
    requires Tracks(policy, entry, log, now) && now <= later
    ensures Tracks(policy, entry, log, later)
  {
  }

  lemma {:induction false} PruneKeepsSuffix(attempts: seq<u64>, times: seq<u64>, window: u64, now: u64)
    requires PrunedFrom(attempts, times, window, now)
    ensures PrunedFrom(Prune(attempts, window, now), times, window, now)
    ensures Prune(attempts, window, now) != [] ==> Age(now, Prune(attempts, window, now)[0]) < window
    decreases |attempts|
  {
    if attempts != [] && Age(now, attempts[0]) >= window {
      var k := |times| - |attempts|;
      assert attempts[0] == times[k] && attempts[1..] == times[k + 1..];
      PruneKeepsSuffix(attempts[1..], times, window, now);
    }
  }

  lemma {:induction false} InWindowSuffix(times: seq<u64>, k: nat, window: u64, now: u64)
    requires k <= |times|
    requires forall i :: 0 <= i < k ==> Age(now, times[i]) >= window
    requires forall i :: k <= i < |times| ==> Age(now, times[i]) < window
    ensures InWindow(times, window, now) == |times| - k
  {
    if times != [] {
      var n := |times| - 1;
      InWindowSuffix(times[..n], Min(k, n), window, now);
    }
  }

  /** Pruning from the front counts exactly the logged attempts inside the window. */
  lemma PruneCounts(attempts: seq<u64>, times: seq<u64>, window: u64, now: u64)
    requires PrunedFrom(attempts, times, window, now) && Ascends(times, now)
    ensures |Prune(attempts, window, now)| == InWindow(times, window, now)
  {
    hide Prune, InWindow;
    PruneKeepsSuffix(attempts, times, window, now);
    var pruned := Prune(attempts, window, now);
    var k := |times| - |pruned|;
    assert forall i :: k <= i < |times| ==> times[i] == pruned[i - k];
    InWindowSuffix(times, k, window, now);
  }

  lemma SinceNow(policy: Policy, log: Log, now: u64)
    requires Feasible(policy, log) && (log != [] ==> log[|log| - 1].time <= now)
    ensures Ascends(Since(log), now)
  {
    SinceAscends(policy, log);
  }

  /** Attempts that survive pruning are those the log counts. */
  lemma OpenCounts(policy: Policy, e: Entry, log: Log, now: u64)
    requires Tracks(policy, Some(e), log, now) && (e.cooldown.Some? ==> e.cooldown.value <= now)
    ensures var pruned := Prune(if e.cooldown.Some? then [] else e.attempts, policy.window, now);
            |pruned| == InWindow(Since(log), policy.window, now) && PrunedFrom(pruned, Since(log), policy.window, now)
  {
    hide Feasible, Ascends;
    var attempts := if e.cooldown.Some? then [] else e.attempts;
    SinceNow(policy, log, now);
    assert PrunedFrom(attempts, Since(log), policy.window, now);
    hide PrunedFrom;
    PruneKeepsSuffix(attempts, Since(log), policy.window, now);
    PruneCounts(attempts, Since(log), policy.window, now);
  }

  lemma AllowedTracks(policy: Policy, e: Entry, pruned: seq<u64>, log: Log, now: u64, decision: Decision)
    requires Feasible(policy, log + [Stamp(now, decision)]) && decision.Allowed?
    requires PrunedFrom(pruned, Since(log), policy.window, now)
    ensures Tracks(policy, Some(e.(cooldown := None, attempts := pruned + [now])), log + [Stamp(now, decision)], now)
  {
    hide Feasible;
    Appended(policy, log, Stamp(now, decision), 0, 0, now);
    var times := Since(log);
    assert (times + [now])[|times| - |pruned|..] == pruned + [now];
  }

  /** A check of a live entry decides as its log does, and goes on tracking it. */
  lemma AdmitJudges(policy: Policy, e: Entry, log: Log, now: u64)
    requires Tracks(policy, Some(e), log, now) && policy.limit > 0
    ensures var (entry, r) := Admit(policy, e, now);
            && r == Judge(policy, log, now)
            && (r.Ok? ==> Tracks(policy, Some(entry), log + [Stamp(now, r.value)], now))
            && (r.Err? ==> Tracks(policy, Some(entry), log, now))
  {
    hide Feasible, Prune, InWindow, PrunedFrom, Since;
    var (entry, r) := Admit(policy, e, now);
    if e.cooldown.Some? && now < e.cooldown.value {
      Appended(policy, log, Stamp(now, r.value), 0, 0, now);
    } else {
      OpenCounts(policy, e, log, now);
      var pruned := Prune(if e.cooldown.Some? then [] else e.attempts, policy.window, now);
      if r.Ok? { Appended(policy, log, Stamp(now, r.value), 0, 0, now); }
      if r.Ok? && r.value.Allowed? {
        AllowedTracks(policy, e, pruned, log, now, r.value);
      } else if r.Err? && e.cooldown.Some? {
        PruneNothing(policy.window, now);
        assert false;
      }
    }
  }

  lemma PruneNothing(window: u64, now: u64)
    ensures Prune([], window, now) == []
  {
  }

  /** A dimension without an entry gets a full budget, as its log does. */
  lemma FreshJudges(policy: Policy, log: Log, now: u64, recency: u64)
    requires Tracks(policy, None, log, now) && policy.limit > 0 && policy.window > 0
    ensures Judge(policy, log, now) == Ok(Allowed(policy.limit - 1))
    ensures Tracks(policy, Some(Entry([now], None, recency)), log + [Stamp(now, Allowed(policy.limit - 1))], now)
  {
    hide Feasible, Since, InWindow;
    InWindowSuffix(Since(log), |Since(log)|, policy.window, now);
    assert Judge(policy, log, now) == Ok(Allowed(policy.limit - 1));
    hide Judge;
    Appended(policy, log, Stamp(now, Allowed(policy.limit - 1)), 0, 0, now);
    NewestAlone(Since(log), policy.window, now);
    hide PrunedFrom;
  }

  lemma NewestAlone(times: seq<u64>, window: u64, now: u64)
    requires PrunedFrom([], times, window, now)
    ensures PrunedFrom([now], times + [now], window, now)
  {
    assert (times + [now])[|times|..] == [now];
  }

  /** Sweeping an entry away, or pruning it, changes nothing a later check can see. */
  lemma SweepTracks(policy: Policy, e: Entry, log: Log, now: u64)
    requires Tracks(policy, Some(e), log, now)
    ensures Tracks(policy, if Dead(policy, e, now) then None else Some(Kept(policy, e, now)), log, now)
  {
    hide Feasible;
    if e.cooldown.None? { PruneKeepsSuffix(e.attempts, Since(log), policy.window, now); }
  }
}
