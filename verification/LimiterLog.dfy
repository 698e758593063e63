/** The reference for src/limiter.rs: one dimension's log of decisions, never pruned,
    never swept, and the window bound it keeps. */
module LimiterLogs {
  import opened Base

  const COOLDOWN_SECONDS: u64 := 300

  datatype Policy = Policy(limit: u32, window: u64)

  datatype Decision = Allowed(remaining: u32) | Cooldown(retryAt: u64)

  datatype Error = InvalidConfiguration | TimeOverflow | EmptyPeerAddress

  datatype Stamp = Stamp(time: u64, decision: Decision)

  type Log = seq<Stamp>

  /** The cooldown the log ends in, if it does. */
  function CooldownOf(log: Log): Option<u64> {
    if log != [] && log[|log| - 1].decision.Cooldown? then Some(log[|log| - 1].decision.retryAt) else None
  }

  /** Times allowed since the last cooldown. */
  function Since(log: Log): seq<u64> {
    if log == [] || log[|log| - 1].decision.Cooldown? then []
    else Since(log[..|log| - 1]) + [log[|log| - 1].time]
  }

  /** `now.saturating_sub(t)`: how long ago. */
  function Age(now: u64, t: u64): u64 { if t <= now then now - t else 0 }

  /** How many of the times are less than a window ago. */
  function InWindow(times: seq<u64>, window: u64, now: u64): nat {
    if times == [] then 0
    else InWindow(times[..|times| - 1], window, now) + if Age(now, times[|times| - 1]) < window then 1 else 0
  }

  lemma {:induction false} InWindowBound(times: seq<u64>, window: u64, now: u64)
    ensures InWindow(times, window, now) <= |times|
  {
    if times != [] { InWindowBound(times[..|times| - 1], window, now); }
  }

  /** The decision the log calls for. */
  function Judge(policy: Policy, log: Log, now: u64): Result<Decision, Error> {
    var cooling := CooldownOf(log);
    if cooling.Some? && now < cooling.value then Ok(Cooldown(cooling.value))
    else
      var used := InWindow(Since(log), policy.window, now);
      if used >= policy.limit then
        if now + COOLDOWN_SECONDS > U64_MAX then Err(TimeOverflow) else Ok(Cooldown(now + COOLDOWN_SECONDS))
      else Ok(Allowed(policy.limit - used - 1))
  }

  /** A log some sequence of attempts at nondecreasing times produces. */
  predicate Feasible(policy: Policy, log: Log) {
    log == []
    || (var n := |log| - 1;
        && Feasible(policy, log[..n])
        && (n > 0 ==> log[n - 1].time <= log[n].time)
        && Judge(policy, log[..n], log[n].time) == Ok(log[n].decision))
  }

  // ---------------------------------------------------------------- the window bound

  /** How many attempts were allowed in [lo, hi). */
  function AllowedIn(log: Log, lo: int, hi: int): nat {
    if log == [] then 0
    else
      var last := log[|log| - 1];
      AllowedIn(log[..|log| - 1], lo, hi) + if last.decision.Allowed? && lo <= last.time < hi then 1 else 0
  }

  /** The same over an interval given by its width. */
  function AllowedFrom(log: Log, start: int, width: nat): nat { AllowedIn(log, start, start + width) }

  lemma Appended(policy: Policy, log: Log, stamp: Stamp, lo: int, hi: int, now: u64)
    ensures var next := log + [stamp];
            && ((Feasible(policy, log) && (log != [] ==> log[|log| - 1].time <= stamp.time)
                 && Judge(policy, log, stamp.time) == Ok(stamp.decision))
                ==> Feasible(policy, next))
            && CooldownOf(next) == (if stamp.decision.Cooldown? then Some(stamp.decision.retryAt) else None)
            && Since(next) == (if stamp.decision.Cooldown? then [] else Since(log) + [stamp.time])
            && AllowedIn(next, lo, hi) == AllowedIn(log, lo, hi) + (if stamp.decision.Allowed?
                 && lo <= stamp.time < hi then 1 else 0)
            && InWindow(Since(log) + [stamp.time], policy.window, now)
               == InWindow(Since(log), policy.window, now) + (if Age(now, stamp.time) < policy.window then 1 else 0)
  {
    assert (log + [stamp])[..|log|] == log;
    assert (Since(log) + [stamp.time])[..|Since(log)|] == Since(log);
  }

  lemma {:induction false} TimesAscend(policy: Policy, log: Log, i: nat)
    requires Feasible(policy, log) && i < |log|
    ensures log[i].time <= log[|log| - 1].time
  {
    if i < |log| - 1 { TimesAscend(policy, log[..|log| - 1], i); }
  }

  /** What a feasible log ends with: a cooldown runs out no earlier than 300 seconds
      after the last allowed attempt, and nothing is allowed before it has run out. */
  lemma {:induction false} CooldownSeparates(policy: Policy, log: Log, i: nat)
    requires Feasible(policy, log) && CooldownOf(log).Some? && i < |log| && log[i].decision.Allowed?
    ensures log[i].time + COOLDOWN_SECONDS <= CooldownOf(log).value
  {
    var n := |log| - 1;
    if CooldownOf(log[..n]).Some? && log[n].time < CooldownOf(log[..n]).value {
      CooldownSeparates(policy, log[..n], i);
    } else {
      TimesAscend(policy, log, i);
    }
  }

  /** Where the window is no longer than the cooldown, counting everything or only what
      came after the last cooldown makes no difference to a later attempt. */
  lemma {:induction false} OlderDoNotCount(policy: Policy, log: Log, now: u64)
    requires Feasible(policy, log) && policy.window <= COOLDOWN_SECONDS
    requires forall i :: 0 <= i < |log| ==> log[i].time <= now
    requires CooldownOf(log).Some? ==> CooldownOf(log).value <= now
    ensures AllowedIn(log, now - policy.window + 1, now + 1) == InWindow(Since(log), policy.window, now)
  {
    if log != [] {
      var n := |log| - 1;
      if log[n].decision.Cooldown? {
        NoneRecent(policy, log, now, |log|);
        assert log[..|log|] == log;
      } else {
        assert Since(log)[..|Since(log)| - 1] == Since(log[..n]);
        OlderDoNotCount(policy, log[..n], now);
      }
    }
  }

  lemma {:induction false} NoneRecent(policy: Policy, log: Log, now: u64, k: nat)
    requires Feasible(policy, log) && policy.window <= COOLDOWN_SECONDS && k <= |log|
    requires CooldownOf(log).Some? && CooldownOf(log).value <= now
    ensures AllowedIn(log[..k], now - policy.window + 1, now + 1) == 0
  {
    if k > 0 {
      NoneRecent(policy, log, now, k - 1);
      assert log[..k][..k - 1] == log[..k - 1];
      if log[k - 1].decision.Allowed? { CooldownSeparates(policy, log, k - 1); }
    }
  }

  lemma {:induction false} NarrowerCountsLess(log: Log, lo: int, hi: int, wider: int, beyond: int)
    requires wider <= lo && (forall i :: 0 <= i < |log| ==> log[i].time < beyond)
    ensures AllowedIn(log, lo, hi) <= AllowedIn(log, wider, beyond)
  {
    if log != [] { NarrowerCountsLess(log[..|log| - 1], lo, hi, wider, beyond); }
  }

  /** With a window of at most 300 seconds, no interval of that width ever holds more
      than `limit` allowed attempts. */
  lemma {:induction false} WindowBound(policy: Policy, log: Log, start: int)
    requires Feasible(policy, log) && policy.window <= COOLDOWN_SECONDS
    ensures AllowedFrom(log, start, policy.window) <= policy.limit
  {
    if log != [] {
      var n := |log| - 1;
      var last := log[n];
      WindowBound(policy, log[..n], start);
      if last.decision.Allowed? && start <= last.time < start + policy.window {
        forall i | 0 <= i < n ensures log[..n][i].time <= last.time { TimesAscend(policy, log, i); }
        OlderDoNotCount(policy, log[..n], last.time);
        NarrowerCountsLess(log[..n], start, start + policy.window, last.time - policy.window + 1, last.time + 1);
      }
    }
  }

  // ---------------------------------------------------------------- and exactly then

  /** `k` attempts at time 0. */
  function Burst(policy: Policy, k: nat): Log
    requires k <= policy.limit
  {
    if k == 0 then [] else Burst(policy, k - 1) + [Stamp(0, Allowed(policy.limit - k))]
  }

  lemma {:induction false} BurstIsFeasible(policy: Policy, k: nat)
    requires k <= policy.limit && policy.window > 0
    ensures |Burst(policy, k)| == k && Feasible(policy, Burst(policy, k)) && CooldownOf(Burst(policy, k)).None?
    ensures InWindow(Since(Burst(policy, k)), policy.window, 0) == k
    ensures AllowedIn(Burst(policy, k), 0, policy.window) == k
    ensures k > 0 ==> Burst(policy, k)[k - 1].time == 0
  {
    hide Judge, Feasible, Since, InWindow, AllowedIn;
    EmptyLog(policy);
    if k > 0 {
      BurstIsFeasible(policy, k - 1);
      JudgeOpen(policy, Burst(policy, k - 1), 0);
      Appended(policy, Burst(policy, k - 1), Stamp(0, Allowed(policy.limit - k)), 0, policy.window, 0);
    }
  }

  lemma EmptyLog(policy: Policy)
    ensures Feasible(policy, []) && Since([]) == [] && AllowedIn([], 0, policy.window) == 0
            && InWindow([], policy.window, 0) == 0
  {
  }

  lemma JudgeOpen(policy: Policy, log: Log, now: u64)
    requires CooldownOf(log).None? || CooldownOf(log).value <= now
    ensures var used := InWindow(Since(log), policy.window, now);
            && (used < policy.limit ==> Judge(policy, log, now) == Ok(Allowed(policy.limit - used - 1)))
            && (used >= policy.limit && now + COOLDOWN_SECONDS <= U64_MAX ==>
                 Judge(policy, log, now) == Ok(Cooldown(now + COOLDOWN_SECONDS)))
  {
  }

  /** The budget at time 0, one refusal, and an attempt when its cooldown is over. */
  function Comeback(policy: Policy): Log
    requires policy.limit > 0
  {
    Burst(policy, policy.limit) + [Stamp(0, Cooldown(COOLDOWN_SECONDS))] + [Stamp(COOLDOWN_SECONDS,
        Allowed(policy.limit - 1))]
  }

  lemma ComebackIsFeasible(policy: Policy)
    requires policy.limit > 0 && policy.window > 0
    ensures Feasible(policy, Comeback(policy))
    ensures policy.window > COOLDOWN_SECONDS ==> AllowedFrom(Comeback(policy), 0, policy.window) == policy.limit + 1
  {
    hide Judge, Feasible, Since, InWindow, AllowedIn;
    EmptyLog(policy);
    BurstIsFeasible(policy, policy.limit);
    var burst := Burst(policy, policy.limit);
    var refused := burst + [Stamp(0, Cooldown(COOLDOWN_SECONDS))];
    JudgeOpen(policy, burst, 0);
    Appended(policy, burst, Stamp(0, Cooldown(COOLDOWN_SECONDS)), 0, policy.window, 0);
    EmptyInWindow(policy, COOLDOWN_SECONDS);
    JudgeOpen(policy, refused, COOLDOWN_SECONDS);
    Appended(policy, refused, Stamp(COOLDOWN_SECONDS, Allowed(policy.limit - 1)), 0, policy.window, 0);
  }

  lemma EmptyInWindow(policy: Policy, now: u64)
    ensures InWindow([], policy.window, now) == 0
  {
  }

  /** The bound holds of every log if and only if the window does not exceed the cooldown:
      an expired cooldown forgets attempts that a longer window would still count. */
  lemma BoundExactlyWhenWindowFits(policy: Policy)
    requires policy.limit > 0 && policy.window > 0
    ensures (forall log, start :: Feasible(policy, log) ==> AllowedFrom(log, start, policy.window) <= policy.limit)
            <==> policy.window <= COOLDOWN_SECONDS
  {
    if policy.window <= COOLDOWN_SECONDS {
      forall log, start | Feasible(policy, log) ensures AllowedFrom(log, start, policy.window) <= policy.limit {
        WindowBound(policy, log, start);
      }
    } else {
      ComebackIsFeasible(policy);
      assert AllowedFrom(Comeback(policy), 0, policy.window) > policy.limit;
    }
  }
}
