/** The limiter as the program keeps it: entries, the recency index and the clock are
    changed in place, attempts are popped from the front one by one. */
module LimiterServices {
  import opened Base
  import opened LimiterLogs
  import opened Limiters

  /** `prune_attempts` */
  method PruneAttempts(e: Entry, window: u64, now: u64) returns (r: Entry)
    ensures r == e.(attempts := Prune(e.attempts, window, now))
  {
    var attempts := e.attempts;
    while attempts != [] && Age(now, attempts[0]) >= window
      invariant Prune(attempts, window, now) == Prune(e.attempts, window, now)
      decreases |attempts|
    {
      attempts := attempts[1..];
    }
    return e.(attempts := attempts);
  }

  lemma FirstExists(recency: set<(u64, Dim)>) returns (p: (u64, Dim))
    requires recency != {}
    ensures First(recency, p)
  {
    p := LeastExists(recency, (q: (u64, Dim)) => q.0);
  }

  /** The recency records of some entries. */
  function Records(entries: map<Dim, Entry>, some: set<Dim>): set<(u64, Dim)>
    requires some <= entries.Keys
  {
    set d | d in some :: (entries[d].recency, d)
  }

  lemma RecordsGrow(entries: map<Dim, Entry>, some: set<Dim>, d: Dim)
    requires some <= entries.Keys && d in entries
    ensures Records(entries, some + {d}) == Records(entries, some) + {(entries[d].recency, d)}
  {
  }

  lemma SweptParts(cfg: Config, s: State, marked: map<Dim, Entry>, dead: set<Dim>, now: u64)
    requires forall d :: d in dead <==> d in s.entries && Dead(cfg.policies(d.operation), s.entries[d], now)
    requires marked.Keys == s.entries.Keys
    requires forall d | d in marked && d !in dead :: marked[d] == Kept(cfg.policies(d.operation), s.entries[d], now)
    requires forall d | d in marked :: marked[d].recency == s.entries[d].recency
    ensures Sweep(cfg, s, now) == s.(entries := marked - dead, recency := s.recency - Records(marked, dead),
            lastSweep := Some(now))
  {
    hide Dead, Kept;
    assert Sweep(cfg, s, now).entries == marked - dead;
    assert Records(marked, dead) == set d | d in s.entries && Dead(cfg.policies(d.operation), s.entries[d], now) ::
           (s.entries[d].recency, d);
  }

  class Limiter {
    const cfg: Config
    var entries: map<Dim, Entry>
    var recency: set<(u64, Dim)>
    var nextRecency: u64
    var lastNow: Option<u64>
    var lastSweep: Option<u64>
    var reversals: u64
    var evictions: u64

    ghost function View(): State
      reads this
    {
      State(entries, recency, nextRecency, lastNow, lastSweep, reversals, evictions)
    }

    constructor (cfg: Config)
      requires ValidConfig(cfg)
      ensures this.cfg == cfg && View() == NewLimiter()
    {
      this.cfg, entries, recency, nextRecency := cfg, map[], {}, 0;
      lastNow, lastSweep, reversals, evictions := None, None, 0, 0;
    }

    method ObserveTime(now: u64) returns (effective: u64)
      modifies this`lastNow, this`reversals
      ensures effective == Clock(old(View()), now) && View() == Observed(old(View()), now)
    {
      effective := if lastNow.Some? && lastNow.value > now then lastNow.value else now;
      if effective != now { reversals := SaturatingSucc(reversals); }
      lastNow := Some(effective);
    }

    /** Two passes: entries are pruned where they stand and the dead ones noted, then the
        dead leave the entries and the recency index. */
    method SweepInner(now: u64)
      modifies this`entries, this`recency
      ensures View() == Sweep(cfg, old(View()), now).(lastSweep := old(lastSweep))
    {
      ghost var s := View();
      var dead := MarkAndPrune(now);
      SweptParts(cfg, s, entries, dead, now);
      hide Sweep;
      Discard(dead);
    }

    method Discard(dead: set<Dim>)
      requires dead <= entries.Keys
      modifies this`entries, this`recency
      ensures entries == old(entries) - dead && recency == old(recency) - Records(old(entries), dead)
    {
      ghost var was := entries;
      var left := dead;
      while left != {}
        invariant left <= dead
        invariant entries == was - (dead - left)
        invariant recency == old(recency) - Records(was, dead - left)
        decreases left
      {
        var d :| d in left;
        assert entries[d] == was[d];
        RecordsGrow(was, dead - left, d);
        recency := recency - {(entries[d].recency, d)};
        entries := entries - {d};
        assert dead - (left - {d}) == dead - left + {d};
        left := left - {d};
      }
      assert dead - {} == dead;
    }

    method MarkAndPrune(now: u64) returns (dead: set<Dim>)
      modifies this`entries
      ensures forall d :: d in dead <==> d in old(entries) && Dead(cfg.policies(d.operation), old(entries)[d], now)
      ensures entries.Keys == old(entries).Keys
      ensures forall d | d in entries && d !in dead ::
              entries[d] == Kept(cfg.policies(d.operation), old(entries)[d], now)
      ensures forall d | d in entries :: entries[d].recency == old(entries)[d].recency
    {
      ghost var was := entries;
      dead := {};
      var left := entries.Keys;
      while left != {}
        invariant left <= was.Keys && entries.Keys == was.Keys
        invariant forall d | d in left :: entries[d] == was[d]
        invariant forall d :: d in dead <==> d in was.Keys - left && Dead(cfg.policies(d.operation), was[d], now)
        invariant forall d | d in was.Keys - left && d !in dead ::
                  entries[d] == Kept(cfg.policies(d.operation), was[d], now)
        invariant forall d | d in entries :: entries[d].recency == was[d].recency
        decreases left
      {
        hide Prune;
        var d :| d in left;
        var e := entries[d];
        if e.cooldown.Some? {
          if now >= e.cooldown.value { dead := dead + {d}; }
        } else {
          var pruned := PruneAttempts(e, cfg.policies(d.operation).window, now);
          entries := entries[d := pruned];
          if pruned.attempts == [] { dead := dead + {d}; }
        }
        left := left - {d};
      }
    }

    method TouchDimension(d: Dim) returns (ok: bool)
      requires d in entries
      modifies this`entries, this`recency, this`nextRecency
      ensures ok == !Exhausted(old(View())) && View() == Touch(old(View()), d)
    {
      recency := recency - {(entries[d].recency, d)};
      if nextRecency == U64_MAX { return false; }
      var number := nextRecency;
      nextRecency := nextRecency + 1;
      entries := entries[d := entries[d].(recency := number)];
      recency := recency + {(number, d)};
      return true;
    }

    method EvictLru() returns (ghost victim: Option<(u64, Dim)>)
      modifies this`entries, this`recency, this`evictions
      ensures Names(old(View()), victim)
      ensures View() == if victim.Some? then Evict(old(View()), victim.value) else old(View())
    {
      if recency == {} { return None; }
      ghost var witnessed := FirstExists(recency);
      assert First(recency, witnessed);
      var first :| first in recency && forall q | q in recency :: first.0 <= q.0;
      recency := recency - {first};
      entries := entries - {first.1};
      evictions := SaturatingSucc(evictions);
      return Some(first);
    }

    method AdmitExisting(d: Dim, now: u64) returns (r: Result<Decision, Error>)
      requires d in entries
      modifies this`entries
      ensures d in entries && (entries[d], r) == Admit(cfg.policies(d.operation), old(entries[d]), now)
              && entries == old(entries)[d := entries[d]]
    {
      hide Prune;
      var policy := cfg.policies(d.operation);
      var e := entries[d];
      if e.cooldown.Some? {
        if now < e.cooldown.value { return Ok(Cooldown(e.cooldown.value)); }
        e := e.(cooldown := None, attempts := []);
      }
      e := PruneAttempts(e, policy.window, now);
      if |e.attempts| >= policy.limit {
        entries := entries[d := e];
        if now + COOLDOWN_SECONDS > U64_MAX { return Err(TimeOverflow); }
        entries := entries[d := e.(cooldown := Some(now + COOLDOWN_SECONDS))];
        return Ok(Cooldown(now + COOLDOWN_SECONDS));
      }
      e := e.(attempts := e.attempts + [now]);
      entries := entries[d := e];
      return Ok(Allowed(policy.limit - |e.attempts|));
    }

    method ReadClockAndSweep(now: u64) returns (effective: u64)
      modifies this
      ensures effective == Clock(old(View()), now) && View() == Prepared(cfg, old(View()), now)
    {
      effective := ObserveTime(now);
      if lastSweep.None? || Age(effective, lastSweep.value) >= cfg.sweepInterval {
        hide Sweep;
        SweepStamps(cfg, View(), effective);
        SweepInner(effective);
        lastSweep := Some(effective);
      }
    }

    method CheckDimension(d: Dim, now: u64) returns (r: Result<Decision, Error>, ghost victim: Option<(u64, Dim)>)
      requires ValidConfig(cfg)
      modifies this
      ensures Names(old(View()), victim) && (View(), r) == CheckDim(cfg, old(View()), d, now, victim)
    {
      hide Admit, First;
      victim := NameVictim();
      if d in entries {
        var touched := TouchDimension(d);
        if !touched { return Err(TimeOverflow), victim; }
        r := AdmitExisting(d, now);
        return r, victim;
      }
      if |entries| >= cfg.cap { victim := EvictLru(); }
      if nextRecency == U64_MAX { return Err(TimeOverflow), victim; }
      var number := nextRecency;
      nextRecency := nextRecency + 1;
      entries := entries[d := Entry([now], None, number)];
      recency := recency + {(number, d)};
      return Ok(Allowed(cfg.policies(d.operation).limit - 1)), victim;
    }

    method CheckAttempt(operation: Operation, peer: Option<Bytes32>, now: u64)
      returns (r: Result<Decision, Error>, ghost victim: Option<(u64, Dim)>)
      requires ValidConfig(cfg)
      modifies this
      ensures peer.Some? ==> Names(Prepared(cfg, old(View()), now), victim)
      ensures (View(), r) == Check(cfg, old(View()), operation, peer, now, victim)
    {
      hide Prepared, CheckDim, Names;
      if peer.None? { return Err(EmptyPeerAddress), None; }
      var effective := ReadClockAndSweep(now);
      r, victim := CheckDimension(Dim(operation, peer.value), effective);
    }

    ghost method NameVictim() returns (victim: Option<(u64, Dim)>)
      ensures Names(View(), victim)
    {
      if recency == {} { return None; }
      var p := FirstExists(recency);
      return Some(p);
    }
  }

  lemma SweepStamps(cfg: Config, s: State, now: u64)
    ensures Sweep(cfg, s, now).lastSweep == Some(now)
  {
  }
}
