/** The relay service as the program keeps it: maps, sets and a running total changed
    in place, and the loops whose termination and results rest on their agreement. */
module RelayServices {
  import opened Base
  import opened Relays
  import opened RelayInvariant
  import M = Mailbox

  // ---------------------------------------------------------------- rebuilding from a store

  /** Two members under one hash: the second insertion finds the first. */
  predicate SharesHash(m: M.Mailbox) { m.claimant.Some? && m.claimant.value.hash == m.allocator.hash }

  function LoadOne(t: Tables, m: M.Mailbox): Result<Tables, Error> {
    if m.nameplate.Some? && m.nameplate.value in t.nameplates then Err(Storage)
    else if SharesHash(m) || HashesOf(m) * t.hashes != {} then Err(Storage)
    else if t.queueBytes + m.queueBytes > U64_MAX then Err(InvalidConfiguration)
    else if m.id in t.mailboxes then Err(Storage)
    else Ok(Inserted(t, m).(hashes := t.hashes + HashesOf(m), queueBytes := t.queueBytes + m.queueBytes))
  }

  function Load(loaded: seq<M.Mailbox>): Result<Tables, Error> {
    if loaded == [] then Ok(EmptyTables())
    else
      var t :- Load(loaded[..|loaded| - 1]);
      LoadOne(t, loaded[|loaded| - 1])
  }

  /** `with_store`, after its configuration check. */
  function Rebuild(caps: Caps, loaded: seq<M.Mailbox>): Result<Tables, Error> {
    var t :- Load(loaded);
    if |t.mailboxes| > caps.openMailboxes || t.queueBytes > caps.queueBytes then Err(InvalidConfiguration) else Ok(t)
  }

  method RebuildFrom(caps: Caps, loaded: seq<M.Mailbox>) returns (r: Result<Tables, Error>)
    ensures r == Rebuild(caps, loaded)
  {
    var t := EmptyTables();
    for i := 0 to |loaded|
      invariant Load(loaded[..i]) == Ok(t)
    {
      assert loaded[..i + 1][..i] == loaded[..i];
      var m := loaded[i];
      var step := LoadOne(t, m);
      if step.Err? {
        LoadStops(loaded, i + 1);
        return Err(step.error);
      }
      t := step.value;
    }
    assert loaded[..|loaded|] == loaded;
    if |t.mailboxes| > caps.openMailboxes || t.queueBytes > caps.queueBytes { return Err(InvalidConfiguration); }
    return Ok(t);
  }

  lemma {:induction false} LoadStops(loaded: seq<M.Mailbox>, n: nat)
    requires n <= |loaded| && Load(loaded[..n]).Err?
    ensures Load(loaded) == Load(loaded[..n])
    decreases |loaded|
  {
    if n < |loaded| {
      assert loaded[..|loaded| - 1][..n] == loaded[..n];
      LoadStops(loaded[..|loaded| - 1], n);
    } else {
      assert loaded[..n] == loaded;
    }
  }

  ghost predicate AllValid(h: M.Hashes, loaded: seq<M.Mailbox>) {
    forall i :: 0 <= i < |loaded| ==> M.Valid(h, loaded[i])
  }

  /** What loading keeps mailbox by mailbox, whatever the mailboxes: their indexes. */
  ghost predicate Loading(t: Tables) {
    && NameplatesOk(t.mailboxes, t.nameplates) && HashesOk(t.mailboxes, t.hashes)
    && ExpiriesOk(t.mailboxes, t.expiries) && t.queueBytes == QueueSum(t.mailboxes)
    && t.connections == map[] && t.routes == map[] && t.store == t.mailboxes && t.enabled
  }

  lemma LoadOneKeeps(t: Tables, m: M.Mailbox)
    requires Loading(t) && LoadOne(t, m).Ok?
    ensures Loading(LoadOne(t, m).value) && LoadOne(t, m).value.mailboxes == t.mailboxes[m.id := m]
            && m.id !in t.mailboxes
  {
    hide NameplatesOk, HashesOk, ExpiriesOk, QueueSum;
    InsertNameplates(t.mailboxes, t.nameplates, m);
    InsertHashes(t.mailboxes, t.hashes, m);
    InsertExpiries(t.mailboxes, t.expiries, m);
    QueueSumPut(t.mailboxes, m.id, m);
  }

  lemma EmptyLoads()
    ensures Loading(EmptyTables())
  {
  }

  /** `loaded` lists the mailboxes, each once, in some order. */
  ghost predicate Lists(loaded: seq<M.Mailbox>, ms: Mailboxes) {
    if loaded == [] then ms == map[]
    else
      var last := loaded[|loaded| - 1];
      last.id in ms && ms[last.id] == last && Lists(loaded[..|loaded| - 1], ms - {last.id})
  }

  /** The mailbox map alone determines every index. */
  lemma IndexesDetermined(a: Tables, b: Tables)
    requires NameplatesOk(a.mailboxes, a.nameplates) && HashesOk(a.mailboxes, a.hashes)
             && ExpiriesOk(a.mailboxes, a.expiries)
    requires NameplatesOk(b.mailboxes, b.nameplates) && HashesOk(b.mailboxes, b.hashes)
             && ExpiriesOk(b.mailboxes, b.expiries)
    requires a.mailboxes == b.mailboxes
    ensures a.nameplates == b.nameplates && a.hashes == b.hashes && a.expiries == b.expiries
  {
    hide Owned;
    assert forall x :: x in a.hashes <==> x in b.hashes;
    assert forall p :: p in a.expiries <==> p in b.expiries by {
      forall p ensures p in a.expiries <==> p in b.expiries { assert p == (p.0, p.1); }
    }
  }

  /** Loading what is left once one mailbox is removed leaves room for that mailbox. */
  lemma LoadsNext(h: M.Hashes, caps: Caps, t: Tables, part: Tables, m: M.Mailbox)
    requires Consistent(h, caps, t) && m.id in t.mailboxes && t.mailboxes[m.id] == m
    requires Loading(part) && part.mailboxes == t.mailboxes - {m.id}
    ensures LoadOne(part, m).Ok?
  {
    MemberIsValid(h, caps, t, m.id);
    MembersDiffer(h, m);
    hide M.Valid, MailboxesOk, NameplatesOk, HashesOk, ExpiriesOk, SeatsOk, QueueSum, Evict;
    RemoveKeeps(h, caps, t, m.id);
    IndexesDetermined(part, Removed(t, m.id));
    RemovedIndexes(t, m.id);
    QueueSumTakes(t.mailboxes, m.id);
  }

  lemma RemovedIndexes(t: Tables, id: Bytes32)
    requires id in t.mailboxes
    ensures Removed(t, id).hashes == t.hashes - HashesOf(t.mailboxes[id])
    ensures t.mailboxes[id].nameplate.Some? ==> t.mailboxes[id].nameplate.value !in Removed(t, id).nameplates
  {
  }

  lemma {:induction false} LoadSucceeds(h: M.Hashes, caps: Caps, t: Tables, loaded: seq<M.Mailbox>)
    requires Consistent(h, caps, t) && Lists(loaded, t.mailboxes)
    ensures Load(loaded).Ok? && Loading(Load(loaded).value) && Load(loaded).value.mailboxes == t.mailboxes
    decreases |loaded|
  {
    hide Consistent, Loading, LoadOne, M.Valid;
    if loaded == [] {
      EmptyLoads();
    } else {
      var m := loaded[|loaded| - 1];
      var rest := loaded[..|loaded| - 1];
      RemoveKeeps(h, caps, t, m.id);
      LoadSucceeds(h, caps, Removed(t, m.id), rest);
      LoadsNext(h, caps, t, Load(rest).value, m);
      LoadOneKeeps(Load(rest).value, m);
      assert (t.mailboxes - {m.id})[m.id := m] == t.mailboxes;
    }
  }

  lemma MemberIsValid(h: M.Hashes, caps: Caps, t: Tables, id: Bytes32)
    requires Consistent(h, caps, t) && id in t.mailboxes
    ensures M.Valid(h, t.mailboxes[id])
  {
  }

  lemma MembersDiffer(h: M.Hashes, m: M.Mailbox)
    requires M.Valid(h, m)
    ensures !SharesHash(m)
  {
  }

  /** Restart: rebuilding a service from its store, in whatever order the store lists
      it, succeeds and yields the live mailboxes, indexes and queue total. */
  lemma RestartEquivalence(h: M.Hashes, caps: Caps, t: Tables, loaded: seq<M.Mailbox>)
    requires Consistent(h, caps, t) && Lists(loaded, t.store)
    ensures Rebuild(caps, loaded) == Ok(t.(connections := map[], routes := map[], enabled := true))
  {
    hide Load, Lists, MailboxesOk, NameplatesOk, HashesOk, ExpiriesOk, SeatsOk, QueueSum;
    LoadSucceeds(h, caps, t, loaded);
    IndexesDetermined(Load(loaded).value, t);
  }

  lemma {:induction false} LoadKeeps(loaded: seq<M.Mailbox>)
    requires Load(loaded).Ok?
    ensures Loading(Load(loaded).value) && Lists(loaded, Load(loaded).value.mailboxes)
    ensures forall i :: 0 <= i < |loaded| ==> !SharesHash(loaded[i])
  {
    hide Loading, LoadOne, SharesHash;
    if loaded == [] {
      EmptyLoads();
    } else {
      var n := |loaded| - 1;
      var part := Load(loaded[..n]).value;
      LoadKeeps(loaded[..n]);
      LoadOneKeeps(part, loaded[n]);
      LoadedMembersDiffer(part, loaded[n]);
      assert part.mailboxes[loaded[n].id := loaded[n]] - {loaded[n].id} == part.mailboxes;
      forall i | 0 <= i < |loaded| ensures !SharesHash(loaded[i]) { if i < n { assert loaded[i] == loaded[..n][i]; } }
    }
  }

  lemma LoadedMembersDiffer(t: Tables, m: M.Mailbox)
    requires LoadOne(t, m).Ok?
    ensures !SharesHash(m)
  {
  }

  lemma {:induction false} ListedValid(h: M.Hashes, loaded: seq<M.Mailbox>, ms: Mailboxes)
    requires Lists(loaded, ms)
    ensures MailboxesOk(h, ms) <==> AllValid(h, loaded)
    decreases |loaded|
  {
    hide M.Valid;
    if loaded != [] {
      var n := |loaded| - 1;
      var last := loaded[n];
      ListedValid(h, loaded[..n], ms - {last.id});
      assert AllValid(h, loaded) ==> AllValid(h, loaded[..n]);
      var rest := ms - {last.id};
      forall id | MailboxesOk(h, rest) && M.Valid(h, last) && id in ms ensures ms[id].id == id && M.Valid(h, ms[id]) {
        if id != last.id { assert id in rest && rest[id] == ms[id]; }
      }
      forall id | MailboxesOk(h, ms) && id in rest ensures rest[id].id == id && M.Valid(h, rest[id]) {
        assert id in ms && rest[id] == ms[id];
      }
      forall i | AllValid(h, loaded[..n]) && M.Valid(h, last) && 0 <= i < |loaded| ensures M.Valid(h, loaded[i]) {
        if i < n { assert loaded[i] == loaded[..n][i]; }
      }
    }
  }

  /** And nothing else rebuilds: whatever mailboxes the store yields, a service that starts
      from them lists exactly those, has members and nameplates of their own, fits both
      caps, and is consistent exactly when each mailbox is one the relay can retain. */
  lemma RebuiltIsConsistent(h: M.Hashes, caps: Caps, loaded: seq<M.Mailbox>)
    requires Rebuild(caps, loaded).Ok?
    ensures Lists(loaded, Rebuild(caps, loaded).value.mailboxes)
    ensures forall i :: 0 <= i < |loaded| ==> !SharesHash(loaded[i])
    ensures Consistent(h, caps, Rebuild(caps, loaded).value) <==> AllValid(h, loaded)
  {
    hide Load, Lists, MailboxesOk, NameplatesOk, HashesOk, ExpiriesOk, QueueSum, AllValid, SharesHash;
    LoadKeeps(loaded);
    ListedValid(h, loaded, Load(loaded).value.mailboxes);
  }

  lemma LoneMailboxLoads(caps: Caps, m: M.Mailbox)
    requires !SharesHash(m) && caps.openMailboxes >= 1 && m.queueBytes <= caps.queueBytes
    ensures Rebuild(caps, [m]).Ok?
  {
    assert [m][..0] == [];
    assert Load([]) == Ok(EmptyTables());
    hide SharesHash;
    assert LoadOne(EmptyTables(), m).Ok?;
  }

  // ---------------------------------------------------------------- sweeping

  /** What a sweep leaves. */
  function Unexpired(ms: Mailboxes, now: u64): Mailboxes { map id | id in ms && ms[id].expiresAt > now :: ms[id] }

  /** The mailboxes reaped so far, and what their members were told. */
  ghost predicate Swept(was: Tables, t: Tables, now: u64, messages: seq<Routed>) {
    && (forall id | id in t.mailboxes :: id in was.mailboxes && t.mailboxes[id] == was.mailboxes[id])
    && (forall id | id in was.mailboxes && id !in t.mailboxes :: was.mailboxes[id].expiresAt <= now)
    && (forall seat :: seat in t.routes <==> seat in was.routes && seat.id in t.mailboxes)
    && (forall seat | seat in t.routes :: t.routes[seat] == was.routes[seat])
    && (forall m :: m in messages <==> Notified(was, t, m))
  }

  /** Someone attached to a mailbox that is gone, being told that it expired. */
  ghost predicate Notified(was: Tables, t: Tables, m: Routed) {
    exists seat :: seat in was.routes && seat.id !in t.mailboxes
        && m == Routed(was.routes[seat], ClosedReply(M.Expired))
  }

  lemma EvictRoutes(t: Tables, seat: Seat)
    ensures Evict(t, seat).routes == t.routes - {seat} && Evict(t, seat).mailboxes == t.mailboxes
  {
  }

  lemma RemovedRoutes(t: Tables, id: Bytes32)
    requires id in t.mailboxes
    ensures forall seat :: seat in Removed(t, id).routes <==> seat in t.routes && seat.id != id
    ensures forall seat | seat in Removed(t, id).routes :: Removed(t, id).routes[seat] == t.routes[seat]
    ensures Removed(t, id).mailboxes == t.mailboxes - {id}
  {
    hide Evict;
    var t1 := Unindexed(t, id, t.mailboxes[id]);
    EvictRoutes(t1, Seat(id, M.Allocator));
    EvictRoutes(Evict(t1, Seat(id, M.Allocator)), Seat(id, M.Claimant));
    forall seat: Seat ensures seat in {Seat(id, M.Allocator), Seat(id, M.Claimant)} <==> seat.id == id {
      assert seat.who == M.Allocator || seat.who == M.Claimant;
    }
  }

  lemma TerminalRoutesAre(t: Tables, id: Bytes32, reason: M.CloseReason, m: Routed)
    ensures m in TerminalRoutes(t, id, reason) <==>
              exists seat :: seat in t.routes && seat.id == id && m == Routed(t.routes[seat], ClosedReply(reason))
  {
    if seat :| seat in t.routes && seat.id == id && m == Routed(t.routes[seat], ClosedReply(reason)) {
      assert seat == Seat(id, if seat.who.Allocator? then M.Allocator else M.Claimant);
    }
    if m in TerminalRoutes(t, id, reason) {
      var who := if Seat(id, M.Allocator) in t.routes
          && m == Routed(t.routes[Seat(id, M.Allocator)], ClosedReply(reason)) then M.Allocator else M.Claimant;
      assert Seat(id, who) in t.routes && Seat(id, who).id == id;
    }
  }

  lemma SweptStep(was: Tables, t: Tables, now: u64, messages: seq<Routed>, id: Bytes32)
    requires Swept(was, t, now, messages) && id in t.mailboxes && t.mailboxes[id].expiresAt <= now
    ensures Swept(was, Removed(t, id), now, messages + TerminalRoutes(t, id, M.Expired))
  {
    hide TerminalRoutes, Removed;
    RemovedRoutes(t, id);
    var next, told := Removed(t, id), messages + TerminalRoutes(t, id, M.Expired);
    forall m ensures m in told <==> Notified(was, next, m) {
      TerminalRoutesAre(t, id, M.Expired, m);
      if seat :| seat in t.routes && seat.id == id && m == Routed(t.routes[seat], ClosedReply(M.Expired)) {
        assert seat in was.routes && seat.id !in next.mailboxes;
      }
      if Notified(was, t, m) {
        var seat :| seat in was.routes && seat.id !in t.mailboxes
            && m == Routed(was.routes[seat], ClosedReply(M.Expired));
        assert seat.id !in next.mailboxes;
      }
      if Notified(was, next, m) {
        var seat :| seat in was.routes && seat.id !in next.mailboxes
            && m == Routed(was.routes[seat], ClosedReply(M.Expired));
        if seat.id == id { assert seat in t.routes; } else { assert seat.id !in t.mailboxes; }
      }
    }
  }

  // ---------------------------------------------------------------- ordered keys

  predicate Earliest(expiries: set<(u64, Bytes32)>,
      first: (u64, Bytes32)) { forall e | e in expiries :: first.0 <= e.0 }

  predicate Smallest(keys: set<u32>, least: u32) { forall k | k in keys :: least <= k }

  lemma SmallestExists(keys: set<u32>) returns (least: u32)
    requires keys != {}
    ensures least in keys && Smallest(keys, least)
  {
    least := LeastExists(keys, (k: u32) => k);
  }

  lemma EarliestExists(expiries: set<(u64, Bytes32)>) returns (first: (u64, Bytes32))
    requires expiries != {}
    ensures first in expiries && Earliest(expiries, first)
  {
    first := LeastExists(expiries, (e: (u64, Bytes32)) => e.0);
  }

  /** The order in which a sorted map yields its keys. */
  method Ascending(keys: set<u32>) returns (sorted: seq<u32>)
    ensures forall k :: k in sorted <==> k in keys
    ensures forall i, j :: 0 <= i < j < |sorted| ==> sorted[i] < sorted[j]
  {
    sorted := [];
    var left := keys;
    while left != {}
      invariant forall k :: k in keys <==> k in sorted || k in left
      invariant forall i, j :: 0 <= i < j < |sorted| ==> sorted[i] < sorted[j]
      invariant forall i, k :: 0 <= i < |sorted| && k in left ==> sorted[i] < k
      decreases left
    {
      ghost var witnessed := SmallestExists(left);
      var least :| least in left && Smallest(left, least);
      assert Smallest(left, least);
      sorted := sorted + [least];
      left := left - {least};
    }
  }

  // ---------------------------------------------------------------- the service

  class RelayService {
    const caps: Caps
    var mailboxes: Mailboxes
    var nameplates: map<u32, Bytes32>
    var hashes: set<Bytes32>
    var expiries: set<(u64, Bytes32)>
    var queueBytes: int
    var connections: map<Conn, Connection>
    var routes: map<Seat, Conn>
    var store: Mailboxes
    var enabled: bool

    function View(): Tables
      reads this
    {
      Tables(mailboxes, nameplates, hashes, expiries, queueBytes, connections, routes, store, enabled)
    }

    constructor (caps: Caps, t: Tables)
      ensures this.caps == caps && View() == t
    {
      this.caps := caps;
      mailboxes, nameplates, hashes, expiries := t.mailboxes, t.nameplates, t.hashes, t.expiries;
      queueBytes, connections, routes, store, enabled := t.queueBytes, t.connections, t.routes, t.store, t.enabled;
    }

    method AttachTo(c: Conn, seat: Seat)
      modifies this`connections, this`routes
      ensures View() == Attach(old(View()), c, seat)
    {
      if c in connections && connections[c].seat.Some? {
        var previous := connections[c].seat.value;
        if previous in routes && routes[previous] == c { routes := routes - {previous}; }
      }
      if seat in routes && routes[seat] != c && routes[seat] in connections {
        connections := connections[routes[seat] := connections[routes[seat]].(seat := None)];
      }
      routes := routes[seat := c];
      connections := connections[c := (if c in connections then connections[c]
          else Connection(false, None)).(seat := Some(seat))];
    }

    method DisconnectFrom(c: Conn)
      modifies this`connections, this`routes
      ensures View() == Disconnect(old(View()), c)
    {
      if c in connections {
        var seat := connections[c].seat;
        connections := connections - {c};
        if seat.Some? && seat.value in routes && routes[seat.value] == c { routes := routes - {seat.value}; }
      }
    }

    method EvictFrom(seat: Seat)
      modifies this`connections, this`routes
      ensures View() == Evict(old(View()), seat)
    {
      if seat in routes {
        var c := routes[seat];
        routes := routes - {seat};
        if c in connections { connections := connections[c := connections[c].(seat := None)]; }
      }
    }

    method RemoveMailbox(id: Bytes32, willing: bool) returns (r: Result<(), Error>)
      modifies this
      ensures r == if willing then Ok(()) else Err(Storage)
      ensures View() == if willing then Removed(old(View()), id) else old(View())
    {
      hide Evict;
      if !willing { return Err(Storage); }
      store := store - {id};
      if id in mailboxes {
        var m := mailboxes[id];
        mailboxes := mailboxes - {id};
        if m.nameplate.Some? { nameplates := nameplates - {m.nameplate.value}; }
        hashes := hashes - HashesOf(m);
        expiries := expiries - {(m.expiresAt, id)};
        queueBytes := queueBytes - m.queueBytes;
        assert View() == Unindexed(old(View()), id, m);
        EvictFrom(Seat(id, M.Allocator));
        EvictFrom(Seat(id, M.Claimant));
      }
      return Ok(());
    }

    method CommitStep(id: Bytes32, state: Option<M.Mailbox>, willing: bool) returns (r: Result<(), Error>)
      modifies this
      ensures match Commit(old(View()), id, state, willing)
              case Ok(next) => r == Ok(()) && View() == next
              case Err(e) => r == Err(e) && View() == old(View())
    {
      hide Removed;
      if state.Some? {
        if !willing { return Err(Storage); }
        store := store[state.value.id := state.value];
        var previous := if id in mailboxes then mailboxes[id].queueBytes else 0;
        queueBytes := queueBytes - previous + state.value.queueBytes;
        hashes := hashes + HashesOf(state.value);
        mailboxes := mailboxes[id := state.value];
        return Ok(());
      } else if id in mailboxes {
        r := RemoveMailbox(id, willing);
      } else {
        return Ok(());
      }
    }

    // One request at a time: each method answers as the function it names.

    method AllocateMailbox(h: M.Hashes, c: Conn, now: u64, random: Random, mode: u8, ttl: Option<u32>, willing: bool)
      returns (r: Result<seq<Routed>, Error>)
      modifies this
      ensures (View(), r) == AllocateStep(h, caps, old(View()), c, now, random, mode, ttl, willing)
    {
      hide Attach;
      if !enabled { return Ok([Routed(c, Failure(503))]); }
      if View().SeatOf(c).Some? { return Ok([Routed(c, Failure(409))]); }
      if |mailboxes| >= caps.openMailboxes || random.id in mailboxes
          || h.token(random.token) in hashes { return Ok([Routed(c, Failure(503))]); }
      if mode == 1 && (random.nameplate > M.MAX_NAMEPLATE
          || random.nameplate in nameplates) { return Ok([Routed(c, Failure(503))]); }
      if mode > 1 { return Ok([Routed(c, Failure(400))]); }
      var nameplate := if mode == 0 then None else Some(random.nameplate);
      var opening := M.Allocate(random.id, nameplate, h.token(random.token), now, ttl);
      if opening.Err? { return Ok([Routed(c, Refusal(opening.error))]); }
      var m := opening.value;
      r := Retain(c, m, AllocatedReply(m.id, random.token, nameplate, m.expiresAt), willing);
    }

    method AllocateMailboxV2(h: M.Hashes, c: Conn, now: u64, token: Bytes32, id: Bytes32, commitment: Bytes32,
        ttl: Option<u16>, willing: bool)
      returns (r: Result<seq<Routed>, Error>)
      modifies this
      ensures (View(), r) == AllocateV2Step(h, caps, old(View()), c, now, token, id, commitment, ttl, willing)
    {
      hide Attach;
      if !enabled { return Ok([Routed(c, Failure(503))]); }
      if View().SeatOf(c).Some? { return Ok([Routed(c, Failure(409))]); }
      if |mailboxes| >= caps.openMailboxes || id in mailboxes
          || h.token(token) in hashes { return Ok([Routed(c, Failure(503))]); }
      var opening := M.AllocateV2(id, h.token(token), commitment, now, ttl);
      if opening.Err? { return Ok([Routed(c, Refusal(opening.error))]); }
      r := Retain(c, opening.value, AllocatedV2Reply(id, token, opening.value.expiresAt), willing);
    }

    method Retain(c: Conn, m: M.Mailbox, reply: Message, willing: bool) returns (r: Result<seq<Routed>, Error>)
      modifies this
      ensures (View(), r) == AdmitMailbox(old(View()), c, m, reply, willing)
    {
      hide Attach;
      if !willing { return Err(Storage); }
      store := store[m.id := m];
      mailboxes := mailboxes[m.id := m];
      hashes := hashes + {m.allocator.hash};
      expiries := expiries + {(m.expiresAt, m.id)};
      if m.nameplate.Some? { nameplates := nameplates[m.nameplate.value := m.id]; }
      AttachTo(c, Seat(m.id, M.Allocator));
      return Ok([Routed(c, reply)]);
    }

    method ClaimMailbox(h: M.Hashes, c: Conn, now: u64, token: Bytes32, locator: Locator, willing: bool)
      returns (r: Result<seq<Routed>, Error>)
      modifies this
      ensures (View(), r) == ClaimStep(h, old(View()), c, now, token, locator, willing)
    {
      hide Attach, Commit, M.Transition, ClaimExpiry, EndReason, TerminalRoutes, Distinct;
      if View().SeatOf(c).Some? { return Ok([Routed(c, Failure(409))]); }
      var resolved := Resolve(View(), locator);
      if resolved.None? { return Ok([Routed(c, Failure(404))]); }
      if h.token(token) in hashes { return Ok([Routed(c, Failure(409))]); }
      var id := resolved.value;
      if id !in mailboxes { return Ok([Routed(c, Failure(404))]); }
      var step := M.Transition(h, mailboxes[id], now, M.Claim(h.token(token)));
      if step.Err? { return Ok([Routed(c, Refusal(step.error))]); }
      var claimed, reason := ClaimExpiry(step.value.effects), EndReason(step.value.effects);
      var committed := CommitStep(id, step.value.state, willing);
      if committed.Err? { return Err(committed.error); }
      if claimed.Some? {
        AttachTo(c, Seat(id, M.Claimant));
        return Ok([Routed(c, ClaimedReply(id, token, claimed.value))]);
      }
      if reason.Some? { return Ok(Distinct(TerminalRoutes(View(), id,
          reason.value) + [Routed(c, ClosedReply(reason.value))])); }
      return Ok([Routed(c, Failure(503))]);
    }

    method ClaimMailboxV2(h: M.Hashes, c: Conn, now: u64, token: Bytes32, id: Bytes32, claimToken: Bytes16,
        willing: bool)
      returns (r: Result<seq<Routed>, Error>)
      modifies this
      ensures (View(), r) == ClaimV2Step(h, old(View()), c, now, token, id, claimToken, willing)
    {
      hide Attach, Commit, M.Transition, ClaimExpiry;
      if View().SeatOf(c).Some? { return Ok([Routed(c, Failure(409))]); }
      if h.token(token) in hashes { return Ok([Routed(c, Failure(409))]); }
      if id !in mailboxes { return Ok([Routed(c, Failure(404))]); }
      var step := M.Transition(h, mailboxes[id], now, M.ClaimV2(h.token(token), claimToken));
      if step.Err? { return Ok([Routed(c, Refusal(step.error))]); }
      var claimed := ClaimExpiry(step.value.effects);
      var committed := CommitStep(id, step.value.state, willing);
      if committed.Err? { return Err(committed.error); }
      if claimed.None? { return Ok([Routed(c, Failure(503))]); }
      AttachTo(c, Seat(id, M.Claimant));
      return Ok([Routed(c, ClaimedV2Reply(id, token, claimed.value))]);
    }

    method OpenMailbox(h: M.Hashes, c: Conn, now: u64, id: Bytes32, token: Bytes32, willing: bool)
      returns (r: Result<seq<Routed>, Error>)
      modifies this
      ensures (View(), r) == OpenStep(h, old(View()), c, now, id, token, willing)
    {
      hide Attach, Commit, M.Transition, OpenedAs, EndReason, Resumed, TerminalRoutes, Distinct;
      if id !in mailboxes { return Ok([Routed(c, Failure(404))]); }
      var step := M.Transition(h, mailboxes[id], now, M.Open(h.token(token)));
      if step.Err? { return Ok([Routed(c, Refusal(step.error))]); }
      var who, reason := OpenedAs(step.value.effects), EndReason(step.value.effects);
      var deliveries := Resumed(c, step.value.effects);
      var committed := CommitStep(id, step.value.state, willing);
      if committed.Err? { return Err(committed.error); }
      if who.Some? {
        AttachTo(c, Seat(id, who.value));
        return Ok(deliveries);
      }
      if reason.Some? { return Ok(Distinct(TerminalRoutes(View(), id,
          reason.value) + [Routed(c, ClosedReply(reason.value))])); }
      return Ok([Routed(c, Failure(503))]);
    }

    method MemberCommand(h: M.Hashes, c: Conn, now: u64, request: Request, willing: bool)
      returns (r: Result<seq<Routed>, Error>)
      requires request.Put? || request.Ack? || request.Close?
      modifies this
      ensures (View(), r) == MemberStep(h, caps, old(View()), c, now, request, willing)
    {
      hide Commit, M.Transition, Outgoing, ProjectedQueue, Distinct;
      var seat := View().SeatOf(c);
      if seat.None? || seat.value.id !in mailboxes { return Ok([Routed(c, Failure(404))]); }
      var id := seat.value.id;
      var step := M.Transition(h, mailboxes[id], now, MailboxCommand(seat.value.who, request));
      if step.Err? { return Ok([Routed(c, Refusal(step.error))]); }
      if ProjectedQueue(View(), id, step.value.state) > caps.queueBytes { return Ok([Routed(c, Failure(503))]); }
      var messages := if StoredIn(request, step.value.effects) then [Routed(c, AcknowledgedReply(request.seqNo))]
          else [];
      messages := messages + Outgoing(View(), id, step.value.effects);
      var committed := CommitStep(id, step.value.state, willing);
      if committed.Err? { return Err(committed.error); }
      return Ok(Distinct(messages));
    }

    method HandleRequest(h: M.Hashes, c: Conn, now: u64, allowed: bool, random: Random, request: Request, willing: bool)
      returns (r: Result<seq<Routed>, Error>)
      modifies this
      ensures (View(), r) == Handle(h, caps, old(View()), c, now, allowed, random, request, willing)
    {
      hide AllocateStep, AllocateV2Step, ClaimStep, ClaimV2Step, OpenStep, MemberStep;
      if !allowed { return Ok([Routed(c, Failure(429))]); }
      if request.Bind? {
        connections := connections[c := (if c in connections then connections[c]
            else Connection(false, None)).(bound := true)];
        return Ok([Routed(c, Welcome)]);
      }
      if !View().BoundTo(c) { return Ok([Routed(c, Failure(400))]); }
      if request.Ping? { return Ok([Routed(c, Pong)]); }
      if request.Allocate? { r := AllocateMailbox(h, c, now, random, request.mode, request.ttl, willing); return; }
      if request.AllocateV2? { r := AllocateMailboxV2(h, c, now, random.token, request.id, request.commitment,
          request.ttlV2, willing); return; }
      if request.Claim? { r := ClaimMailbox(h, c, now, random.token, request.locator, willing); return; }
      if request.ClaimV2? { r := ClaimMailboxV2(h, c, now, random.token, request.id, request.claimToken,
          willing); return; }
      if request.Open? { r := OpenMailbox(h, c, now, request.id, request.token, willing); return; }
      r := MemberCommand(h, c, now, request, willing);
    }

    /** Reaps in order of expiry. The loop ends because each turn removes the entry it
        looked at, which needs the index to agree with the mailboxes; what is left is
        exactly what expires later, and exactly the seats of what is gone were told. */
    method Sweep(h: M.Hashes, now: u64, willing: Bytes32 -> bool) returns (r: Result<seq<Routed>, Error>)
      requires Consistent(h, caps, View())
      modifies this
      ensures Consistent(h, caps, View())
      ensures r.Ok? ==> mailboxes == Unexpired(old(mailboxes), now) && Swept(old(View()), View(), now, r.value)
      ensures r.Err? ==>
              r.error == Storage && exists id :: id in mailboxes && mailboxes[id].expiresAt <= now && !willing(id)
    {
      ghost var was := View();
      hide Consistent, Swept, Removed, TerminalRoutes, Unexpired;
      SweptNothing(h, caps, was, now);
      var messages: seq<Routed> := [];
      while expiries != {}
        invariant Consistent(h, caps, View())
        invariant Swept(was, View(), now, messages)
        decreases |expiries|
      {
        ghost var witnessed := EarliestExists(expiries);
        var first :| first in expiries && Earliest(expiries, first);
        assert Earliest(expiries, first);
        if first.0 > now {
          NothingDue(h, caps, was, View(), now, messages);
          return Ok(messages);
        }
        SweepTurn(h, caps, was, View(), now, messages, first);
        messages := messages + TerminalRoutes(View(), first.1, M.Expired);
        var removed := RemoveMailbox(first.1, willing(first.1));
        if removed.Err? { return Err(removed.error); }
      }
      NothingDue(h, caps, was, View(), now, messages);
      return Ok(messages);
    }

    /** The least positive number no retained mailbox owns, or none if all are taken. */
    method FirstAvailableNameplate(h: M.Hashes) returns (r: Option<u32>)
      requires Consistent(h, caps, View())
      ensures r.Some? ==>
              1 <= r.value <= M.MAX_NAMEPLATE && Free(mailboxes, r.value) && forall n :: 1 <= n < r.value ==>
                  !Free(mailboxes, n)
      ensures r.None? ==> forall n :: 1 <= n <= M.MAX_NAMEPLATE ==> !Free(mailboxes, n)
    {
      FreeIsUnindexed(h, caps, View());
      hide Consistent, Free;
      var keys := Ascending(nameplates.Keys);
      var candidate := FirstGap(keys);
      return if candidate <= M.MAX_NAMEPLATE then Some(candidate) else None;
    }
  }

  /** The loop of `first_available_nameplate` over ascending keys. */
  method FirstGap(keys: seq<u32>) returns (candidate: nat)
    requires forall i, j :: 0 <= i < j < |keys| ==> keys[i] < keys[j]
    ensures 1 <= candidate && candidate !in keys && forall n :: 1 <= n < candidate ==> n in keys
  {
    candidate := 1;
    var i := 0;
    while i < |keys|
      invariant 0 <= i <= |keys| && 1 <= candidate
      invariant forall n :: 1 <= n < candidate ==> n in keys
      invariant forall k :: 0 <= k < i ==> keys[k] < candidate
    {
      var occupied := keys[i];
      if occupied < candidate { i := i + 1; continue; }
      if occupied != candidate { break; }
      candidate := candidate + 1;
      i := i + 1;
    }
  }

  /** No retained mailbox owns the number. */
  ghost predicate Free(ms: Mailboxes,
      n: int) { forall id | id in ms :: ms[id].nameplate.None? || ms[id].nameplate.value != n }

  lemma FreeIsUnindexed(h: M.Hashes, caps: Caps, t: Tables)
    requires Consistent(h, caps, t)
    ensures forall n: u32 :: Free(t.mailboxes, n) <==> n !in t.nameplates
    ensures forall n | n in t.nameplates :: n <= M.MAX_NAMEPLATE
  {
    hide HashesOk, ExpiriesOk, SeatsOk, QueueSum;
    forall n | n in t.nameplates ensures n <= M.MAX_NAMEPLATE { assert M.Valid(h, t.mailboxes[t.nameplates[n]]); }
  }

  lemma SweptNothing(h: M.Hashes, caps: Caps, t: Tables, now: u64)
    requires Consistent(h, caps, t)
    ensures Swept(t, t, now, [])
  {
    hide MailboxesOk, NameplatesOk, HashesOk, ExpiriesOk, QueueSum;
    forall seat | seat in t.routes ensures seat.id in t.mailboxes { assert IsMember(t.mailboxes, seat); }
    hide SeatsOk;
    forall m ensures !Notified(t, t, m) {}
  }

  lemma SweepTurn(h: M.Hashes, caps: Caps, was: Tables, t: Tables, now: u64, messages: seq<Routed>,
      first: (u64, Bytes32))
    requires Consistent(h, caps, t) && Swept(was, t, now, messages) && first in t.expiries && first.0 <= now
    ensures first.1 in t.mailboxes && t.mailboxes[first.1].expiresAt <= now
    ensures Consistent(h, caps, Removed(t, first.1))
    ensures Swept(was, Removed(t, first.1), now, messages + TerminalRoutes(t, first.1, M.Expired))
    ensures |Removed(t, first.1).expiries| < |t.expiries|
  {
    hide MailboxesOk, NameplatesOk, HashesOk, SeatsOk, QueueSum, Swept, Removed, TerminalRoutes;
    assert first == (first.0, first.1);
    RemoveKeeps(h, caps, t, first.1);
    SweptStep(was, t, now, messages, first.1);
  }

  lemma NothingDue(h: M.Hashes, caps: Caps, was: Tables, t: Tables, now: u64, messages: seq<Routed>)
    requires Consistent(h, caps, t) && Swept(was, t, now, messages) && forall e | e in t.expiries :: e.0 > now
    ensures t.mailboxes == Unexpired(was.mailboxes, now)
  {
    hide MailboxesOk, NameplatesOk, HashesOk, SeatsOk, QueueSum, Notified;
    forall id | id in t.mailboxes ensures t.mailboxes[id].expiresAt > now {
      assert (t.mailboxes[id].expiresAt, id) in t.expiries;
    }
  }
}
