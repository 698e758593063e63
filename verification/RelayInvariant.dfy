/** Every index of the relay service agrees with the mailbox map it is redundant to,
    through every sequence of calls and every refusal of the store. */
module RelayInvariant {
  import opened Base
  import opened Relays
  import M = Mailbox
  import R = MailboxRuns

  type Mailboxes = map<Bytes32, M.Mailbox>

  // ---------------------------------------------------------------- the recomputed indexes

  ghost predicate MailboxesOk(h: M.Hashes, ms: Mailboxes) {
    forall id | id in ms :: M.Valid(h, ms[id]) && ms[id].id == id
  }

  /** The nameplate index is the inverse of the mailboxes' own nameplates. */
  ghost predicate NameplatesOk(ms: Mailboxes, ns: map<u32, Bytes32>) {
    && (forall n | n in ns :: ns[n] in ms && ms[ns[n]].nameplate == Some(n))
    && (forall id | id in ms && ms[id].nameplate.Some? :: ms[id].nameplate.value in ns
         && ns[ms[id].nameplate.value] == id)
  }

  ghost predicate Owned(ms: Mailboxes, x: Bytes32) { exists id :: id in ms && x in HashesOf(ms[id]) }

  /** The hash index is the union of the mailboxes' hashes, and no two mailboxes share one. */
  ghost predicate HashesOk(ms: Mailboxes, hashes: set<Bytes32>) {
    && (forall x :: x in hashes <==> Owned(ms, x))
    && (forall i, j | i in ms && j in ms && i != j :: HashesOf(ms[i]) !! HashesOf(ms[j]))
  }

  ghost predicate ExpiriesOk(ms: Mailboxes, expiries: set<(u64, Bytes32)>) {
    forall e, id :: (e, id) in expiries <==> id in ms && ms[id].expiresAt == e
  }

  /** Total queue of the retained mailboxes. */
  ghost function QueueSum(ms: Mailboxes): int
    decreases |ms|
  {
    if ms == map[] then 0
    else
      var id :| id in ms;
      ms[id].queueBytes + QueueSum(ms - {id})
  }

  /** Routes and seats are inverse to each other, over members of retained mailboxes only. */
  ghost predicate SeatsOk(ms: Mailboxes, connections: map<Conn, Connection>, routes: map<Seat, Conn>) {
    && (forall seat | seat in routes :: Sits(connections, routes[seat], seat) && IsMember(ms, seat))
    && (forall c | c in connections && connections[c].seat.Some? ::
          connections[c].seat.value in routes && routes[connections[c].seat.value] == c)
  }

  predicate Sits(connections: map<Conn, Connection>, c: Conn,
      seat: Seat) { c in connections && connections[c].seat == Some(seat) }

  predicate IsMember(ms: Mailboxes, seat: Seat) { seat.id in ms && ms[seat.id].MemberOf(seat.who).Some? }

  ghost predicate Consistent(h: M.Hashes, caps: Caps, t: Tables) {
    && MailboxesOk(h, t.mailboxes)
    && NameplatesOk(t.mailboxes, t.nameplates)
    && HashesOk(t.mailboxes, t.hashes)
    && ExpiriesOk(t.mailboxes, t.expiries)
    && t.queueBytes == QueueSum(t.mailboxes)
    && |t.mailboxes| <= caps.openMailboxes
    && t.queueBytes <= caps.queueBytes
    && SeatsOk(t.mailboxes, t.connections, t.routes)
    && t.store == t.mailboxes
  }

  // ---------------------------------------------------------------- the queue total

  lemma {:induction false} QueueSumTakes(ms: Mailboxes, id: Bytes32)
    requires id in ms
    ensures QueueSum(ms) == ms[id].queueBytes + QueueSum(ms - {id})
    decreases |ms|
  {
    var first :| first in ms && QueueSum(ms) == ms[first].queueBytes + QueueSum(ms - {first});
    if first != id {
      QueueSumTakes(ms - {first}, id);
      QueueSumTakes(ms - {id}, first);
      assert ms - {first} - {id} == ms - {id} - {first};
    }
  }

  lemma QueueSumPut(ms: Mailboxes, id: Bytes32, m: M.Mailbox)
    ensures QueueSum(ms[id := m]) == QueueSum(ms) - (if id in ms then ms[id].queueBytes else 0) + m.queueBytes
  {
    QueueSumTakes(ms[id := m], id);
    assert ms[id := m] - {id} == ms - {id};
    if id in ms { QueueSumTakes(ms, id); } else { assert ms - {id} == ms; }
  }

  lemma {:induction false} QueueSumNonNegative(h: M.Hashes, ms: Mailboxes)
    requires MailboxesOk(h, ms)
    ensures QueueSum(ms) >= 0
    decreases |ms|
  {
    if ms != map[] {
      var id :| id in ms;
      QueueSumTakes(ms, id);
      assert M.Valid(h, ms[id]);
      QueueSumNonNegative(h, ms - {id});
    }
  }

  // ---------------------------------------------------------------- seats

  lemma VacatedOk(ms: Mailboxes, t: Tables, c: Conn)
    requires SeatsOk(ms, t.connections, t.routes)
    ensures var routes := Vacated(t, c);
            && (forall seat :: seat in routes <==> seat in t.routes && t.routes[seat] != c)
            && (forall seat | seat in routes :: routes[seat] == t.routes[seat])
  {
  }

  lemma AttachSeats(ms: Mailboxes, t: Tables, c: Conn, seat: Seat)
    requires SeatsOk(ms, t.connections, t.routes) && IsMember(ms, seat)
    ensures SeatsOk(ms, Attach(t, c, seat).connections, Attach(t, c, seat).routes)
  {
    VacatedOk(ms, t, c);
    hide Vacated, IsMember;
    var next := Attach(t, c, seat);
    forall s | s in next.routes ensures Sits(next.connections, next.routes[s], s) && IsMember(ms, s) {
      if s != seat { assert Sits(t.connections, t.routes[s], s); }
    }
    forall k | k in next.connections && next.connections[k].seat.Some?
      ensures next.connections[k].seat.value in next.routes && next.routes[next.connections[k].seat.value] == k
    {
    }
  }

  lemma EvictSeats(ms: Mailboxes, t: Tables, seat: Seat)
    requires SeatsOk(ms, t.connections, t.routes)
    ensures SeatsOk(ms, Evict(t, seat).connections, Evict(t, seat).routes) && seat !in Evict(t, seat).routes
  {
    hide IsMember;
    var next := Evict(t, seat);
    forall s | s in next.routes ensures Sits(next.connections, next.routes[s], s) && IsMember(ms, s) {
      assert Sits(t.connections, t.routes[s], s);
      if seat in t.routes { assert Sits(t.connections, t.routes[seat], seat); }
    }
  }

  lemma DisconnectSeats(ms: Mailboxes, t: Tables, c: Conn)
    requires SeatsOk(ms, t.connections, t.routes)
    ensures SeatsOk(ms, Disconnect(t, c).connections, Disconnect(t, c).routes)
  {
    VacatedOk(ms, t, c);
    hide Vacated, IsMember;
    var next := Disconnect(t, c);
    forall s | s in next.routes ensures Sits(next.connections, next.routes[s], s) && IsMember(ms, s) {
      assert Sits(t.connections, t.routes[s], s);
    }
  }

  // ---------------------------------------------------------------- inserting, replacing, removing

  lemma InsertHashes(ms: Mailboxes, hashes: set<Bytes32>, m: M.Mailbox)
    requires HashesOk(ms, hashes) && m.id !in ms && HashesOf(m) !! hashes
    ensures HashesOk(ms[m.id := m], hashes + HashesOf(m))
  {
    var next := ms[m.id := m];
    forall x ensures x in hashes + HashesOf(m) <==> Owned(next, x) {
      if Owned(ms, x) {
        var id :| id in ms && x in HashesOf(ms[id]);
        assert id in next && x in HashesOf(next[id]);
      }
      if x in HashesOf(m) { assert m.id in next && x in HashesOf(next[m.id]); }
      if Owned(next, x) {
        var id :| id in next && x in HashesOf(next[id]);
        if id != m.id { assert id in ms && x in HashesOf(ms[id]); }
      }
    }
    forall i, j | i in next && j in next && i != j ensures HashesOf(next[i]) !! HashesOf(next[j]) {
      if i == m.id { assert forall x | x in HashesOf(ms[j]) :: Owned(ms, x); }
      if j == m.id { assert forall x | x in HashesOf(ms[i]) :: Owned(ms, x); }
    }
  }

  lemma InsertNameplates(ms: Mailboxes, ns: map<u32, Bytes32>, m: M.Mailbox)
    requires NameplatesOk(ms, ns) && m.id !in ms && (m.nameplate.Some? ==> m.nameplate.value !in ns)
    ensures NameplatesOk(ms[m.id := m], if m.nameplate.Some? then ns[m.nameplate.value := m.id] else ns)
  {
  }

  lemma InsertExpiries(ms: Mailboxes, expiries: set<(u64, Bytes32)>, m: M.Mailbox)
    requires ExpiriesOk(ms, expiries) && m.id !in ms
    ensures ExpiriesOk(ms[m.id := m], expiries + {(m.expiresAt, m.id)})
  {
  }

  lemma InsertMailboxes(h: M.Hashes, ms: Mailboxes, id: Bytes32, m: M.Mailbox)
    requires MailboxesOk(h, ms) && M.Valid(h, m) && m.id == id
    ensures MailboxesOk(h, ms[id := m])
  {
    hide M.Valid;
  }

  /** More members leave every seat taken. */
  lemma SeatsCarryOver(ms: Mailboxes, next: Mailboxes, connections: map<Conn, Connection>, routes: map<Seat, Conn>)
    requires SeatsOk(ms, connections, routes)
    requires forall seat :: IsMember(ms, seat) ==> IsMember(next, seat)
    ensures SeatsOk(next, connections, routes)
  {
    hide IsMember;
  }

  lemma InsertSeats(ms: Mailboxes, m: M.Mailbox, connections: map<Conn, Connection>, routes: map<Seat, Conn>)
    requires SeatsOk(ms, connections, routes) && m.id !in ms
    ensures SeatsOk(ms[m.id := m], connections, routes)
  {
    hide SeatsOk;
    SeatsCarryOver(ms, ms[m.id := m], connections, routes);
  }

  lemma LoneHash(m: M.Mailbox)
    requires m.claimant.None?
    ensures HashesOf(m) == {m.allocator.hash}
  {
  }

  lemma InsertKeeps(h: M.Hashes, caps: Caps, t: Tables, m: M.Mailbox)
    requires Consistent(h, caps, t) && M.Valid(h, m)
    requires m.id !in t.mailboxes && m.claimant.None? && m.allocator.hash !in t.hashes && m.queueBytes == 0
    requires m.nameplate.Some? ==> m.nameplate.value !in t.nameplates
    requires |t.mailboxes| < caps.openMailboxes
    ensures Consistent(h, caps, Inserted(t, m))
  {
    hide M.Valid, MailboxesOk, NameplatesOk, HashesOk, ExpiriesOk, SeatsOk, QueueSum, HashesOf;
    LoneHash(m);
    InsertMailboxes(h, t.mailboxes, m.id, m);
    InsertNameplates(t.mailboxes, t.nameplates, m);
    InsertHashes(t.mailboxes, t.hashes, m);
    InsertExpiries(t.mailboxes, t.expiries, m);
    QueueSumPut(t.mailboxes, m.id, m);
    InsertSeats(t.mailboxes, m, t.connections, t.routes);
  }

  /** A mailbox that may take the place of another: same identity, same members, or
      one new claimant whose hash nobody else has. */
  ghost predicate Succeeds(m: M.Mailbox, next: M.Mailbox, hashes: set<Bytes32>) {
    && next.id == m.id && next.nameplate == m.nameplate && next.expiresAt == m.expiresAt
    && next.allocator.hash == m.allocator.hash
    && (m.claimant.Some? ==> next.claimant.Some? && next.claimant.value.hash == m.claimant.value.hash)
    && (m.claimant.None? && next.claimant.Some? ==> next.claimant.value.hash !in hashes)
  }

  lemma ReplaceHashes(ms: Mailboxes, hashes: set<Bytes32>, id: Bytes32, m: M.Mailbox)
    requires HashesOk(ms, hashes) && id in ms && Succeeds(ms[id], m, hashes)
    ensures HashesOk(ms[id := m], hashes + HashesOf(m))
  {
    var next := ms[id := m];
    assert HashesOf(ms[id]) <= HashesOf(m);
    forall x ensures x in hashes + HashesOf(m) <==> Owned(next, x) {
      if Owned(ms, x) {
        var k :| k in ms && x in HashesOf(ms[k]);
        assert k in next && x in HashesOf(next[k]);
      }
      if x in HashesOf(m) { assert id in next && x in HashesOf(next[id]); }
      if Owned(next, x) {
        var k :| k in next && x in HashesOf(next[k]);
        if k != id { assert k in ms && x in HashesOf(ms[k]); }
      }
    }
    forall i, j | i in next && j in next && i != j ensures HashesOf(next[i]) !! HashesOf(next[j]) {
      if i == id { assert forall x | x in HashesOf(ms[j]) :: Owned(ms, x); }
      if j == id { assert forall x | x in HashesOf(ms[i]) :: Owned(ms, x); }
    }
  }

  lemma ReplaceIndexes(ms: Mailboxes, ns: map<u32, Bytes32>, expiries: set<(u64, Bytes32)>, id: Bytes32, m: M.Mailbox)
    requires NameplatesOk(ms, ns) && ExpiriesOk(ms, expiries)
    requires id in ms && m.nameplate == ms[id].nameplate && m.expiresAt == ms[id].expiresAt
    ensures NameplatesOk(ms[id := m], ns) && ExpiriesOk(ms[id := m], expiries)
  {
  }

  lemma ReplaceKeeps(h: M.Hashes, caps: Caps, t: Tables, id: Bytes32, m: M.Mailbox)
    requires Consistent(h, caps, t) && M.Valid(h, m) && id in t.mailboxes && m.id == id
             && Succeeds(t.mailboxes[id], m, t.hashes)
    requires t.queueBytes - t.mailboxes[id].queueBytes + m.queueBytes <= caps.queueBytes
    ensures Consistent(h, caps, Replaced(t, id, m))
  {
    hide M.Valid, MailboxesOk, NameplatesOk, HashesOk, ExpiriesOk, SeatsOk, QueueSum;
    InsertMailboxes(h, t.mailboxes, id, m);
    ReplaceIndexes(t.mailboxes, t.nameplates, t.expiries, id, m);
    ReplaceHashes(t.mailboxes, t.hashes, id, m);
    QueueSumPut(t.mailboxes, id, m);
    SeatsCarryOver(t.mailboxes, t.mailboxes[id := m], t.connections, t.routes);
    SameSize(t.mailboxes, id, m);
  }

  lemma SameSize(ms: Mailboxes, id: Bytes32, m: M.Mailbox)
    requires id in ms
    ensures |ms[id := m]| == |ms|
  {
    assert ms[id := m].Keys == ms.Keys;
    assert |ms[id := m]| == |ms[id := m].Keys| && |ms| == |ms.Keys|;
  }

  lemma RemoveHashes(ms: Mailboxes, hashes: set<Bytes32>, id: Bytes32)
    requires HashesOk(ms, hashes) && id in ms
    ensures HashesOk(ms - {id}, hashes - HashesOf(ms[id]))
  {
    var next := ms - {id};
    forall x ensures x in hashes - HashesOf(ms[id]) <==> Owned(next, x) {
      if Owned(next, x) {
        var k :| k in next && x in HashesOf(next[k]);
        assert k in ms && x in HashesOf(ms[k]);
        assert HashesOf(ms[k]) !! HashesOf(ms[id]);
      }
      if Owned(ms, x) && x !in HashesOf(ms[id]) {
        var k :| k in ms && x in HashesOf(ms[k]);
        assert k in next && x in HashesOf(next[k]);
      }
    }
  }

  /** Only the two seats of the removed mailbox had to go. */
  lemma RemovedSeats(ms: Mailboxes, t: Tables, id: Bytes32)
    requires SeatsOk(ms, t.connections, t.routes) && Seat(id, M.Allocator) !in t.routes
             && Seat(id, M.Claimant) !in t.routes
    ensures SeatsOk(ms - {id}, t.connections, t.routes)
  {
    forall seat | seat in t.routes ensures IsMember(ms - {id}, seat) {
      assert IsMember(ms, seat);
      assert seat != Seat(id, M.Allocator) && seat != Seat(id, M.Claimant);
      assert seat == Seat(seat.id, M.Allocator) || seat == Seat(seat.id, M.Claimant);
    }
  }

  lemma RemoveIndexes(ms: Mailboxes, ns: map<u32, Bytes32>, expiries: set<(u64, Bytes32)>, id: Bytes32)
    requires NameplatesOk(ms, ns) && ExpiriesOk(ms, expiries) && id in ms
    ensures NameplatesOk(ms - {id}, if ms[id].nameplate.Some? then ns - {ms[id].nameplate.value} else ns)
    ensures ExpiriesOk(ms - {id}, expiries - {(ms[id].expiresAt, id)})
  {
  }

  lemma RemoveMailboxes(h: M.Hashes, ms: Mailboxes, id: Bytes32)
    requires MailboxesOk(h, ms) && id in ms
    ensures MailboxesOk(h, ms - {id}) && ms[id].queueBytes >= 0
  {
    HeldIsNatural(h, ms[id]);
    hide M.Valid;
  }

  lemma Smaller(ms: Mailboxes, id: Bytes32)
    ensures |ms - {id}| <= |ms|
  {
    assert (ms - {id}).Keys <= ms.Keys;
    assert |ms - {id}| == |(ms - {id}).Keys| && |ms| == |ms.Keys|;
    SubsetSize((ms - {id}).Keys, ms.Keys);
  }

  /** Evicting touches the connections and routes alone. */
  lemma EvictFrame(t: Tables, seat: Seat)
    ensures var next := Evict(t, seat);
            && next == t.(connections := next.connections, routes := next.routes)
            && next.routes.Keys == t.routes.Keys - {seat}
  {
  }

  lemma EvictBoth(ms: Mailboxes, t: Tables, id: Bytes32)
    requires SeatsOk(ms, t.connections, t.routes)
    ensures var next := Evict(Evict(t, Seat(id, M.Allocator)), Seat(id, M.Claimant));
            && next == t.(connections := next.connections, routes := next.routes)
            && SeatsOk(ms - {id}, next.connections, next.routes)
  {
    hide SeatsOk, Evict;
    var t2 := Evict(t, Seat(id, M.Allocator));
    var t3 := Evict(t2, Seat(id, M.Claimant));
    EvictSeats(ms, t, Seat(id, M.Allocator));
    EvictSeats(ms, t2, Seat(id, M.Claimant));
    EvictFrame(t, Seat(id, M.Allocator));
    EvictFrame(t2, Seat(id, M.Claimant));
    assert Seat(id, M.Allocator) !in t3.routes.Keys;
    RemovedSeats(ms, t3, id);
  }

  lemma RemoveKeeps(h: M.Hashes, caps: Caps, t: Tables, id: Bytes32)
    requires Consistent(h, caps, t) && id in t.mailboxes
    ensures Consistent(h, caps, Removed(t, id))
    ensures Removed(t, id).mailboxes == t.mailboxes - {id}
    ensures Removed(t, id).expiries == t.expiries - {(t.mailboxes[id].expiresAt, id)}
  {
    hide M.Valid, MailboxesOk, NameplatesOk, HashesOk, ExpiriesOk, SeatsOk, QueueSum, Evict;
    EvictBoth(t.mailboxes, Unindexed(t, id, t.mailboxes[id]), id);
    RemoveHashes(t.mailboxes, t.hashes, id);
    RemoveIndexes(t.mailboxes, t.nameplates, t.expiries, id);
    RemoveMailboxes(h, t.mailboxes, id);
    QueueSumTakes(t.mailboxes, id);
    Smaller(t.mailboxes, id);
  }

  lemma HeldIsNatural(h: M.Hashes, m: M.Mailbox)
    requires M.Valid(h, m)
    ensures m.queueBytes >= 0
  {
  }

  // ---------------------------------------------------------------- calls

  lemma AttachKeeps(h: M.Hashes, caps: Caps, t: Tables, c: Conn, seat: Seat)
    requires Consistent(h, caps, t) && IsMember(t.mailboxes, seat)
    ensures Consistent(h, caps, Attach(t, c, seat))
  {
    AttachSeats(t.mailboxes, t, c, seat);
    hide MailboxesOk, NameplatesOk, HashesOk, ExpiriesOk, SeatsOk;
  }

  /** The hash a claim would add, if any. */
  function NewHash(command: M.Command): Option<Bytes32> {
    match command
    case Claim(hash) => Some(hash)
    case ClaimV2(hash, _) => Some(hash)
    case _ => None
  }

  lemma CommitKeeps(h: M.Hashes, caps: Caps, t: Tables, id: Bytes32, now: u64, command: M.Command, willing: bool)
    requires Consistent(h, caps, t) && id in t.mailboxes && M.Transition(h, t.mailboxes[id], now, command).Ok?
    requires NewHash(command).Some? ==> NewHash(command).value !in t.hashes
    requires command.Put? ==>
               ProjectedQueue(t, id, M.Transition(h, t.mailboxes[id], now, command).value.state) <= caps.queueBytes
    ensures var step := M.Transition(h, t.mailboxes[id], now, command).value;
            var r := Commit(t, id, step.state, willing);
            r.Ok? ==>
              && Consistent(h, caps, r.value)
              && r.value.mailboxes == if step.state.Some? then t.mailboxes[id := step.state.value]
                   else t.mailboxes - {id}
  {
    var m := t.mailboxes[id];
    assert M.Valid(h, m) && m.id == id;
    M.TransitionValid(h, m, now, command);
    M.TransitionContinues(h, m, now, command);
    hide M.Valid, M.Transition, MailboxesOk, NameplatesOk, HashesOk, ExpiriesOk, SeatsOk, QueueSum;
    var step := M.Transition(h, m, now, command).value;
    if step.state.Some? {
      assert Succeeds(m, step.state.value, t.hashes);
      assert t.queueBytes - m.queueBytes + step.state.value.queueBytes <= caps.queueBytes;
      ReplaceKeeps(h, caps, t, id, step.state.value);
    } else {
      RemoveKeeps(h, caps, t, id);
    }
  }

  lemma AdmitKeeps(h: M.Hashes, caps: Caps, t: Tables, c: Conn, m: M.Mailbox, reply: Message, willing: bool)
    requires Consistent(h, caps, t) && M.Valid(h, m)
    requires m.id !in t.mailboxes && m.claimant.None? && m.allocator.hash !in t.hashes && m.queueBytes == 0
    requires m.nameplate.Some? ==> m.nameplate.value !in t.nameplates
    requires |t.mailboxes| < caps.openMailboxes
    ensures Consistent(h, caps, AdmitMailbox(t, c, m, reply, willing).0)
  {
    hide Consistent, M.Valid, Attach;
    InsertKeeps(h, caps, t, m);
    AttachKeeps(h, caps, Inserted(t, m), c, Seat(m.id, M.Allocator));
  }

  lemma AllocateKeeps(h: M.Hashes, caps: Caps, t: Tables, c: Conn, now: u64, random: Random, mode: u8,
      ttl: Option<u32>, willing: bool)
    requires Consistent(h, caps, t)
    ensures Consistent(h, caps, AllocateStep(h, caps, t, c, now, random, mode, ttl, willing).0)
  {
    hide Consistent, M.Valid, AdmitMailbox;
    var nameplate := if mode == 0 then None else Some(random.nameplate);
    M.AllocateValid(h, random.id, nameplate, h.token(random.token), now, ttl);
    var r := M.Allocate(random.id, nameplate, h.token(random.token), now, ttl);
    if AllocateStep(h, caps, t, c, now, random, mode, ttl, willing).0 != t {
      AdmitKeeps(h, caps, t, c, r.value, AllocatedReply(r.value.id, random.token, nameplate, r.value.expiresAt),
          willing);
    }
  }

  lemma AllocateV2Keeps(h: M.Hashes, caps: Caps, t: Tables, c: Conn, now: u64, token: Bytes32, id: Bytes32,
      commitment: Bytes32, ttl: Option<u16>, willing: bool)
    requires Consistent(h, caps, t)
    ensures Consistent(h, caps, AllocateV2Step(h, caps, t, c, now, token, id, commitment, ttl, willing).0)
  {
    hide Consistent, M.Valid, AdmitMailbox;
    M.AllocateV2Valid(h, id, h.token(token), commitment, now, ttl);
    var r := M.AllocateV2(id, h.token(token), commitment, now, ttl);
    if AllocateV2Step(h, caps, t, c, now, token, id, commitment, ttl, willing).0 != t {
      AdmitKeeps(h, caps, t, c, r.value, AllocatedV2Reply(id, token, r.value.expiresAt), willing);
    }
  }

  lemma {:induction false} Unclaimed(effects: seq<M.Effect>)
    requires forall i :: 0 <= i < |effects| ==> !effects[i].Claimed?
    ensures ClaimExpiry(effects).None?
  {
    if effects != [] { Unclaimed(effects[1..]); }
  }

  lemma {:induction false} Unopened(effects: seq<M.Effect>)
    requires forall i :: 0 <= i < |effects| ==> !effects[i].Opened?
    ensures OpenedAs(effects).None?
  {
    if effects != [] { Unopened(effects[1..]); }
  }

  lemma EmptyingOnlyDeletes(m: M.Mailbox)
    ensures forall i :: 0 <= i < |M.EmptyingEffects(m)| ==> M.EmptyingEffects(m)[i].BodyDeleted?
  {
    R.DeletionsOnly(M.Allocator, m.Frames(M.Allocator));
    R.DeletionsOnly(M.Claimant, m.Frames(M.Claimant));
  }

  /** A claim that succeeds leaves a retained mailbox with a claimant. */
  lemma ClaimedIsMember(h: M.Hashes, m: M.Mailbox, now: u64, command: M.Command)
    requires command.Claim? || command.ClaimV2?
    requires M.Transition(h, m, now, command).Ok? && ClaimExpiry(M.Transition(h, m, now, command).value.effects).Some?
    ensures var step := M.Transition(h, m, now, command).value; step.state.Some? && step.state.value.claimant.Some?
  {
    EmptyingOnlyDeletes(m);
    hide M.EmptyingEffects;
    var step := M.Transition(h, m, now, command).value;
    if forall i :: 0 <= i < |step.effects| ==> !step.effects[i].Claimed? { Unclaimed(step.effects); }
  }

  /** And a resumed membership is one the mailbox has. */
  lemma OpenedIsMember(h: M.Hashes, m: M.Mailbox, now: u64, hash: Bytes32)
    requires M.Transition(h, m, now, M.Open(hash)).Ok?
             && OpenedAs(M.Transition(h, m, now, M.Open(hash)).value.effects).Some?
    ensures var step := M.Transition(h, m, now, M.Open(hash)).value;
            step.state == Some(m) && Some(OpenedAs(step.effects).value) == m.MembershipFor(hash)
            && m.MemberOf(OpenedAs(step.effects).value).Some?
  {
    EmptyingOnlyDeletes(m);
    hide M.EmptyingEffects, M.Deliveries;
    var step := M.Transition(h, m, now, M.Open(hash)).value;
    if forall i :: 0 <= i < |step.effects| ==> !step.effects[i].Opened? { Unopened(step.effects); }
  }

  lemma ClaimKeeps(h: M.Hashes, caps: Caps, t: Tables, c: Conn, now: u64, token: Bytes32, locator: Locator,
      willing: bool)
    requires Consistent(h, caps, t)
    ensures Consistent(h, caps, ClaimStep(h, t, c, now, token, locator, willing).0)
  {
    hide Consistent, M.Transition, Commit, Attach, Closure, ClaimExpiry, EndReason;
    var after := ClaimStep(h, t, c, now, token, locator, willing).0;
    if after != t {
      var id, command := Resolve(t, locator).value, M.Claim(h.token(token));
      var step := M.Transition(h, t.mailboxes[id], now, command).value;
      CommitKeeps(h, caps, t, id, now, command, willing);
      var committed := Commit(t, id, step.state, willing).value;
      if ClaimExpiry(step.effects).Some? {
        ClaimedIsMember(h, t.mailboxes[id], now, command);
        AttachKeeps(h, caps, committed, c, Seat(id, M.Claimant));
      } else if EndReason(step.effects).Some? {
        ClosureFrame(committed, c, id, EndReason(step.effects).value);
      }
    }
  }

  lemma ClosureFrame(t: Tables, c: Conn, id: Bytes32, reason: M.CloseReason)
    ensures Closure(t, c, id, reason).0 == t
  {
  }

  lemma ClaimV2Keeps(h: M.Hashes, caps: Caps, t: Tables, c: Conn, now: u64, token: Bytes32, id: Bytes32,
      claimToken: Bytes16, willing: bool)
    requires Consistent(h, caps, t)
    ensures Consistent(h, caps, ClaimV2Step(h, t, c, now, token, id, claimToken, willing).0)
  {
    hide Consistent, M.Transition, Commit, Attach, ClaimExpiry;
    if ClaimV2Step(h, t, c, now, token, id, claimToken, willing).0 != t {
      var command := M.ClaimV2(h.token(token), claimToken);
      var step := M.Transition(h, t.mailboxes[id], now, command).value;
      CommitKeeps(h, caps, t, id, now, command, willing);
      if ClaimExpiry(step.effects).Some? {
        ClaimedIsMember(h, t.mailboxes[id], now, command);
        AttachKeeps(h, caps, Commit(t, id, step.state, willing).value, c, Seat(id, M.Claimant));
      }
    }
  }

  lemma OpenKeeps(h: M.Hashes, caps: Caps, t: Tables, c: Conn, now: u64, id: Bytes32, token: Bytes32, willing: bool)
    requires Consistent(h, caps, t)
    ensures Consistent(h, caps, OpenStep(h, t, c, now, id, token, willing).0)
  {
    hide Consistent, M.Transition, Commit, Attach, Closure, OpenedAs, EndReason, Resumed;
    if OpenStep(h, t, c, now, id, token, willing).0 != t {
      var command := M.Open(h.token(token));
      var step := M.Transition(h, t.mailboxes[id], now, command).value;
      CommitKeeps(h, caps, t, id, now, command, willing);
      var committed := Commit(t, id, step.state, willing).value;
      if OpenedAs(step.effects).Some? {
        OpenedIsMember(h, t.mailboxes[id], now, h.token(token));
        AttachKeeps(h, caps, committed, c, Seat(id, OpenedAs(step.effects).value));
      } else if EndReason(step.effects).Some? {
        ClosureFrame(committed, c, id, EndReason(step.effects).value);
      }
    }
  }

  lemma MemberKeeps(h: M.Hashes, caps: Caps, t: Tables, c: Conn, now: u64, request: Request, willing: bool)
    requires Consistent(h, caps, t) && (request.Put? || request.Ack? || request.Close?)
    ensures Consistent(h, caps, MemberStep(h, caps, t, c, now, request, willing).0)
  {
    hide Consistent, M.Transition, Commit, ProjectedQueue, Outgoing, Distinct;
    if MemberStep(h, caps, t, c, now, request, willing).0 != t {
      var seat := t.SeatOf(c).value;
      CommitKeeps(h, caps, t, seat.id, now, MailboxCommand(seat.who, request), willing);
    }
  }

  lemma BindKeeps(h: M.Hashes, caps: Caps, t: Tables, c: Conn)
    requires Consistent(h, caps, t)
    ensures Consistent(h, caps, Greeted(t, c))
  {
    hide MailboxesOk, NameplatesOk, HashesOk, ExpiriesOk, QueueSum;
    var connections := Greeted(t, c).connections;
    forall seat | seat in t.routes ensures Sits(connections, t.routes[seat], seat) && IsMember(t.mailboxes, seat) {
      assert Sits(t.connections, t.routes[seat], seat);
    }
  }

  lemma HandleKeeps(h: M.Hashes, caps: Caps, t: Tables, c: Conn, now: u64, allowed: bool, random: Random,
      request: Request, willing: bool)
    requires Consistent(h, caps, t)
    ensures Consistent(h, caps, Handle(h, caps, t, c, now, allowed, random, request, willing).0)
  {
    hide Consistent, AllocateStep, AllocateV2Step, ClaimStep, ClaimV2Step, OpenStep, MemberStep;
    match request
    case Bind => BindKeeps(h, caps, t, c);
    case Ping =>
    case Allocate(mode, ttl) => AllocateKeeps(h, caps, t, c, now, random, mode, ttl, willing);
    case AllocateV2(id, commitment, ttl) => AllocateV2Keeps(h, caps, t, c, now, random.token, id, commitment, ttl,
        willing);
    case Claim(locator) => ClaimKeeps(h, caps, t, c, now, random.token, locator, willing);
    case ClaimV2(id, claimToken) => ClaimV2Keeps(h, caps, t, c, now, random.token, id, claimToken, willing);
    case Open(id, token) => OpenKeeps(h, caps, t, c, now, id, token, willing);
    case Put(_, _) => MemberKeeps(h, caps, t, c, now, request, willing);
    case Ack(_) => MemberKeeps(h, caps, t, c, now, request, willing);
    case Close => MemberKeeps(h, caps, t, c, now, request, willing);
  }

  // ---------------------------------------------------------------- every run

  /** Everything that can happen to a service; a sweep is a series of `Reaped`, an
      operator's rollback a `Disabled` and a series of `ClosedByOperator`. */
  datatype Call =
    | Handled(c: Conn, now: u64, allowed: bool, random: Random, request: Request, willing: bool)
    | Disconnected(c: Conn)
    | Reaped(id: Bytes32, willing: bool)
    | ClosedByOperator(id: Bytes32, now: u64, willing: bool)
    | Disabled

  function CloseByOperator(h: M.Hashes, t: Tables, id: Bytes32, now: u64, willing: bool): Result<Tables, Error> {
    if id !in t.mailboxes || t.mailboxes[id].status.Terminal? then Ok(t)
    else match M.Transition(h, t.mailboxes[id], now, M.Close(M.Allocator))
      case Err(_) => Err(InvalidConfiguration)
      case Ok(step) => Commit(t, id, step.state, willing)
  }

  function After(h: M.Hashes, caps: Caps, t: Tables, call: Call): Tables {
    match call
    case Handled(c, now, allowed, random, request, willing) => Handle(h, caps, t, c, now, allowed, random, request,
        willing).0
    case Disconnected(c) => Disconnect(t, c)
    case Reaped(id, willing) => if willing && id in t.mailboxes then Removed(t, id) else t
    case ClosedByOperator(id, now, willing) =>
      (match CloseByOperator(h, t, id, now, willing) case Err(_) => t case Ok(after) => after)
    case Disabled => t.(enabled := false)
  }

  function Execute(h: M.Hashes, caps: Caps, start: Tables, calls: seq<Call>): Tables {
    if calls == [] then start else After(h, caps, Execute(h, caps, start, calls[..|calls| - 1]), calls[|calls| - 1])
  }

  lemma AfterKeeps(h: M.Hashes, caps: Caps, t: Tables, call: Call)
    requires Consistent(h, caps, t)
    ensures Consistent(h, caps, After(h, caps, t, call))
  {
    hide M.Transition, Commit, Handle, Removed, Disconnect, QueueSum;
    match call
    case Handled(c, now, allowed, random, request, willing) =>
      HandleKeeps(h, caps, t, c, now, allowed, random, request, willing);
    case Disconnected(c) => DisconnectKeeps(h, caps, t, c);
    case Reaped(id, willing) => if id in t.mailboxes { RemoveKeeps(h, caps, t, id); }
    case ClosedByOperator(id, now, willing) =>
      if CloseByOperator(h, t, id, now, willing).Ok? && id in t.mailboxes && !t.mailboxes[id].status.Terminal? {
        CommitKeeps(h, caps, t, id, now, M.Close(M.Allocator), willing);
      }
    case Disabled =>
  }

  lemma DisconnectKeeps(h: M.Hashes, caps: Caps, t: Tables, c: Conn)
    requires Consistent(h, caps, t)
    ensures Consistent(h, caps, Disconnect(t, c))
  {
    DisconnectSeats(t.mailboxes, t, c);
    hide MailboxesOk, NameplatesOk, HashesOk, ExpiriesOk, SeatsOk, QueueSum;
  }

  lemma EmptyIsConsistent(h: M.Hashes, caps: Caps)
    ensures Consistent(h, caps, EmptyTables())
  {
  }

  /** After every sequence of calls, granted or refused by the limiter, the mailboxes or
      the store, all indexes equal what the mailbox map says, both caps hold, seats and
      routes are inverse, and the store holds exactly the live mailboxes. */
  lemma IndexesAgreeAfterEveryRun(h: M.Hashes, caps: Caps, calls: seq<Call>)
    ensures Consistent(h, caps, Execute(h, caps, EmptyTables(), calls))
  {
    hide Consistent, Execute;
    EmptyIsConsistent(h, caps);
    EveryRunKeeps(h, caps, EmptyTables(), calls);
  }

  /** The same from any consistent start, such as a service rebuilt from its store. */
  lemma {:induction false} EveryRunKeeps(h: M.Hashes, caps: Caps, start: Tables, calls: seq<Call>)
    requires Consistent(h, caps, start)
    ensures Consistent(h, caps, Execute(h, caps, start, calls))
  {
    hide Consistent, After;
    if calls != [] {
      var n := |calls| - 1;
      EveryRunKeeps(h, caps, start, calls[..n]);
      AfterKeeps(h, caps, Execute(h, caps, start, calls[..n]), calls[n]);
    }
  }

  /** The operator's rollback never meets a mailbox it cannot close. */
  lemma OperatorCloseSucceeds(h: M.Hashes, t: Tables, id: Bytes32, now: u64)
    ensures CloseByOperator(h, t, id, now, true).Ok?
  {
    hide Replaced, Removed;
  }
}
