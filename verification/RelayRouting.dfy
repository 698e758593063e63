/** Who hears what from the relay: frames reach only the peer's seat, closures reach
    every seat of the mailbox that closed, and an expiry met while claiming or opening
    reaches the actor alone. */
module RelayRouting {
  import opened Base
  import opened Relays
  import opened RelayInvariant
  import opened RelayServices
  import M = Mailbox
  import R = MailboxRuns

  lemma {:induction false} OutgoingFrames(t: Tables, id: Bytes32, effects: seq<M.Effect>, k: Conn, q: u8, body: Bytes)
    requires Routed(k, FrameReply(q, body)) in Outgoing(t, id, effects)
    ensures exists i :: 0 <= i < |effects| && CarriedBy(t, id, effects[i], k, q, body)
  {
    if CarriedBy(t, id, effects[0], k, q, body) {
      assert effects[0] == effects[0 + 0];
    } else {
      OutgoingFrames(t, id, effects[1..], k, q, body);
      var i :| 0 <= i < |effects[1..]| && CarriedBy(t, id, effects[1..][i], k, q, body);
      assert effects[1..][i] == effects[i + 1];
    }
  }

  predicate CarriedBy(t: Tables, id: Bytes32, effect: M.Effect, k: Conn, q: u8, body: Bytes) {
    effect.Deliver? && effect.peerSeq == q && effect.body == body
    && Seat(id, effect.recipient) in t.routes && t.routes[Seat(id, effect.recipient)] == k
  }

  /** Only a Put that is new to the mailbox delivers, and only to the other member. */
  lemma OnlyPutsDeliver(h: M.Hashes, m: M.Mailbox, now: u64, command: M.Command, i: nat)
    requires command.Put? || command.Ack? || command.Close?
    requires M.Transition(h, m, now, command).Ok?
    requires i < |M.Transition(h, m, now, command).value.effects|
             && M.Transition(h, m, now, command).value.effects[i].Deliver?
    ensures command.Put? && M.Transition(h, m, now, command).value.effects[i]
            == M.Deliver(command.sender.Peer(), command.seqNo, command.body)
  {
    EmptyingOnlyDeletes(m);
    hide M.EmptyingEffects;
  }

  /** A member's command sends a frame only as the body of its own Put, to the peer's seat. */
  lemma MemberFrames(h: M.Hashes, caps: Caps, t: Tables, c: Conn, now: u64, request: Request, willing: bool, k: Conn,
      q: u8, body: Bytes)
    requires Consistent(h, caps, t) && (request.Put? || request.Ack? || request.Close?)
    requires var r := MemberStep(h, caps, t, c, now, request, willing).1;
             r.Ok?
             && Routed(k, FrameReply(q, body)) in r.value
    ensures FromPut(t, c, request, k, q, body)
  {
    hide M.Transition, Commit, Outgoing, ProjectedQueue, MailboxesOk, NameplatesOk, HashesOk, ExpiriesOk, QueueSum;
    var seat := t.SeatOf(c).value;
    var command := MailboxCommand(seat.who, request);
    var effects := M.Transition(h, t.mailboxes[seat.id], now, command).value.effects;
    OutgoingFrames(t, seat.id, effects, k, q, body);
    var i :| 0 <= i < |effects| && CarriedBy(t, seat.id, effects[i], k, q, body);
    OnlyPutsDeliver(h, t.mailboxes[seat.id], now, command, i);
    assert Sits(t.connections, k, Seat(seat.id, effects[i].recipient));
  }

  // ---------------------------------------------------------------- resuming

  /** In order, the frames whose bodies are still held, each under its own sequence. */
  function HeldReplies(c: Conn, frames: seq<M.FrameRecord>): seq<Routed>
    requires |frames| <= M.MAX_FRAMES_PER_MEMBERSHIP
  {
    if frames == [] then []
    else
      var n := |frames| - 1;
      HeldReplies(c, frames[..n]) + if frames[n].body.Some? then [Routed(c, FrameReply(n, frames[n].body.value))]
          else []
  }

  lemma {:induction false} HeldRepliesAre(c: Conn, frames: seq<M.FrameRecord>, r: Routed)
    requires |frames| <= M.MAX_FRAMES_PER_MEMBERSHIP
    ensures r in HeldReplies(c, frames) <==>
              exists q: u8 :: q < |frames| && frames[q].body.Some?
                  && r == Routed(c, FrameReply(q, frames[q].body.value))
  {
    if frames != [] {
      var n := |frames| - 1;
      HeldRepliesAre(c, frames[..n], r);
      if q: u8 :| q < |frames| && frames[q].body.Some? && r == Routed(c, FrameReply(q, frames[q].body.value)) {
        if q < n { assert frames[..n][q] == frames[q]; }
      }
      if r in HeldReplies(c, frames[..n]) {
        var q: u8 :| q < n && frames[..n][q].body.Some? && r == Routed(c, FrameReply(q, frames[..n][q].body.value));
        assert frames[q] == frames[..n][q];
      }
    }
  }

  lemma {:induction false} ResumedAppend(c: Conn, a: seq<M.Effect>, b: seq<M.Effect>)
    ensures Resumed(c, a + b) == Resumed(c, a) + Resumed(c, b)
  {
    if a == [] {
      assert a + b == b;
    } else {
      assert (a + b)[1..] == a[1..] + b;
      ResumedAppend(c, a[1..], b);
    }
  }

  lemma {:induction false} ResumedIsHeld(c: Conn, who: M.Membership, frames: seq<M.FrameRecord>)
    requires |frames| <= M.MAX_FRAMES_PER_MEMBERSHIP && forall i :: 0 <= i < |frames| ==> frames[i].seqNo == i
    ensures Resumed(c, M.Deliveries(who, frames)) == HeldReplies(c, frames)
  {
    if frames != [] {
      var n := |frames| - 1;
      ResumedIsHeld(c, who, frames[..n]);
      var last := if frames[n].body.Some? then [M.Deliver(who, frames[n].seqNo, frames[n].body.value)] else [];
      ResumedAppend(c, M.Deliveries(who, frames[..n]), last);
      assert Resumed(c, []) == [];
    }
  }

  lemma FramesNumbered(h: M.Hashes, caps: Caps, t: Tables, id: Bytes32, who: M.Membership)
    requires Consistent(h, caps, t) && id in t.mailboxes
    ensures var frames := t.mailboxes[id].Frames(who);
            |frames| <= M.MAX_FRAMES_PER_MEMBERSHIP && forall i :: 0 <= i < |frames| ==> frames[i].seqNo == i
  {
    hide NameplatesOk, HashesOk, ExpiriesOk, SeatsOk, QueueSum, M.HeldBytes, M.NoBodies;
    assert M.Valid(h, t.mailboxes[id]);
    forall i | 0 <= i < |t.mailboxes[id].Frames(who)| ensures t.mailboxes[id].Frames(who)[i].seqNo == i {
      assert M.FrameOk(h, t.mailboxes[id].Frames(who)[i], i);
    }
  }

  /** Resuming a live mailbox answers the connection that resumed, and it alone, with the
      peer's bodies still held, all of them and in order. */
  lemma OpenReturnsHeld(h: M.Hashes, caps: Caps, t: Tables, c: Conn, now: u64, id: Bytes32, token: Bytes32)
    requires Consistent(h, caps, t) && id in t.mailboxes
    requires now < t.mailboxes[id].expiresAt && !t.mailboxes[id].status.Terminal?
    requires t.mailboxes[id].MembershipFor(h.token(token)).Some?
    ensures var who := t.mailboxes[id].MembershipFor(h.token(token)).value;
            && |t.mailboxes[id].Frames(who.Peer())| <= M.MAX_FRAMES_PER_MEMBERSHIP
            && OpenStep(h, t, c, now, id, token, true).1 == Ok(HeldReplies(c, t.mailboxes[id].Frames(who.Peer())))
  {
    var m := t.mailboxes[id];
    var who := m.MembershipFor(h.token(token)).value;
    FramesNumbered(h, caps, t, id, who.Peer());
    hide Consistent, HeldReplies, Attach, Replaced, M.Deliveries;
    var effects := [M.Opened(who, m.expiresAt)] + M.Deliveries(who, m.Frames(who.Peer()));
    assert M.Transition(h, m, now, M.Open(h.token(token))) == Ok(M.Step(Some(m), effects));
    hide M.Transition;
    assert OpenedAs(effects) == Some(who);
    hide OpenedAs;
    ResumedIsHeld(c, who, m.Frames(who.Peer()));
    OpenedThenHeld(c, who, m.expiresAt, M.Deliveries(who, m.Frames(who.Peer())));
    hide Resumed;
  }

  lemma OpenedThenHeld(c: Conn, who: M.Membership, expiresAt: u64, deliveries: seq<M.Effect>)
    ensures Resumed(c, [M.Opened(who, expiresAt)] + deliveries) == Resumed(c, deliveries)
  {
    assert ([M.Opened(who, expiresAt)] + deliveries)[1..] == deliveries;
  }

  lemma ClosureHasNoFrames(t: Tables, c: Conn, id: Bytes32, reason: M.CloseReason, r: Routed)
    requires r in Closure(t, c, id, reason).1.value
    ensures r.message.ClosedReply?
  {
  }

  lemma NoMembershipNoFrames(h: M.Hashes, caps: Caps, t: Tables, c: Conn, now: u64, id: Bytes32, token: Bytes32,
      willing: bool, r: Routed)
    requires var reply := OpenStep(h, t, c, now, id, token, willing).1;
             reply.Ok? && r in reply.value
             && r.message.FrameReply?
    ensures willing && id in t.mailboxes && now < t.mailboxes[id].expiresAt && !t.mailboxes[id].status.Terminal?
    ensures t.mailboxes[id].MembershipFor(h.token(token)).Some?
  {
    hide M.Reap, Removed, Replaced, Closure, M.Deliveries, Attach, Resumed, OpenedAs, EndReason;
    var m := t.mailboxes[id];
    if now >= m.expiresAt {
      ReapOpensNothing(m, now);
      var step := M.Reap(m, now);
      if EndReason(step.effects).Some? {
        ClosureHasNoFrames(Commit(t, id, step.state, willing).value, c, id, EndReason(step.effects).value, r);
      }
    }
  }

  lemma ReapOpensNothing(m: M.Mailbox, now: u64)
    requires now >= m.expiresAt
    ensures OpenedAs(M.Reap(m, now).effects).None?
  {
    EmptyingOnlyDeletes(m);
    hide M.EmptyingEffects;
    Unopened(M.Reap(m, now).effects);
  }

  /** The frame is the body of the Put being handled, on its way to the sender's peer. */
  predicate FromPut(t: Tables, c: Conn, request: Request, k: Conn, q: u8, body: Bytes) {
    && request == Put(q, body) && t.SeatOf(c).Some?
    && t.SeatOf(k) == Some(Seat(t.SeatOf(c).value.id, t.SeatOf(c).value.who.Peer()))
  }

  /** The frame is one the peer of the membership being resumed has stored and nobody has
      acknowledged, on its way to whoever resumes. */
  predicate FromOpen(h: M.Hashes, t: Tables, c: Conn, request: Request, k: Conn, q: u8, body: Bytes) {
    && request.Open? && request.id in t.mailboxes && k == c
    && var m := t.mailboxes[request.id];
       && m.MembershipFor(h.token(request.token)).Some?
       && var frames := m.Frames(m.MembershipFor(h.token(request.token)).value.Peer());
          q < |frames| && frames[q].body == Some(body)
  }

  lemma OpenFrames(h: M.Hashes, caps: Caps, t: Tables, c: Conn, now: u64, request: Request, willing: bool, k: Conn,
      q: u8, body: Bytes)
    requires Consistent(h, caps, t) && request.Open?
    requires var r := OpenStep(h, t, c, now, request.id, request.token, willing).1;
             r.Ok?
             && Routed(k, FrameReply(q, body)) in r.value
    ensures FromOpen(h, t, c, request, k, q, body)
  {
    hide Consistent, OpenStep, HeldReplies;
    NoMembershipNoFrames(h, caps, t, c, now, request.id, request.token, willing, Routed(k, FrameReply(q, body)));
    OpenReturnsHeld(h, caps, t, c, now, request.id, request.token);
    var m := t.mailboxes[request.id];
    HeldRepliesAre(c, m.Frames(m.MembershipFor(h.token(request.token)).value.Peer()), Routed(k, FrameReply(q, body)));
  }

  lemma OtherRequestsSendNoFrames(h: M.Hashes, caps: Caps, t: Tables, c: Conn, now: u64, random: Random,
      request: Request, willing: bool, r: Routed)
    requires request.Allocate? || request.AllocateV2? || request.Claim? || request.ClaimV2?
    requires var reply := Handle(h, caps, t, c, now, true, random, request, willing).1; reply.Ok? && r in reply.value
    ensures !r.message.FrameReply?
  {
    hide M.Transition, Attach, Inserted, Commit, M.Allocate, M.AllocateV2, Distinct, ClaimExpiry, EndReason;
  }

  /** Whatever is asked of the relay, a frame leaves it only in two ways: as the body of the
      Put being handled, to the connection seated as the sender's peer; or, on a resume, as
      a body the peer stored and nobody acknowledged, to the connection that resumed. */
  lemma FramesReachOnlyThePeer(h: M.Hashes, caps: Caps, t: Tables, c: Conn, now: u64, allowed: bool, random: Random,
      request: Request, willing: bool, k: Conn, q: u8, body: Bytes)
    requires Consistent(h, caps, t)
    requires var r := Handle(h, caps, t, c, now, allowed, random, request, willing).1;
             r.Ok? && Routed(k, FrameReply(q, body)) in r.value
    ensures FromPut(t, c, request, k, q, body) || FromOpen(h, t, c, request, k, q, body)
  {
    hide Consistent, MemberStep, OpenStep, AllocateStep, AllocateV2Step, ClaimStep, ClaimV2Step, FromPut, FromOpen;
    if request.Open? {
      OpenFrames(h, caps, t, c, now, request, willing, k, q, body);
    } else if request.Put? || request.Ack? || request.Close? {
      MemberFrames(h, caps, t, c, now, request, willing, k, q, body);
    } else if !request.Bind? && !request.Ping? && allowed && t.BoundTo(c) {
      OtherRequestsSendNoFrames(h, caps, t, c, now, random, request, willing, Routed(k, FrameReply(q, body)));
    }
  }

  lemma {:induction false} OutgoingClosures(t: Tables, id: Bytes32, effects: seq<M.Effect>, i: nat, seat: Seat)
    requires i < |effects| && effects[i].Ended? && seat in t.routes && seat.id == id
    ensures Routed(t.routes[seat], ClosedReply(effects[i].reason)) in Outgoing(t, id, effects)
  {
    if i == 0 {
      TerminalRoutesAre(t, id, effects[0].reason, Routed(t.routes[seat], ClosedReply(effects[0].reason)));
    } else {
      OutgoingClosures(t, id, effects[1..], i - 1, seat);
    }
  }

  /** A member's command that ends the mailbox is told to everyone seated at it. */
  lemma ClosureReachesEverySeat(h: M.Hashes, caps: Caps, t: Tables, c: Conn, now: u64, request: Request,
      willing: bool, i: nat, seat: Seat)
    requires (request.Put? || request.Ack? || request.Close?) && t.SeatOf(c).Some?
             && t.SeatOf(c).value.id in t.mailboxes
    requires var id := t.SeatOf(c).value.id;
             var r := M.Transition(h, t.mailboxes[id], now, MailboxCommand(t.SeatOf(c).value.who, request));
             && r.Ok? && i < |r.value.effects| && r.value.effects[i].Ended? && seat in t.routes && seat.id == id
             && ProjectedQueue(t, id, r.value.state) <= caps.queueBytes
    requires MemberStep(h, caps, t, c, now, request, willing).1.Ok?
    ensures var effects := M.Transition(h, t.mailboxes[seat.id], now,
            MailboxCommand(t.SeatOf(c).value.who, request)).value.effects;
            Routed(t.routes[seat], ClosedReply(effects[i].reason)) in MemberStep(h, caps, t, c, now, request,
                willing).1.value
  {
    hide M.Transition, Commit, Outgoing, ProjectedQueue;
    var effects := M.Transition(h, t.mailboxes[seat.id], now,
        MailboxCommand(t.SeatOf(c).value.who, request)).value.effects;
    OutgoingClosures(t, seat.id, effects, i, seat);
  }

  lemma {:induction false} LastEnds(effects: seq<M.Effect>, reason: M.CloseReason)
    requires effects != [] && effects[|effects| - 1] == M.Ended(reason)
    requires forall i :: 0 <= i < |effects| - 1 ==> effects[i].BodyDeleted?
    ensures EndReason(effects) == Some(reason) && ClaimExpiry(effects).None? && OpenedAs(effects).None?
  {
    if |effects| > 1 { LastEnds(effects[1..], reason); }
  }

  lemma ReapedEffects(m: M.Mailbox, now: u64)
    requires now >= m.expiresAt && !m.status.Terminal?
    ensures M.Reap(m, now).state.None?
    ensures EndReason(M.Reap(m, now).effects) == Some(M.Expired)
    ensures ClaimExpiry(M.Reap(m, now).effects).None? && OpenedAs(M.Reap(m, now).effects).None?
  {
    EmptyingOnlyDeletes(m);
    hide M.EmptyingEffects;
    LastEnds(M.Reap(m, now).effects, M.Expired);
  }

  /** Once its mailbox is removed, no seat is left to be told. */
  lemma NobodyLeft(t: Tables, c: Conn, id: Bytes32, reason: M.CloseReason)
    requires id in t.mailboxes
    ensures Closure(Removed(t, id), c, id, reason).1 == Ok([Routed(c, ClosedReply(reason))])
  {
    hide Removed;
    RemovedRoutes(t, id);
    assert Seat(id, M.Allocator).id == id && Seat(id, M.Claimant).id == id;
    assert TerminalRoutes(Removed(t, id), id, reason) == [];
    assert [] + [Routed(c, ClosedReply(reason))] == [Routed(c, ClosedReply(reason))];
    assert Distinct([Routed(c, ClosedReply(reason))]) == [Routed(c, ClosedReply(reason))]
           by { assert Distinct([]) == []; }
  }

  /** Opening or claiming a mailbox at its expiry removes it and answers the actor alone
      (a protected claim with a mere failure): members who are attached hear nothing. */
  lemma ExpiryTellsOnlyTheActor(h: M.Hashes, t: Tables, c: Conn, now: u64, id: Bytes32, token: Bytes32,
      locator: Locator)
    requires id in t.mailboxes && now >= t.mailboxes[id].expiresAt && !t.mailboxes[id].status.Terminal?
    ensures OpenStep(h, t, c, now, id, token, true) == (Removed(t, id), Ok([Routed(c, ClosedReply(M.Expired))]))
    ensures t.SeatOf(c).None? && h.token(token) !in t.hashes && Resolve(t, locator) == Some(id) ==>
              ClaimStep(h, t, c, now, token, locator, true) == (Removed(t, id), Ok([Routed(c, ClosedReply(M.Expired))]))
    ensures forall claimToken: Bytes16 | t.SeatOf(c).None? && h.token(token) !in t.hashes ::
              ClaimV2Step(h, t, c, now, token, id, claimToken, true) == (Removed(t, id), Ok([Routed(c, Failure(503))]))
  {
    hide Closure, Removed, M.Reap, EndReason, ClaimExpiry, OpenedAs;
    ReapedEffects(t.mailboxes[id], now);
    NobodyLeft(t, c, id, M.Expired);
    ClosureFrame(Removed(t, id), c, id, M.Expired);
  }
}
