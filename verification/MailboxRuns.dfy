/** Whole runs of one mailbox, against a history kept from the commands and
    answers alone: which bodies were accepted, which were acknowledged. */
module MailboxRuns {
  import opened Base
  import opened Mailbox

  datatype History = History(
    fromAllocator: seq<Bytes>,
    fromClaimant: seq<Bytes>,
    acked: set<(Membership, nat)>,
    ended: bool)
  {
    /** Bodies accepted from `owner`, in the order they were first accepted. */
    function Accepted(owner: Membership): seq<Bytes> {
      if owner.Allocator? then fromAllocator else fromClaimant
    }

    function Accept(owner: Membership, body: Bytes): History {
      if owner.Allocator? then this.(fromAllocator := fromAllocator + [body])
      else this.(fromClaimant := fromClaimant + [body])
    }

    predicate Held(owner: Membership, seqNo: nat) { !ended && (owner, seqNo) !in acked }
  }

  const NOTHING_YET: History := History([], [], {}, false)

  /** The history after one answered command; it never looks into the mailbox. */
  function Observe(past: History, command: Command, effects: seq<Effect>): History {
    var ended := past.ended || exists i :: 0 <= i < |effects| && effects[i].Ended?;
    if command.Put? && Stored(command.sender, command.seqNo, false) in effects then
      past.Accept(command.sender, command.body).(ended := ended)
    else if command.Ack? then
      past.(acked := past.acked + {(command.acker.Peer(), command.peerSeq)}, ended := ended)
    else
      past.(ended := ended)
  }

  datatype Run = Run(mailbox: Option<Mailbox>, past: History)

  /** One command against whatever mailbox remains; a refusal changes nothing. */
  function Serve(h: Hashes, run: Run, now: u64, command: Command): Run {
    if run.mailbox.None? then run
    else match Transition(h, run.mailbox.value, now, command)
      case Err(_) => run
      case Ok(step) => Run(step.state, Observe(run.past, command, step.effects))
  }

  function Execute(h: Hashes, start: Mailbox, commands: seq<(u64, Command)>): Run {
    if commands == [] then Run(Some(start), NOTHING_YET)
    else
      var (now, command) := commands[|commands| - 1];
      Serve(h, Execute(h, start, commands[..|commands| - 1]), now, command)
  }

  /** A mailbox as allocation leaves it. */
  ghost predicate Fresh(h: Hashes, m: Mailbox) {
    Valid(h, m) && m.claimant.None? && m.allocator.frames == [] && m.status.Waiting?
  }

  ghost predicate Recorded(h: Hashes, frame: FrameRecord, body: Bytes, held: bool) {
    && frame.digest == h.body(body) && frame.bodyLen == |body|
    && frame.body == if held then Some(body) else None
  }

  /** Frames and history say the same thing about one member. */
  ghost predicate Matches(h: Hashes, frames: seq<FrameRecord>, past: History, owner: Membership) {
    && |frames| == |past.Accepted(owner)|
    && forall i :: 0 <= i < |frames| ==> Recorded(h, frames[i], past.Accepted(owner)[i], past.Held(owner, i))
  }

  ghost predicate Agrees(h: Hashes, m: Mailbox, past: History) {
    && Valid(h, m)
    && Matches(h, m.Frames(Allocator), past, Allocator)
    && Matches(h, m.Frames(Claimant), past, Claimant)
    && (past.ended <==> m.status.Terminal?)
    && forall owner, k :: (owner, k) in past.acked ==> k < |m.Frames(owner)|
  }

  /** In order, the bodies a recipient has not acknowledged: the reference for `Open`. */
  function Unread(past: History, recipient: Membership, n: nat): seq<Effect>
    requires n <= |past.Accepted(recipient.Peer())| <= 16
  {
    if n == 0 then []
    else
      Unread(past, recipient, n - 1)
      + if past.Held(recipient.Peer(), n - 1)
        then [Deliver(recipient, n - 1, past.Accepted(recipient.Peer())[n - 1])] else []
  }

  lemma {:induction false} DeliveriesAreUnread(h: Hashes, m: Mailbox, past: History, recipient: Membership, n: nat)
    requires Agrees(h, m, past) && n <= |m.Frames(recipient.Peer())|
    ensures Deliveries(recipient, m.Frames(recipient.Peer())[..n]) == Unread(past, recipient, n)
  {
    if n > 0 {
      var frames := m.Frames(recipient.Peer());
      assert frames[..n][..n - 1] == frames[..n - 1];
      assert Recorded(h, frames[n - 1], past.Accepted(recipient.Peer())[n - 1], past.Held(recipient.Peer(), n - 1));
      DeliveriesAreUnread(h, m, past, recipient, n - 1);
    }
  }

  lemma {:induction false} DeletionsOnly(owner: Membership, frames: seq<FrameRecord>)
    ensures forall i :: 0 <= i < |DeletionEffects(owner, frames)| ==> DeletionEffects(owner, frames)[i].BodyDeleted?
  {
    if frames != [] { DeletionsOnly(owner, frames[..|frames| - 1]); }
  }

  lemma {:induction false} DeliveriesOnly(recipient: Membership, frames: seq<FrameRecord>)
    ensures forall i :: 0 <= i < |Deliveries(recipient, frames)| ==> Deliveries(recipient, frames)[i].Deliver?
  {
    if frames != [] { DeliveriesOnly(recipient, frames[..|frames| - 1]); }
  }

  /** Termination is visible in the effects, and nothing else in them is. */
  lemma EndedShown(m: Mailbox, reason: CloseReason)
    ensures var effects := Terminate(m, reason).effects;
            && effects[|effects| - 1] == Ended(reason)
            && forall i :: 0 <= i < |effects| - 1 ==> effects[i].BodyDeleted?
  {
    DeletionsOnly(Allocator, m.Frames(Allocator));
    DeletionsOnly(Claimant, m.Frames(Claimant));
  }

  lemma ObserveEnded(m: Mailbox, past: History, command: Command, reason: CloseReason)
    requires !command.Ack?
    ensures Observe(past, command, Terminate(m, reason).effects) == past.(ended := true)
  {
    EndedShown(m, reason);
    var effects := Terminate(m, reason).effects;
    assert effects[|effects| - 1].Ended?;
  }

  lemma DroppedMatch(h: Hashes, frames: seq<FrameRecord>, past: History, owner: Membership)
    requires Matches(h, frames, past, owner)
    ensures Matches(h, DropBodies(frames), past.(ended := true), owner)
  {
    forall i | 0 <= i < |frames|
      ensures Recorded(h, DropBodies(frames)[i], past.Accepted(owner)[i], false)
    {
      assert Recorded(h, frames[i], past.Accepted(owner)[i], past.Held(owner, i));
    }
  }

  lemma EndedAgrees(h: Hashes, m: Mailbox, past: History, reason: CloseReason)
    requires Agrees(h, m, past)
    ensures Agrees(h, Terminate(m, reason).state.value, past.(ended := true))
  {
    hide Valid, Matches;
    TerminateValid(h, m, reason);
    DroppedMatch(h, m.Frames(Allocator), past, Allocator);
    DroppedMatch(h, m.Frames(Claimant), past, Claimant);
    assert DropBodies([]) == [];
  }

  lemma TerminateAgrees(h: Hashes, m: Mailbox, past: History, command: Command, reason: CloseReason)
    requires Agrees(h, m, past) && !command.Ack?
    ensures var step := Terminate(m, reason);
            Agrees(h, step.state.value, Observe(past, command, step.effects))
  {
    EndedAgrees(h, m, past, reason);
    ObserveEnded(m, past, command, reason);
  }

  lemma AppendedMatch(h: Hashes, frames: seq<FrameRecord>, past: History, owner: Membership, seqNo: u8, body: Bytes)
    requires Matches(h, frames, past, owner) && past.Held(owner, |frames|)
    ensures Matches(h, frames + [FrameRecord(seqNo, h.body(body), |body|, Some(body))], past.Accept(owner, body), owner)
  {
    var now := past.Accept(owner, body);
    forall i | 0 <= i < |frames|
      ensures Recorded(h, frames[i], now.Accepted(owner)[i], now.Held(owner, i))
    {
      assert Recorded(h, frames[i], past.Accepted(owner)[i], past.Held(owner, i));
    }
  }

  lemma OtherMatch(h: Hashes, frames: seq<FrameRecord>, past: History, now: History, owner: Membership)
    requires Matches(h, frames, past, owner) && now.Accepted(owner) == past.Accepted(owner)
    requires forall i :: 0 <= i < |frames| ==> now.Held(owner, i) == past.Held(owner, i)
    ensures Matches(h, frames, now, owner)
  {
  }

  lemma AcceptAgrees(h: Hashes, m: Mailbox, past: History, sender: Membership, member: Member, seqNo: u8, body: Bytes)
    requires Agrees(h, m, past) && !m.status.Terminal? && m.MemberOf(sender) == Some(member)
    requires seqNo == member.nextSeq < MAX_FRAMES_PER_MEMBERSHIP && 1 <= |body| <= MAX_FRAME_BODY_BYTES
    ensures Agrees(h, Grown(h, m, sender, member, seqNo, body), past.Accept(sender, body))
  {
    hide Valid, Matches;
    GrownValid(h, m, sender, member, seqNo, body);
    AppendedMatch(h, member.frames, past, sender, seqNo, body);
    OtherMatch(h, m.Frames(sender.Peer()), past, past.Accept(sender, body), sender.Peer());
  }

  lemma ObserveReplay(past: History, sender: Membership, seqNo: u8, body: Bytes)
    ensures Observe(past, Put(sender, seqNo, body), [Stored(sender, seqNo, true)]) == past
  {
  }

  lemma ObserveAccepted(past: History, sender: Membership, seqNo: u8, body: Bytes, forwarded: seq<Effect>)
    requires forwarded == [] || forwarded == [Deliver(sender.Peer(), seqNo, body)]
    ensures Observe(past, Put(sender, seqNo, body), [Stored(sender, seqNo, false)] + forwarded)
            == past.Accept(sender, body)
  {
    assert ([Stored(sender, seqNo, false)] + forwarded)[0] == Stored(sender, seqNo, false);
  }

  lemma PutAgrees(h: Hashes, m: Mailbox, past: History, sender: Membership, seqNo: u8, body: Bytes)
    requires Agrees(h, m, past) && !m.status.Terminal?
    ensures var r := PutStep(h, m, sender, seqNo, body);
            r.Ok? ==> r.value.state.Some? && Agrees(h, r.value.state.value,
                Observe(past, Put(sender, seqNo, body), r.value.effects))
  {
    hide Matches, Valid;
    var r := PutStep(h, m, sender, seqNo, body);
    if r.Ok? {
      var member := m.MemberOf(sender).value;
      if seqNo < member.nextSeq {
        if r.value == Terminate(m, Conflict) {
          TerminateAgrees(h, m, past, Put(sender, seqNo, body), Conflict);
        } else {
          ObserveReplay(past, sender, seqNo, body);
        }
      } else {
        AcceptAgrees(h, m, past, sender, member, seqNo, body);
        ObserveAccepted(past, sender, seqNo, body, r.value.effects[1..]);
        assert r.value.effects == [Stored(sender, seqNo, false)] + r.value.effects[1..];
      }
    }
  }

  lemma DeletedMatch(h: Hashes, frames: seq<FrameRecord>, past: History, owner: Membership, i: nat)
    requires Matches(h, frames, past, owner) && i < |frames|
    ensures Matches(h, frames[i := frames[i].(body := None)], past.(acked := past.acked + {(owner, i)}), owner)
  {
    var now := past.(acked := past.acked + {(owner, i)});
    forall k | 0 <= k < |frames|
      ensures Recorded(h, frames[i := frames[i].(body := None)][k], now.Accepted(owner)[k], now.Held(owner, k))
    {
      assert Recorded(h, frames[k], past.Accepted(owner)[k], past.Held(owner, k));
    }
  }

  lemma ClearedAgrees(h: Hashes, m: Mailbox, past: History, owner: Membership, member: Member, i: nat)
    requires Agrees(h, m, past) && !m.status.Terminal? && m.MemberOf(owner) == Some(member) && i < |member.frames|
    ensures Agrees(h, Cleared(m, owner, member, i), past.(acked := past.acked + {(owner, i)}))
  {
    hide Valid, Matches;
    ClearedValid(h, m, owner, member, i);
    DeletedMatch(h, member.frames, past, owner, i);
    OtherMatch(h, m.Frames(owner.Peer()), past, past.(acked := past.acked + {(owner, i)}), owner.Peer());
  }

  lemma Numbered(h: Hashes, m: Mailbox, past: History, owner: Membership)
    requires Agrees(h, m, past) && m.MemberOf(owner).Some?
    ensures forall i :: 0 <= i < |m.MemberOf(owner).value.frames| ==> m.MemberOf(owner).value.frames[i].seqNo == i
  {
    hide Matches;
  }

  lemma AckAgrees(h: Hashes, m: Mailbox, past: History, acker: Membership, peerSeq: u8)
    requires Agrees(h, m, past) && !m.status.Terminal?
    ensures var r := AckStep(m, acker, peerSeq);
            r.Ok? ==> r.value.state.Some? && Agrees(h, r.value.state.value,
                Observe(past, Ack(acker, peerSeq), r.value.effects))
  {
    hide Agrees, Cleared, Find;
    if AckStep(m, acker, peerSeq).Ok? {
      var peer := m.MemberOf(acker.Peer()).value;
      Numbered(h, m, past, acker.Peer());
      FindAt(peer.frames, peerSeq);
      ClearedAgrees(h, m, past, acker.Peer(), peer, peerSeq);
    }
  }

  /** A step that leaves the frames alone leaves the agreement alone. */
  lemma SameFramesAgree(h: Hashes, m: Mailbox, past: History, next: Mailbox)
    requires Agrees(h, m, past) && Valid(h, next) && !m.status.Terminal? && !next.status.Terminal?
    requires next.Frames(Allocator) == m.Frames(Allocator) && next.Frames(Claimant) == m.Frames(Claimant)
    ensures Agrees(h, next, past)
  {
  }

  lemma ServeAgrees(h: Hashes, m: Mailbox, past: History, now: u64, command: Command)
    requires Agrees(h, m, past)
    ensures var run := Serve(h, Run(Some(m), past), now, command);
            run.mailbox.Some? ==> Agrees(h, run.mailbox.value, run.past)
  {
    hide Valid, Matches;
    if now < m.expiresAt && !m.status.Terminal? {
      TransitionValid(h, m, now, command);
      match command
      case Claim(hash) =>
        if ClaimStep(m, hash) == Ok(Terminate(m, Crowded)) {
          TerminateAgrees(h, m, past, command, Crowded);
        } else if ClaimStep(m, hash).Ok? {
          SameFramesAgree(h, m, past, ClaimStep(m, hash).value.state.value);
        }
      case ClaimV2(hash, token) =>
        if ClaimV2Step(h, m, hash, token).Ok? {
          SameFramesAgree(h, m, past, ClaimV2Step(h, m, hash, token).value.state.value);
        }
      case Open(hash) =>
        if m.MembershipFor(hash).Some? {
          DeliveriesOnly(m.MembershipFor(hash).value, m.Frames(m.MembershipFor(hash).value.Peer()));
        }
      case Put(sender, seqNo, body) => PutAgrees(h, m, past, sender, seqNo, body);
      case Ack(acker, peerSeq) => AckAgrees(h, m, past, acker, peerSeq);
      case Close(_) => TerminateAgrees(h, m, past, command, Closed);
    }
  }

  /** After any run of commands, refused ones included, what the mailbox still
      holds is exactly what the history says. */
  lemma {:induction false} RunAgrees(h: Hashes, start: Mailbox, commands: seq<(u64, Command)>)
    requires Fresh(h, start)
    ensures var run := Execute(h, start, commands);
            run.mailbox.Some? ==> Agrees(h, run.mailbox.value, run.past)
  {
    if commands != [] {
      var (now, command) := commands[|commands| - 1];
      var before := Execute(h, start, commands[..|commands| - 1]);
      RunAgrees(h, start, commands[..|commands| - 1]);
      if before.mailbox.Some? { ServeAgrees(h, before.mailbox.value, before.past, now, command); }
    }
  }

  /** Resuming a membership delivers, in order, exactly the peer's accepted and
      unacknowledged bodies: nothing lost, repeated, altered or reordered. */
  lemma OpenDeliversUnread(h: Hashes, start: Mailbox, commands: seq<(u64, Command)>, now: u64, hash: Bytes32)
    requires Fresh(h, start)
    ensures var run := Execute(h, start, commands);
            run.mailbox.Some? && now < run.mailbox.value.expiresAt && !run.past.ended ==>
              var m := run.mailbox.value;
              match m.MembershipFor(hash)
              case None => Transition(h, m, now, Open(hash)) == Err(NotMember)
              case Some(who) =>
                && |run.past.Accepted(who.Peer())| <= 16
                && Transition(h, m, now, Open(hash))
                   == Ok(Step(Some(m), [Opened(who, m.expiresAt)]
                                       + Unread(run.past, who, |run.past.Accepted(who.Peer())|)))
  {
    RunAgrees(h, start, commands);
    var run := Execute(h, start, commands);
    if run.mailbox.Some? && run.mailbox.value.MembershipFor(hash).Some? {
      var m, who := run.mailbox.value, run.mailbox.value.MembershipFor(hash).value;
      DeliveriesAreUnread(h, m, run.past, who, |m.Frames(who.Peer())|);
      assert m.Frames(who.Peer())[..|m.Frames(who.Peer())|] == m.Frames(who.Peer());
    }
  }

  /** A body once accepted keeps its place for the rest of every run. */
  lemma {:induction false} AcceptedIsStable(h: Hashes, start: Mailbox, commands: seq<(u64, Command)>, n: nat,
      owner: Membership)
    requires n <= |commands|
    ensures Execute(h, start, commands[..n]).past.Accepted(owner) <= Execute(h, start, commands).past.Accepted(owner)
    decreases |commands|
  {
    if n < |commands| {
      assert commands[..|commands| - 1][..n] == commands[..n];
      AcceptedIsStable(h, start, commands[..|commands| - 1], n, owner);
    } else {
      assert commands[..n] == commands;
    }
  }

  lemma {:induction false} UnreadIsAccepted(past: History, recipient: Membership, n: nat, k: nat)
    requires n <= |past.Accepted(recipient.Peer())| <= 16 && k < |Unread(past, recipient, n)|
    ensures var effect := Unread(past, recipient, n)[k];
            && effect.Deliver? && effect.recipient == recipient && effect.peerSeq < n
            && past.Accepted(recipient.Peer())[effect.peerSeq] == effect.body
            && past.Held(recipient.Peer(), effect.peerSeq)
  {
    if k < |Unread(past, recipient, n - 1)| { UnreadIsAccepted(past, recipient, n - 1, k); }
  }

  /** Whatever the relay delivers for a sequence, on resume or at once, is the
      body first accepted for it and not yet acknowledged. */
  lemma DeliveredIsFirstAccepted(h: Hashes, start: Mailbox, commands: seq<(u64, Command)>, k: nat)
    requires Fresh(h, start) && commands != []
    requires var before := Execute(h, start, commands[..|commands| - 1]);
             && before.mailbox.Some?
             && var r := Transition(h, before.mailbox.value, commands[|commands| - 1].0, commands[|commands| - 1].1);
                r.Ok? && k < |r.value.effects| && r.value.effects[k].Deliver?
    ensures var before := Execute(h, start, commands[..|commands| - 1]);
            var effect := Transition(h, before.mailbox.value, commands[|commands| - 1].0,
                commands[|commands| - 1].1).value.effects[k];
            var past := Execute(h, start, commands).past;
            && effect.peerSeq < |past.Accepted(effect.recipient.Peer())|
            && past.Accepted(effect.recipient.Peer())[effect.peerSeq] == effect.body
            && past.Held(effect.recipient.Peer(), effect.peerSeq)
  {
    var before := Execute(h, start, commands[..|commands| - 1]);
    RunAgrees(h, start, commands[..|commands| - 1]);
    var (now, command) := commands[|commands| - 1];
    DeliveredByOne(h, before.mailbox.value, before.past, now, command, k);
  }

  lemma DeliveredByOne(h: Hashes, m: Mailbox, past: History, now: u64, command: Command, k: nat)
    requires Agrees(h, m, past)
    requires var r := Transition(h, m, now, command); r.Ok? && k < |r.value.effects| && r.value.effects[k].Deliver?
    ensures var r := Transition(h, m, now, command);
            var effect := r.value.effects[k];
            var next := Observe(past, command, r.value.effects);
            && effect.peerSeq < |next.Accepted(effect.recipient.Peer())|
            && next.Accepted(effect.recipient.Peer())[effect.peerSeq] == effect.body
            && next.Held(effect.recipient.Peer(), effect.peerSeq)
  {
    hide Valid, Matches, PutStep, OpenStep;
    if now >= m.expiresAt {
      DeletionsOnly(Allocator, m.Frames(Allocator));
      DeletionsOnly(Claimant, m.Frames(Claimant));
      assert false;
    } else {
      match command
      case Claim(_) => EndedShown(m, Crowded); assert false;
      case ClaimV2(_, _) => assert false;
      case Close(_) => EndedShown(m, Closed); assert false;
      case Ack(_, _) => assert false;
      case Put(sender, seqNo, body) => DeliveredByPut(h, m, past, sender, seqNo, body, k);
      case Open(hash) => DeliveredByOpen(h, m, past, hash, k);
    }
  }

  lemma DeliveredByPut(h: Hashes, m: Mailbox, past: History, sender: Membership, seqNo: u8, body: Bytes, k: nat)
    requires Agrees(h, m, past) && !m.status.Terminal?
    requires var r := PutStep(h, m, sender, seqNo, body); r.Ok? && k < |r.value.effects| && r.value.effects[k].Deliver?
    ensures var effects := PutStep(h, m, sender, seqNo, body).value.effects;
            var next := Observe(past, Put(sender, seqNo, body), effects);
            && effects[k] == Deliver(sender.Peer(), seqNo, body)
            && seqNo < |next.Accepted(sender)| && next.Accepted(sender)[seqNo] == body && next.Held(sender, seqNo)
  {
    hide Agrees, Terminate, Observe;
    EndedShown(m, Conflict);
    NextIsHeld(h, m, past, sender);
    var effects := PutStep(h, m, sender, seqNo, body).value.effects;
    ObserveAccepted(past, sender, seqNo, body, effects[1..]);
    assert effects == [Stored(sender, seqNo, false)] + effects[1..];
  }

  lemma NextIsHeld(h: Hashes, m: Mailbox, past: History, sender: Membership)
    requires Agrees(h, m, past) && !m.status.Terminal?
    ensures m.MemberOf(sender).Some? ==>
              m.MemberOf(sender).value.nextSeq == |past.Accepted(sender)| && past.Held(sender, |past.Accepted(sender)|)
  {
  }

  lemma DeliveredByOpen(h: Hashes, m: Mailbox, past: History, hash: Bytes32, k: nat)
    requires Agrees(h, m, past) && !m.status.Terminal?
    requires var r := OpenStep(m, hash); r.Ok? && k < |r.value.effects| && r.value.effects[k].Deliver?
    ensures var effects := OpenStep(m, hash).value.effects;
            var owner := effects[k].recipient.Peer();
            && Observe(past, Open(hash), effects) == past
            && effects[k].peerSeq < |past.Accepted(owner)|
            && past.Accepted(owner)[effects[k].peerSeq] == effects[k].body && past.Held(owner, effects[k].peerSeq)
  {
    var who := m.MembershipFor(hash).value;
    var frames := m.Frames(who.Peer());
    FrameCount(h, m, past, who.Peer());
    hide Agrees, Unread, Deliveries;
    assert frames[..|frames|] == frames;
    DeliveriesAreUnread(h, m, past, who, |frames|);
    DeliveriesOnly(who, frames);
    UnreadIsAccepted(past, who, |frames|, k - 1);
  }

  lemma FrameCount(h: Hashes, m: Mailbox, past: History, owner: Membership)
    requires Agrees(h, m, past)
    ensures |m.Frames(owner)| == |past.Accepted(owner)| <= 16
  {
  }

  lemma RetryByOne(h: Hashes, m: Mailbox, past: History, sender: Membership, seqNo: u8, body: Bytes)
    requires Agrees(h, m, past) && seqNo < |past.Accepted(sender)| && 1 <= |body| <= MAX_FRAME_BODY_BYTES
    ensures var first := past.Accepted(sender)[seqNo];
            PutStep(h, m, sender, seqNo, body)
            == Ok(if |first| == |body| && h.body(first) == h.body(body)
                  then Step(Some(m), [Stored(sender, seqNo, true)])
                  else Terminate(m, Conflict))
  {
    hide Terminate;
    var frames := m.Frames(sender);
    FindAt(frames, seqNo);
    assert Recorded(h, frames[seqNo], past.Accepted(sender)[seqNo], past.Held(sender, seqNo));
  }

  /** Retries are immutable: a Put at an accepted sequence is acknowledged again
      exactly when it repeats the accepted body's length and digest, and any
      other body there closes the mailbox as a conflict. */
  lemma RetryIsImmutable(h: Hashes, start: Mailbox, commands: seq<(u64, Command)>, now: u64, sender: Membership,
      seqNo: u8, body: Bytes)
    requires Fresh(h, start) && 1 <= |body| <= MAX_FRAME_BODY_BYTES
    ensures var run := Execute(h, start, commands);
            run.mailbox.Some? && now < run.mailbox.value.expiresAt && !run.past.ended
            && seqNo < |run.past.Accepted(sender)| ==>
              var m, first := run.mailbox.value, run.past.Accepted(sender)[seqNo];
              Transition(h, m, now, Put(sender, seqNo, body))
              == Ok(if |first| == |body| && h.body(first) == h.body(body)
                    then Step(Some(m), [Stored(sender, seqNo, true)])
                    else Terminate(m, Conflict))
  {
    RunAgrees(h, start, commands);
    var run := Execute(h, start, commands);
    if run.mailbox.Some? && seqNo < |run.past.Accepted(sender)| {
      RetryByOne(h, run.mailbox.value, run.past, sender, seqNo, body);
    }
  }
}
