/** The blind relay's mailbox (src/mailbox.rs): two fixed memberships, contiguous
    membership-local sequences, immutable retries and exact byte accounting. */
module Mailbox {
  import opened Base

  const DEFAULT_TTL_SECONDS: u32 := 600
  const MIN_TTL_SECONDS: u32 := 60
  const MAX_TTL_SECONDS: u32 := 86_400
  const V2_TTL_SECONDS: u16 := 900
  const MAX_FRAMES_PER_MEMBERSHIP: nat := 16
  const MAX_FRAME_BODY_BYTES: nat := 69_632
  const MAX_NAMEPLATE: u32 := 999_999_999

  /** The relay's three uses of SHA-256. Nothing below assumes more of them than
      that they are functions, so every result holds for any digest. */
  datatype Hashes = Hashes(
    body: Bytes -> Bytes32,
    token: Bytes32 -> Bytes32,
    commitment: (Bytes32, Bytes16) -> Bytes32)

  datatype Membership = Allocator | Claimant {
    function Peer(): Membership { if Allocator? then Claimant else Allocator }
  }

  datatype CloseReason = Closed | Crowded | Expired | Conflict

  datatype Status = Waiting | Paired | Terminal(reason: CloseReason)

  datatype Admission = V1 | V2Pending(commitment: Bytes32) | V2Claimed | V2Closed

  datatype FrameRecord = FrameRecord(seqNo: u8, digest: Bytes32, bodyLen: nat, body: Option<Bytes>)

  datatype Member = Member(hash: Bytes32, nextSeq: nat, frames: seq<FrameRecord>)

  /** `queueBytes` is an `int` so that the program's checked subtractions stay
      visible; `Valid` below makes the total exact, so that none of them underflows. */
  datatype Mailbox = Mailbox(
    id: Bytes32,
    nameplate: Option<u32>,
    expiresAt: u64,
    status: Status,
    admission: Admission,
    allocator: Member,
    claimant: Option<Member>,
    queueBytes: int)
  {
    function MemberOf(who: Membership): Option<Member> {
      if who.Allocator? then Some(allocator) else claimant
    }

    function WithMember(who: Membership, member: Member): Mailbox {
      if who.Allocator? then this.(allocator := member) else this.(claimant := Some(member))
    }

    function Frames(who: Membership): seq<FrameRecord> {
      match MemberOf(who) case None => [] case Some(member) => member.frames
    }

    function MembershipFor(hash: Bytes32): Option<Membership> {
      if allocator.hash == hash then Some(Allocator)
      else if claimant.Some? && claimant.value.hash == hash then Some(Claimant)
      else None
    }

    /** Allocator hash, then the claimant's when there is one. */
    function MembershipHashes(): seq<Bytes32> {
      [allocator.hash] + if claimant.Some? then [claimant.value.hash] else []
    }
  }

  datatype Command =
    | Claim(claimantHash: Bytes32)
    | ClaimV2(v2ClaimantHash: Bytes32, claimToken: Bytes16)
    | Open(membershipHash: Bytes32)
    | Put(sender: Membership, seqNo: u8, body: Bytes)
    | Ack(acker: Membership, peerSeq: u8)
    | Close(closer: Membership)

  datatype Effect =
    | Claimed(claimExpiry: u64)
    | Opened(membership: Membership, openExpiry: u64)
    | Stored(sender: Membership, seqNo: u8, replay: bool)
    | Deliver(recipient: Membership, peerSeq: u8, body: Bytes)
    | BodyDeleted(owner: Membership, deletedSeq: u8)
    | Ended(reason: CloseReason)

  datatype Error =
    | LifetimeOutOfRange | ExpiryOverflow | NameplateOutOfRange | NotMember
    | AlreadyClosed(reason: CloseReason)
    | SequenceGap(expected: nat, got: u8)
    | FrameLimit | BodySize | UnknownSequence | MembershipCollision | InvalidSnapshot

  /** The mailbox after a transition (none once expiry reaps it) and its effects. */
  datatype Step = Step(state: Option<Mailbox>, effects: seq<Effect>)

  // ---------------------------------------------------------------- operations

  function Allocate(id: Bytes32, nameplate: Option<u32>, allocatorHash: Bytes32, now: u64, ttl: Option<u32>)
    : Result<Mailbox, Error>
  {
    var ttlSeconds := if ttl.None? then DEFAULT_TTL_SECONDS else ttl.value;
    if !(MIN_TTL_SECONDS <= ttlSeconds <= MAX_TTL_SECONDS) then Err(LifetimeOutOfRange)
    else if nameplate.Some? && nameplate.value > MAX_NAMEPLATE then Err(NameplateOutOfRange)
    else if now + ttlSeconds > U64_MAX then Err(ExpiryOverflow)
    else Ok(Mailbox(id, nameplate, now + ttlSeconds, Waiting, V1, Member(allocatorHash, 0, []), None, 0))
  }

  function AllocateV2(id: Bytes32, allocatorHash: Bytes32, commitment: Bytes32, now: u64, ttl: Option<u16>)
    : Result<Mailbox, Error>
  {
    if ttl.Some? && ttl.value != V2_TTL_SECONDS then Err(LifetimeOutOfRange)
    else if now + V2_TTL_SECONDS > U64_MAX then Err(ExpiryOverflow)
    else Ok(Mailbox(id, None, now + V2_TTL_SECONDS, Waiting, V2Pending(commitment),
                    Member(allocatorHash, 0, []), None, 0))
  }

  /** Total length of the bodies still held. */
  function HeldBytes(frames: seq<FrameRecord>): nat {
    if frames == [] then 0
    else
      var last := frames[|frames| - 1];
      HeldBytes(frames[..|frames| - 1]) + if last.body.Some? then last.bodyLen else 0
  }

  function DropBodies(frames: seq<FrameRecord>): (r: seq<FrameRecord>)
    ensures |r| == |frames|
    ensures forall i :: 0 <= i < |frames| ==> r[i] == frames[i].(body := None)
  {
    seq(|frames|, i requires 0 <= i < |frames| => frames[i].(body := None))
  }

  function DeletionEffects(owner: Membership, frames: seq<FrameRecord>): seq<Effect> {
    if frames == [] then []
    else
      var last := frames[|frames| - 1];
      DeletionEffects(owner, frames[..|frames| - 1])
      + if last.body.Some? then [BodyDeleted(owner, last.seqNo)] else []
  }

  /** What `delete_bodies` leaves behind: metadata without bodies. */
  function Emptied(m: Mailbox): Mailbox {
    m.(allocator := m.allocator.(frames := DropBodies(m.allocator.frames)),
       claimant := match m.claimant
                   case None => None
                   case Some(member) => Some(member.(frames := DropBodies(member.frames))),
       queueBytes := m.queueBytes - HeldBytes(m.Frames(Allocator)) - HeldBytes(m.Frames(Claimant)))
  }

  function EmptyingEffects(m: Mailbox): seq<Effect> {
    DeletionEffects(Allocator, m.Frames(Allocator)) + DeletionEffects(Claimant, m.Frames(Claimant))
  }

  function Terminate(m: Mailbox, reason: CloseReason): Step {
    var ended := Emptied(m).(status := Terminal(reason),
                             admission := if m.admission.V1? then V1 else V2Closed);
    Step(Some(ended), EmptyingEffects(m) + [Ended(reason)])
  }

  function Reap(m: Mailbox, now: u64): Step {
    if now < m.expiresAt then Step(Some(m), [])
    else Step(None, EmptyingEffects(m) + if m.status.Terminal? then [] else [Ended(Expired)])
  }

  /** Bodies queued for `recipient`, in sequence order. */
  function Deliveries(recipient: Membership, frames: seq<FrameRecord>): seq<Effect> {
    if frames == [] then []
    else
      var last := frames[|frames| - 1];
      Deliveries(recipient, frames[..|frames| - 1])
      + if last.body.Some? then [Deliver(recipient, last.seqNo, last.body.value)] else []
  }

  /** First frame carrying a sequence, as the program's linear search finds it. */
  function Find(frames: seq<FrameRecord>, seqNo: u8): (r: Option<nat>)
    ensures r.Some? ==> r.value < |frames| && frames[r.value].seqNo == seqNo
    ensures r.None? ==> forall i :: 0 <= i < |frames| ==> frames[i].seqNo != seqNo
  {
    if frames == [] then None
    else if frames[0].seqNo == seqNo then Some(0)
    else match Find(frames[1..], seqNo) case None => None case Some(i) => Some(i + 1)
  }

  function ClaimStep(m: Mailbox, claimantHash: Bytes32): Result<Step, Error> {
    if !m.admission.V1? then Err(NotMember)
    else if claimantHash == m.allocator.hash then Err(MembershipCollision)
    else match m.claimant
      case None =>
        Ok(Step(Some(m.(claimant := Some(Member(claimantHash, 0, [])), status := Paired)), [Claimed(m.expiresAt)]))
      case Some(claimant) =>
        if claimant.hash == claimantHash then Err(MembershipCollision) else Ok(Terminate(m, Crowded))
  }

  function ClaimV2Step(h: Hashes, m: Mailbox, claimantHash: Bytes32, claimToken: Bytes16): Result<Step, Error> {
    if !m.admission.V2Pending? || m.admission.commitment != h.commitment(m.id, claimToken) then Err(NotMember)
    else if claimantHash == m.allocator.hash || m.claimant.Some? then Err(MembershipCollision)
    else
      Ok(Step(Some(m.(claimant := Some(Member(claimantHash, 0, [])), status := Paired, admission := V2Claimed)),
              [Claimed(m.expiresAt)]))
  }

  function OpenStep(m: Mailbox, hash: Bytes32): Result<Step, Error> {
    match m.MembershipFor(hash)
    case None => Err(NotMember)
    case Some(who) =>
      Ok(Step(Some(m), [Opened(who, m.expiresAt)] + Deliveries(who, m.Frames(who.Peer()))))
  }

  /** The member after one accepted Put, and the mailbox holding it. */
  function Appended(h: Hashes, member: Member, seqNo: u8, body: Bytes): Member {
    member.(frames := member.frames + [FrameRecord(seqNo, h.body(body), |body|, Some(body))],
            nextSeq := member.nextSeq + 1)
  }

  function Grown(h: Hashes, m: Mailbox, sender: Membership, member: Member, seqNo: u8, body: Bytes): Mailbox {
    m.WithMember(sender, Appended(h, member, seqNo, body)).(queueBytes := m.queueBytes + |body|)
  }

  function PutStep(h: Hashes, m: Mailbox, sender: Membership, seqNo: u8, body: Bytes): Result<Step, Error> {
    if |body| == 0 || |body| > MAX_FRAME_BODY_BYTES then Err(BodySize)
    else match m.MemberOf(sender)
      case None => Err(NotMember)
      case Some(member) =>
        if seqNo < member.nextSeq then
          match Find(member.frames, seqNo)
          case None => Err(UnknownSequence)
          case Some(i) =>
            if member.frames[i].bodyLen == |body| && member.frames[i].digest == h.body(body)
            then Ok(Step(Some(m), [Stored(sender, seqNo, true)]))
            else Ok(Terminate(m, Conflict))
        else if seqNo > member.nextSeq then Err(SequenceGap(member.nextSeq, seqNo))
        else if seqNo >= MAX_FRAMES_PER_MEMBERSHIP || |member.frames| >= MAX_FRAMES_PER_MEMBERSHIP then Err(FrameLimit)
        else
          Ok(Step(Some(Grown(h, m, sender, member, seqNo, body)),
                  [Stored(sender, seqNo, false)]
                  + if m.MemberOf(sender.Peer()).Some? then [Deliver(sender.Peer(), seqNo, body)] else []))
  }

  /** The mailbox once the body of `owner`'s frame `i` is gone. */
  function Cleared(m: Mailbox, owner: Membership, member: Member, i: nat): Mailbox
    requires i < |member.frames|
  {
    var frame := member.frames[i];
    m.WithMember(owner, member.(frames := member.frames[i := frame.(body := None)]))
     .(queueBytes := m.queueBytes - if frame.body.Some? then frame.bodyLen else 0)
  }

  function AckStep(m: Mailbox, acker: Membership, peerSeq: u8): Result<Step, Error> {
    if m.MemberOf(acker).None? then Err(NotMember)
    else match m.MemberOf(acker.Peer())
      case None => Err(UnknownSequence)
      case Some(peer) =>
        match Find(peer.frames, peerSeq)
        case None => Err(UnknownSequence)
        case Some(i) =>
          Ok(Step(Some(Cleared(m, acker.Peer(), peer, i)),
                  if peer.frames[i].body.Some? then [BodyDeleted(acker.Peer(), peerSeq)] else []))
  }

  /** `transition`: one recognised command against an immutable mailbox. */
  function Transition(h: Hashes, m: Mailbox, now: u64, command: Command): Result<Step, Error> {
    if now >= m.expiresAt then Ok(Reap(m, now))
    else if m.status.Terminal? then Err(AlreadyClosed(m.status.reason))
    else match command
      case Claim(hash) => ClaimStep(m, hash)
      case ClaimV2(hash, token) => ClaimV2Step(h, m, hash, token)
      case Open(hash) => OpenStep(m, hash)
      case Put(sender, seqNo, body) => PutStep(h, m, sender, seqNo, body)
      case Ack(acker, peerSeq) => AckStep(m, acker, peerSeq)
      case Close(closer) => if m.MemberOf(closer).None? then Err(NotMember) else Ok(Terminate(m, Closed))
  }

  // ---------------------------------------------------------------- invariant

  ghost predicate FrameOk(h: Hashes, frame: FrameRecord, index: nat) {
    && frame.seqNo == index
    && 1 <= frame.bodyLen <= MAX_FRAME_BODY_BYTES
    && (frame.body.Some? ==> |frame.body.value| == frame.bodyLen && h.body(frame.body.value) == frame.digest)
  }

  ghost predicate MemberOk(h: Hashes, member: Member) {
    && member.nextSeq == |member.frames| <= MAX_FRAMES_PER_MEMBERSHIP
    && forall i :: 0 <= i < |member.frames| ==> FrameOk(h, member.frames[i], i)
  }

  ghost predicate AdmissionOk(m: Mailbox) {
    && (m.admission.V2Pending? ==> m.status.Waiting?)
    && (m.admission.V2Claimed? ==> m.status.Paired?)
    && (m.admission.V2Closed? ==> m.status.Terminal?)
    && (!m.admission.V1? ==> m.nameplate.None?)
  }

  /** Everything that holds of a mailbox the relay can ever retain. */
  ghost predicate Valid(h: Hashes, m: Mailbox) {
    && (m.nameplate.Some? ==> m.nameplate.value <= MAX_NAMEPLATE)
    && (m.status.Waiting? ==> m.claimant.None?)
    && (m.status.Paired? ==> m.claimant.Some?)
    && AdmissionOk(m)
    && MemberOk(h, m.allocator)
    && (m.claimant.Some? ==> MemberOk(h, m.claimant.value) && m.claimant.value.hash != m.allocator.hash)
    && m.queueBytes == HeldBytes(m.Frames(Allocator)) + HeldBytes(m.Frames(Claimant))
    && (m.status.Terminal? ==> m.queueBytes == 0 && NoBodies(m.Frames(Allocator)) && NoBodies(m.Frames(Claimant)))
  }

  ghost predicate NoBodies(frames: seq<FrameRecord>) {
    forall i :: 0 <= i < |frames| ==> frames[i].body.None?
  }

  lemma {:induction false} NoBodiesHoldNothing(frames: seq<FrameRecord>)
    requires NoBodies(frames)
    ensures HeldBytes(frames) == 0
  {
    if frames != [] { NoBodiesHoldNothing(frames[..|frames| - 1]); }
  }

  lemma {:induction false} HeldBytesUpdate(frames: seq<FrameRecord>, i: nat)
    requires i < |frames|
    ensures HeldBytes(frames[i := frames[i].(body := None)])
         == HeldBytes(frames) - if frames[i].body.Some? then frames[i].bodyLen else 0
  {
    var n := |frames| - 1;
    var dropped := frames[i := frames[i].(body := None)];
    if i < n {
      assert dropped[..n] == frames[..n][i := frames[..n][i].(body := None)];
      HeldBytesUpdate(frames[..n], i);
    } else {
      assert dropped[..n] == frames[..n];
    }
  }

  lemma HeldBytesAppend(frames: seq<FrameRecord>, frame: FrameRecord)
    ensures HeldBytes(frames + [frame]) == HeldBytes(frames) + if frame.body.Some? then frame.bodyLen else 0
  {
    assert (frames + [frame])[..|frames|] == frames;
  }

  lemma FindAt(frames: seq<FrameRecord>, seqNo: u8)
    requires forall i :: 0 <= i < |frames| ==> frames[i].seqNo == i
    ensures Find(frames, seqNo) == if seqNo < |frames| then Some(seqNo) else None
  {
    if seqNo < |frames| { assert frames[seqNo].seqNo == seqNo; }
  }

  lemma AllocateValid(h: Hashes, id: Bytes32, nameplate: Option<u32>, hash: Bytes32, now: u64, ttl: Option<u32>)
    ensures var r := Allocate(id, nameplate, hash, now, ttl);
            r.Ok? ==>
                Valid(h, r.value) && r.value.id == id && r.value.expiresAt > now && r.value.MembershipHashes() == [hash]
  {
  }

  lemma AllocateV2Valid(h: Hashes, id: Bytes32, hash: Bytes32, commitment: Bytes32, now: u64, ttl: Option<u16>)
    ensures var r := AllocateV2(id, hash, commitment, now, ttl);
            r.Ok? ==>
                Valid(h, r.value) && r.value.id == id && r.value.expiresAt > now && r.value.MembershipHashes() == [hash]
  {
  }

  lemma TerminateValid(h: Hashes, m: Mailbox, reason: CloseReason)
    requires Valid(h, m)
    ensures Valid(h, Terminate(m, reason).state.value)
  {
    var next := Terminate(m, reason).state.value;
    NoBodiesHoldNothing(next.Frames(Allocator));
    NoBodiesHoldNothing(next.Frames(Claimant));
  }

  lemma AppendedOk(h: Hashes, member: Member, seqNo: u8, body: Bytes)
    requires MemberOk(h, member) && seqNo == member.nextSeq < MAX_FRAMES_PER_MEMBERSHIP
    requires 1 <= |body| <= MAX_FRAME_BODY_BYTES
    ensures MemberOk(h, Appended(h, member, seqNo, body))
    ensures HeldBytes(Appended(h, member, seqNo, body).frames) == HeldBytes(member.frames) + |body|
  {
    HeldBytesAppend(member.frames, FrameRecord(seqNo, h.body(body), |body|, Some(body)));
  }

  lemma GrownValid(h: Hashes, m: Mailbox, sender: Membership, member: Member, seqNo: u8, body: Bytes)
    requires Valid(h, m) && !m.status.Terminal? && m.MemberOf(sender) == Some(member)
    requires seqNo == member.nextSeq < MAX_FRAMES_PER_MEMBERSHIP && 1 <= |body| <= MAX_FRAME_BODY_BYTES
    ensures Valid(h, Grown(h, m, sender, member, seqNo, body))
  {
    AppendedOk(h, member, seqNo, body);
  }

  lemma PutValid(h: Hashes, m: Mailbox, sender: Membership, seqNo: u8, body: Bytes)
    requires Valid(h, m) && !m.status.Terminal?
    ensures var r := PutStep(h, m, sender, seqNo, body);
            r.Ok? ==> r.value.state.Some? && Valid(h, r.value.state.value)
  {
    if PutStep(h, m, sender, seqNo, body).Ok? {
      var member := m.MemberOf(sender).value;
      if seqNo < member.nextSeq {
        TerminateValid(h, m, Conflict);
      } else {
        GrownValid(h, m, sender, member, seqNo, body);
      }
    }
  }

  lemma ClearedValid(h: Hashes, m: Mailbox, owner: Membership, member: Member, i: nat)
    requires Valid(h, m) && !m.status.Terminal? && m.MemberOf(owner) == Some(member) && i < |member.frames|
    ensures Valid(h, Cleared(m, owner, member, i))
  {
    HeldBytesUpdate(member.frames, i);
  }

  /** Every transition keeps the invariant. */
  lemma TransitionValid(h: Hashes, m: Mailbox, now: u64, command: Command)
    requires Valid(h, m)
    ensures var r := Transition(h, m, now, command);
            r.Ok? && r.value.state.Some? ==> Valid(h, r.value.state.value)
  {
    if now < m.expiresAt && !m.status.Terminal? {
      match command
      case Claim(_) => TerminateValid(h, m, Crowded);
      case ClaimV2(_, _) => NoBodiesHoldNothing([]);
      case Open(_) =>
      case Put(sender, seqNo, body) => PutValid(h, m, sender, seqNo, body);
      case Ack(acker, peerSeq) =>
        var frames := m.Frames(acker.Peer());
        if Find(frames, peerSeq).Some? && m.MemberOf(acker.Peer()).Some? {
          ClearedValid(h, m, acker.Peer(), m.MemberOf(acker.Peer()).value, Find(frames, peerSeq).value);
        }
      case Close(_) => TerminateValid(h, m, Closed);
    }
  }

  /** What no command changes, and what only a claim or a Put can. */
  ghost predicate Continues(m: Mailbox, next: Mailbox, command: Command) {
    && next.id == m.id && next.nameplate == m.nameplate && next.expiresAt == m.expiresAt
    && next.allocator.hash == m.allocator.hash
    && (m.claimant.Some? ==> next.claimant.Some? && next.claimant.value.hash == m.claimant.value.hash)
    && (m.claimant.None? && next.claimant.Some? ==>
          || (command.Claim? && next.claimant.value.hash == command.claimantHash)
          || (command.ClaimV2? && next.claimant.value.hash == command.v2ClaimantHash))
    && (!command.Put? ==> next.queueBytes <= m.queueBytes)
  }

  /** A mailbox keeps its identity, expiry and members through every command,
      and only a Put can grow its queue. */
  lemma TransitionContinues(h: Hashes, m: Mailbox, now: u64, command: Command)
    ensures var r := Transition(h, m, now, command);
            r.Ok? && r.value.state.Some? ==> Continues(m, r.value.state.value, command)
  {
  }

  /** The program's `delete_bodies` loops, with the accounting they rely on: in a
      valid mailbox each subtraction is covered by what is still queued. */
  method DeleteBodies(h: Hashes, m: Mailbox) returns (next: Mailbox, effects: seq<Effect>)
    requires Valid(h, m)
    ensures next == Emptied(m) && effects == EmptyingEffects(m) && next.queueBytes == 0
  {
    var allocatorFrames, queue, first := DeleteMemberBodies(Allocator, m.allocator.frames, m.queueBytes);
    next := m.(allocator := m.allocator.(frames := allocatorFrames), queueBytes := queue);
    effects := first;
    if m.claimant.Some? {
      var claimantFrames, rest, second := DeleteMemberBodies(Claimant, m.claimant.value.frames, queue);
      next := next.(claimant := Some(m.claimant.value.(frames := claimantFrames)), queueBytes := rest);
      effects := effects + second;
    }
  }

  method DeleteMemberBodies(owner: Membership, frames: seq<FrameRecord>, queue: int)
    returns (left: seq<FrameRecord>, queueLeft: int, effects: seq<Effect>)
    requires HeldBytes(frames) <= queue
    ensures left == DropBodies(frames)
    ensures queueLeft == queue - HeldBytes(frames) && 0 <= queueLeft
    ensures effects == DeletionEffects(owner, frames)
  {
    hide HeldBytes, DeletionEffects;
    DroppedNone(owner, frames);
    left, queueLeft, effects := frames, queue, [];
    for i := 0 to |frames|
      invariant |left| == |frames|
      invariant forall k :: 0 <= k < i ==> left[k] == frames[k].(body := None)
      invariant forall k :: i <= k < |frames| ==> left[k] == frames[k]
      invariant queueLeft == queue - HeldBytes(frames[..i])
      invariant effects == DeletionEffects(owner, frames[..i])
    {
      DroppedNext(owner, frames, i);
      if left[i].body.Some? {
        queueLeft := queueLeft - left[i].bodyLen;
        assert 0 <= queueLeft;
        effects := effects + [BodyDeleted(owner, left[i].seqNo)];
      }
      left := left[i := left[i].(body := None)];
    }
    assert frames[..|frames|] == frames;
  }

  lemma DroppedNone(owner: Membership, frames: seq<FrameRecord>)
    ensures HeldBytes(frames[..0]) == 0 && DeletionEffects(owner, frames[..0]) == []
  {
  }

  lemma DroppedNext(owner: Membership, frames: seq<FrameRecord>, i: nat)
    requires i < |frames|
    ensures HeldBytes(frames[..i + 1]) == HeldBytes(frames[..i]) + (if frames[i].body.Some? then frames[i].bodyLen
            else 0)
    ensures DeletionEffects(owner, frames[..i + 1])
         == DeletionEffects(owner, frames[..i]) + (if frames[i].body.Some? then [BodyDeleted(owner, frames[i].seqNo)]
             else [])
    ensures HeldBytes(frames[..i + 1]) <= HeldBytes(frames)
  {
    assert frames[..i + 1][..i] == frames[..i];
    HeldBytesPrefix(frames, i + 1);
  }

  lemma {:induction false} HeldBytesPrefix(frames: seq<FrameRecord>, n: nat)
    requires n <= |frames|
    ensures HeldBytes(frames[..n]) <= HeldBytes(frames)
    decreases |frames|
  {
    if n < |frames| {
      assert frames[..|frames| - 1][..n] == frames[..n];
      HeldBytesPrefix(frames[..|frames| - 1], n);
    } else {
      assert frames[..n] == frames;
    }
  }
}
