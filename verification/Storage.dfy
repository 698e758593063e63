/** Mailbox persistence (src/storage.rs and the snapshot half of src/mailbox.rs), at
    the level of CBOR values: what a store writes, what it reads back, and which
    mailboxes come out. */
module Storages {
  import opened Base
  import opened Mailbox

  /** The CBOR values a record is built from. */
  datatype Value = Integer(n: int) | Text(text: string) | Octets(bytes: Bytes) | List(items: seq<Value>) | Null

  datatype SequenceSnapshot = SequenceSnapshot(owner: Membership, seqNo: u8, digest: Bytes32, bodyLen: nat,
      body: Option<Bytes>)

  datatype Snapshot = Snapshot(
    id: Bytes32, nameplate: Option<u32>, expiresAt: u64, status: Status, admission: Admission,
    hashes: seq<Bytes32>, sequences: seq<SequenceSnapshot>)

  type Decoded<T> = Result<T, Error>

  // ---------------------------------------------------------------- snapshots

  function SnapshotFrames(owner: Membership, frames: seq<FrameRecord>): (r: seq<SequenceSnapshot>)
    ensures |r| == |frames|
  {
    seq(|frames|, i requires 0 <= i < |frames| =>
      SequenceSnapshot(owner, frames[i].seqNo, frames[i].digest, frames[i].bodyLen, frames[i].body))
  }

  function TakeSnapshot(m: Mailbox): Snapshot {
    Snapshot(m.id, m.nameplate, m.expiresAt, m.status, m.admission, m.MembershipHashes(),
             SnapshotFrames(Allocator, m.Frames(Allocator)) + SnapshotFrames(Claimant, m.Frames(Claimant)))
  }

  function OwnedBy(s: seq<SequenceSnapshot>, owner: Membership): seq<SequenceSnapshot> {
    if s == [] then []
    else OwnedBy(s[..|s| - 1], owner) + if s[|s| - 1].owner == owner then [s[|s| - 1]] else []
  }

  /** Stable insertion after every element whose sequence is not larger. */
  function InsertBySequence(sorted: seq<SequenceSnapshot>, x: SequenceSnapshot): seq<SequenceSnapshot> {
    if sorted == [] || sorted[|sorted| - 1].seqNo <= x.seqNo then sorted + [x]
    else InsertBySequence(sorted[..|sorted| - 1], x) + [sorted[|sorted| - 1]]
  }

  function SortBySequence(s: seq<SequenceSnapshot>): seq<SequenceSnapshot> {
    if s == [] then [] else InsertBySequence(SortBySequence(s[..|s| - 1]), s[|s| - 1])
  }

  predicate GoodFrame(h: Hashes, s: SequenceSnapshot, index: nat) {
    && s.seqNo == index
    && 1 <= s.bodyLen <= MAX_FRAME_BODY_BYTES
    && (s.body.Some? ==> |s.body.value| == s.bodyLen && h.body(s.body.value) == s.digest)
  }

  function RecordOf(s: SequenceSnapshot): FrameRecord { FrameRecord(s.seqNo, s.digest, s.bodyLen, s.body) }

  function RecordsOf(s: seq<SequenceSnapshot>): (r: seq<FrameRecord>)
    ensures |r| == |s|
  {
    seq(|s|, i requires 0 <= i < |s| => RecordOf(s[i]))
  }

  function RestoreMember(h: Hashes, sequences: seq<SequenceSnapshot>, owner: Membership,
      hash: Bytes32): Decoded<Member> {
    var mine := SortBySequence(OwnedBy(sequences, owner));
    if |mine| > MAX_FRAMES_PER_MEMBERSHIP || exists i :: 0 <= i < |mine| && !GoodFrame(h, mine[i], i)
        then Err(InvalidSnapshot)
    else Ok(Member(hash, |mine|, RecordsOf(mine)))
  }

  predicate AdmissionFits(s: Snapshot) {
    match s.admission
    case V1 => true
    case V2Pending(_) => s.status.Waiting? && s.nameplate.None? && |s.hashes| == 1
    case V2Claimed => s.status.Paired? && s.nameplate.None? && |s.hashes| == 2
    case V2Closed => s.status.Terminal? && s.nameplate.None?
  }

  function FromSnapshot(h: Hashes, s: Snapshot): Decoded<Mailbox> {
    if (s.nameplate.Some? && s.nameplate.value > MAX_NAMEPLATE) || |s.hashes| == 0 || |s.hashes| > 2
        then Err(InvalidSnapshot)
    else if (s.status.Waiting? && |s.hashes| != 1) || (s.status.Paired? && |s.hashes| != 2) then Err(InvalidSnapshot)
    else if !AdmissionFits(s) then Err(InvalidSnapshot)
    else
      var allocator :- RestoreMember(h, s.sequences, Allocator, s.hashes[0]);
      if |s.hashes| == 1 then
        if exists i :: 0 <= i < |s.sequences| && s.sequences[i].owner == Claimant then Err(InvalidSnapshot)
        else Ok(Mailbox(s.id, s.nameplate, s.expiresAt, s.status, s.admission, allocator, None,
            HeldBytes(allocator.frames)))
      else
        var claimant :- RestoreMember(h, s.sequences, Claimant, s.hashes[1]);
        Ok(Mailbox(s.id, s.nameplate, s.expiresAt, s.status, s.admission, allocator, Some(claimant),
                   HeldBytes(allocator.frames) + HeldBytes(claimant.frames)))
  }

  // ---------------------------------------------------------------- records

  const DOMAIN_V1: string := "cbcl-pairing-mailbox-store/v1"
  const DOMAIN_V2: string := "cbcl-pairing-mailbox-store/v2"

  const REASONS: seq<CloseReason> := [Closed, Crowded, Expired, Conflict]

  function ReasonNumber(reason: CloseReason): (n: nat)
    ensures n < 4 && REASONS[n] == reason
  {
    match reason case Closed => 0 case Crowded => 1 case Expired => 2 case Conflict => 3
  }

  function EncodeStatus(status: Status): Value {
    match status
    case Waiting => List([Integer(0)])
    case Paired => List([Integer(1)])
    case Terminal(reason) => List([Integer(2), Integer(ReasonNumber(reason))])
  }

  function EncodeAdmission(admission: Admission): Value {
    match admission
    case V1 => List([Integer(0)])
    case V2Pending(commitment) => List([Integer(1), Octets(commitment)])
    case V2Claimed => List([Integer(2)])
    case V2Closed => List([Integer(3)])
  }

  function EncodeSequence(s: SequenceSnapshot): Value {
    List([Integer(if s.owner.Allocator? then 0 else 1), Integer(s.seqNo), Octets(s.digest), Integer(s.bodyLen),
          if s.body.None? then Null else Octets(s.body.value)])
  }

  function EncodeSequences(s: seq<SequenceSnapshot>): (r: seq<Value>)
    ensures |r| == |s| && forall i :: 0 <= i < |s| ==> r[i] == EncodeSequence(s[i])
  {
    seq(|s|, i requires 0 <= i < |s| => EncodeSequence(s[i]))
  }

  function EncodeHashes(hashes: seq<Bytes32>): (r: seq<Value>)
    ensures |r| == |hashes| && forall i :: 0 <= i < |hashes| ==> r[i] == Octets(hashes[i])
  {
    seq(|hashes|, i requires 0 <= i < |hashes| => Octets(hashes[i]))
  }

  function Encode(s: Snapshot): Value {
    List([Text(if s.admission.V1? then DOMAIN_V1 else DOMAIN_V2), Octets(s.id),
          if s.nameplate.None? then Null else Integer(s.nameplate.value),
          Integer(s.expiresAt), EncodeStatus(s.status), List(EncodeHashes(s.hashes)),
              List(EncodeSequences(s.sequences))]
         + if s.admission.V1? then [] else [EncodeAdmission(s.admission)])
  }

  function ReadInteger(v: Value): Decoded<u64> { if v.Integer? && 0 <= v.n <= U64_MAX then Ok(v.n)
      else Err(InvalidSnapshot) }

  function ReadFixed(v: Value): Decoded<Bytes32> { if v.Octets? && |v.bytes| == 32 then Ok(v.bytes)
      else Err(InvalidSnapshot) }

  function DecodeStatus(v: Value): Decoded<Status> {
    if !v.List? || v.items == [] then Err(InvalidSnapshot)
    else
      var kind :- ReadInteger(v.items[0]);
      if |v.items| == 1 && kind == 0 then Ok(Waiting)
      else if |v.items| == 1 && kind == 1 then Ok(Paired)
      else if |v.items| == 2 && kind == 2 then
        var reason :- ReadInteger(v.items[1]);
        if reason < 4 then Ok(Terminal(REASONS[reason])) else Err(InvalidSnapshot)
      else Err(InvalidSnapshot)
  }

  function DecodeAdmission(v: Value): Decoded<Admission> {
    if !v.List? || v.items == [] then Err(InvalidSnapshot)
    else
      var kind :- ReadInteger(v.items[0]);
      if |v.items| == 1 && kind == 0 then Ok(V1)
      else if |v.items| == 2 && kind == 1 then
        var commitment :- ReadFixed(v.items[1]);
        Ok(V2Pending(commitment))
      else if |v.items| == 1 && kind == 2 then Ok(V2Claimed)
      else if |v.items| == 1 && kind == 3 then Ok(V2Closed)
      else Err(InvalidSnapshot)
  }

  function DecodeSequence(v: Value): Decoded<SequenceSnapshot> {
    if !v.List? || |v.items| != 5 then Err(InvalidSnapshot)
    else
      var owner :- ReadInteger(v.items[0]);
      var seqNo :- ReadInteger(v.items[1]);
      var digest :- ReadFixed(v.items[2]);
      var bodyLen :- ReadInteger(v.items[3]);
      if owner > 1 || seqNo > 255 || (!v.items[4].Null? && !v.items[4].Octets?) then Err(InvalidSnapshot)
      else
        Ok(SequenceSnapshot(if owner == 0 then Allocator else Claimant, seqNo, digest, bodyLen,
                            if v.items[4].Null? then None else Some(v.items[4].bytes)))
  }

  function DecodeSequences(items: seq<Value>): Decoded<seq<SequenceSnapshot>> {
    if items == [] then Ok([])
    else
      var front :- DecodeSequences(items[..|items| - 1]);
      var last :- DecodeSequence(items[|items| - 1]);
      Ok(front + [last])
  }

  function DecodeHashes(items: seq<Value>): Decoded<seq<Bytes32>> {
    if items == [] then Ok([])
    else
      var front :- DecodeHashes(items[..|items| - 1]);
      var last :- ReadFixed(items[|items| - 1]);
      Ok(front + [last])
  }

  function DecodeNameplate(v: Value): Decoded<Option<u32>> {
    if v.Null? then Ok(None)
    else
      var n :- ReadInteger(v);
      if n < 0x1_0000_0000 then Ok(Some(n)) else Err(InvalidSnapshot)
  }

  function DecodeRecord(v: Value): Decoded<Snapshot> {
    if !v.List? || |v.items| < 7 then Err(InvalidSnapshot)
    else
      var admission :-
        if |v.items| == 7 && v.items[0] == Text(DOMAIN_V1) then Ok(V1)
        else if |v.items| == 8 && v.items[0] == Text(DOMAIN_V2) then DecodeAdmission(v.items[7])
        else Err(InvalidSnapshot);
      var id :- ReadFixed(v.items[1]);
      var nameplate :- DecodeNameplate(v.items[2]);
      var status :- DecodeStatus(v.items[4]);
      if !v.items[5].List? || !v.items[6].List? then Err(InvalidSnapshot)
      else
        var hashes :- DecodeHashes(v.items[5].items);
        var sequences :- DecodeSequences(v.items[6].items);
        var expiresAt :- ReadInteger(v.items[3]);
        Ok(Snapshot(id, nameplate, expiresAt, status, admission, hashes, sequences))
  }

  function Decode(h: Hashes, v: Value): Decoded<Mailbox> {
    var snapshot :- DecodeRecord(v);
    FromSnapshot(h, snapshot)
  }

  // ---------------------------------------------------------------- record round trip

  lemma {:induction false} HashesRoundTrip(hashes: seq<Bytes32>)
    ensures DecodeHashes(EncodeHashes(hashes)) == Ok(hashes)
  {
    if hashes != [] {
      var n := |hashes| - 1;
      assert EncodeHashes(hashes)[..n] == EncodeHashes(hashes[..n]);
      HashesRoundTrip(hashes[..n]);
      assert hashes == hashes[..n] + [hashes[n]];
    }
  }

  lemma SequenceRoundTrip(s: SequenceSnapshot)
    requires s.bodyLen <= U64_MAX
    ensures DecodeSequence(EncodeSequence(s)) == Ok(s)
  {
  }

  lemma {:induction false} SequencesRoundTrip(s: seq<SequenceSnapshot>)
    requires forall i :: 0 <= i < |s| ==> s[i].bodyLen <= U64_MAX
    ensures DecodeSequences(EncodeSequences(s)) == Ok(s)
  {
    if s != [] {
      var n := |s| - 1;
      assert EncodeSequences(s)[..n] == EncodeSequences(s[..n]);
      SequencesRoundTrip(s[..n]);
      SequenceRoundTrip(s[n]);
      assert s == s[..n] + [s[n]];
    }
  }

  lemma AdmissionRoundTrip(admission: Admission)
    ensures DecodeAdmission(EncodeAdmission(admission)) == Ok(admission)
  {
  }

  lemma StatusRoundTrip(status: Status)
    ensures DecodeStatus(EncodeStatus(status)) == Ok(status)
  {
  }

  /** Reading a record back gives the snapshot that was written, whatever it says. */
  lemma RecordRoundTrip(s: Snapshot)
    requires forall i :: 0 <= i < |s.sequences| ==> s.sequences[i].bodyLen <= U64_MAX
    ensures DecodeRecord(Encode(s)) == Ok(s)
  {
    hide DecodeSequences, EncodeSequences, DecodeHashes, EncodeHashes, DecodeStatus, EncodeStatus, DecodeAdmission,
         EncodeAdmission;
    HashesRoundTrip(s.hashes);
    SequencesRoundTrip(s.sequences);
    StatusRoundTrip(s.status);
    AdmissionRoundTrip(s.admission);
  }

  // ---------------------------------------------------------------- snapshot round trip

  lemma {:induction false} OwnedByNone(s: seq<SequenceSnapshot>, owner: Membership)
    requires forall i :: 0 <= i < |s| ==> s[i].owner != owner
    ensures OwnedBy(s, owner) == []
  {
    if s != [] { OwnedByNone(s[..|s| - 1], owner); }
  }

  lemma {:induction false} OwnedByAll(s: seq<SequenceSnapshot>, owner: Membership)
    requires forall i :: 0 <= i < |s| ==> s[i].owner == owner
    ensures OwnedBy(s, owner) == s
  {
    if s != [] {
      OwnedByAll(s[..|s| - 1], owner);
      assert s == s[..|s| - 1] + [s[|s| - 1]];
    }
  }

  lemma {:induction false} OwnedByAppend(a: seq<SequenceSnapshot>, b: seq<SequenceSnapshot>, owner: Membership)
    ensures OwnedBy(a + b, owner) == OwnedBy(a, owner) + OwnedBy(b, owner)
  {
    if b == [] {
      assert a + b == a;
    } else {
      var n := |b| - 1;
      assert (a + b)[..|a| + n] == a + b[..n];
      OwnedByAppend(a, b[..n], owner);
    }
  }

  lemma InsertLast(sorted: seq<SequenceSnapshot>, x: SequenceSnapshot)
    requires sorted == [] || sorted[|sorted| - 1].seqNo <= x.seqNo
    ensures InsertBySequence(sorted, x) == sorted + [x]
  {
  }

  ghost predicate InOrder(s: seq<SequenceSnapshot>) {
    forall i :: 0 <= i < |s| ==> s[i].seqNo == i
  }

  lemma SortLast(front: seq<SequenceSnapshot>, x: SequenceSnapshot)
    ensures SortBySequence(front + [x]) == InsertBySequence(SortBySequence(front), x)
  {
    hide InsertBySequence;
    assert (front + [x])[..|front|] == front;
  }

  lemma OrderedFront(s: seq<SequenceSnapshot>, n: nat)
    requires InOrder(s) && |s| == n + 1
    ensures InOrder(s[..n]) && (n > 0 ==> s[..n][n - 1].seqNo <= s[n].seqNo) && s[..n] + [s[n]] == s
  {
  }

  lemma {:induction false} SortedStays(s: seq<SequenceSnapshot>)
    requires InOrder(s)
    ensures SortBySequence(s) == s
  {
    if s != [] {
      hide InOrder, InsertBySequence, SortBySequence;
      var n := |s| - 1;
      OrderedFront(s, n);
      SortedStays(s[..n]);
      InsertLast(s[..n], s[n]);
      SortLast(s[..n], s[n]);
    }
  }

  lemma FramesRestore(h: Hashes, frames: seq<FrameRecord>, owner: Membership)
    ensures RecordsOf(SnapshotFrames(owner, frames)) == frames
  {
  }

  lemma SnapshotOwners(owner: Membership, frames: seq<FrameRecord>)
    ensures OwnedBy(SnapshotFrames(owner, frames), owner) == SnapshotFrames(owner, frames)
    ensures OwnedBy(SnapshotFrames(owner, frames), owner.Peer()) == []
  {
    OwnedByAll(SnapshotFrames(owner, frames), owner);
    OwnedByNone(SnapshotFrames(owner, frames), owner.Peer());
  }

  /** Splitting by owner undoes the concatenation of the two members' frames. */
  lemma OwnFrames(m: Mailbox, owner: Membership)
    ensures OwnedBy(TakeSnapshot(m).sequences, owner) == SnapshotFrames(owner, m.Frames(owner))
  {
    hide SnapshotFrames, OwnedBy;
    var a, c := SnapshotFrames(Allocator, m.Frames(Allocator)), SnapshotFrames(Claimant, m.Frames(Claimant));
    OwnedByAppend(a, c, owner);
    SnapshotOwners(Allocator, m.Frames(Allocator));
    SnapshotOwners(Claimant, m.Frames(Claimant));
  }

  lemma GoodFrames(h: Hashes, owner: Membership, member: Member)
    requires MemberOk(h, member)
    ensures forall i :: 0 <= i < |member.frames| ==> GoodFrame(h, SnapshotFrames(owner, member.frames)[i], i)
  {
    forall i | 0 <= i < |member.frames| ensures GoodFrame(h, SnapshotFrames(owner, member.frames)[i], i) {
      assert FrameOk(h, member.frames[i], i);
    }
  }

  lemma MemberRestores(h: Hashes, m: Mailbox, owner: Membership, member: Member)
    requires MemberOk(h, member) && m.MemberOf(owner) == Some(member)
    ensures RestoreMember(h, TakeSnapshot(m).sequences, owner, member.hash) == Ok(member)
  {
    hide OwnedBy, SortBySequence, SnapshotFrames, TakeSnapshot;
    var mine := SnapshotFrames(owner, member.frames);
    OwnFrames(m, owner);
    GoodFrames(h, owner, member);
    SortedStays(mine);
    FramesRestore(h, member.frames, owner);
  }

  /** A snapshot of a mailbox the relay can retain restores to that very mailbox. */
  lemma SnapshotRoundTrip(h: Hashes, m: Mailbox)
    requires Valid(h, m)
    ensures FromSnapshot(h, TakeSnapshot(m)) == Ok(m)
  {
    hide RestoreMember, SnapshotFrames, HeldBytes;
    MemberRestores(h, m, Allocator, m.allocator);
    if m.claimant.Some? {
      MemberRestores(h, m, Claimant, m.claimant.value);
    } else {
      NoClaimantSequences(m);
      EmptyHoldsNothing();
    }
  }

  lemma EmptyHoldsNothing()
    ensures HeldBytes([]) == 0
  {
  }

  lemma NoClaimantSequences(m: Mailbox)
    requires m.claimant.None?
    ensures forall i :: 0 <= i < |TakeSnapshot(m).sequences| ==> TakeSnapshot(m).sequences[i].owner != Claimant
  {
  }

  lemma LengthsFit(h: Hashes, m: Mailbox)
    requires Valid(h, m)
    ensures forall i :: 0 <= i < |TakeSnapshot(m).sequences| ==> TakeSnapshot(m).sequences[i].bodyLen <= U64_MAX
  {
    forall i | 0 <= i < |TakeSnapshot(m).sequences| ensures TakeSnapshot(m).sequences[i].bodyLen <= U64_MAX {
      var n := |m.Frames(Allocator)|;
      if i < n { assert FrameOk(h, m.Frames(Allocator)[i], i); }
          else { assert FrameOk(h, m.Frames(Claimant)[i - n], i - n); }
    }
  }

  /** Every mailbox the relay can retain comes back from its record unchanged. */
  lemma StoredMailboxReturns(h: Hashes, m: Mailbox)
    requires Valid(h, m)
    ensures Decode(h, Encode(TakeSnapshot(m))) == Ok(m)
  {
    hide Valid, FromSnapshot, DecodeRecord, TakeSnapshot, Encode;
    LengthsFit(h, m);
    RecordRoundTrip(TakeSnapshot(m));
    SnapshotRoundTrip(h, m);
  }

  // ---------------------------------------------------------------- what decoding guarantees

  lemma RestoredMemberOk(h: Hashes, sequences: seq<SequenceSnapshot>, owner: Membership, hash: Bytes32)
    requires RestoreMember(h, sequences, owner, hash).Ok?
    ensures MemberOk(h, RestoreMember(h, sequences, owner, hash).value)
            && RestoreMember(h, sequences, owner, hash).value.hash == hash
  {
    hide SortBySequence, OwnedBy;
    var member := RestoreMember(h, sequences, owner, hash).value;
    forall i | 0 <= i < |member.frames| ensures FrameOk(h, member.frames[i], i) {
      assert GoodFrame(h, SortBySequence(OwnedBy(sequences, owner))[i], i);
    }
  }

  /** Whatever record is read, the mailbox it yields satisfies the relay's invariant
      exactly when its two members differ and, if it ended, it holds no body. The
      decoder itself checks neither. */
  lemma DecodedIsValid(h: Hashes, s: Snapshot)
    requires FromSnapshot(h, s).Ok?
    ensures var m := FromSnapshot(h, s).value;
            Valid(h, m) <==>
              && (m.claimant.Some? ==> m.claimant.value.hash != m.allocator.hash)
              && (m.status.Terminal? ==> NoBodies(m.Frames(Allocator)) && NoBodies(m.Frames(Claimant)))
  {
    hide RestoreMember, HeldBytes, MemberOk, NoBodies;
    RestoredMemberOk(h, s.sequences, Allocator, s.hashes[0]);
    EmptyHoldsNothing();
    if |s.hashes| == 2 { RestoredMemberOk(h, s.sequences, Claimant, s.hashes[1]); }
    var m := FromSnapshot(h, s).value;
    if NoBodies(m.Frames(Allocator)) { NoBodiesHoldNothing(m.Frames(Allocator)); }
    if NoBodies(m.Frames(Claimant)) { NoBodiesHoldNothing(m.Frames(Claimant)); }
  }

  /** Such a record: a paired mailbox whose two members share a hash decodes. */
  lemma SharedHashDecodes(h: Hashes, id: Bytes32, expiresAt: u64, hash: Bytes32)
    ensures var s := Snapshot(id, None, expiresAt, Paired, V1, [hash, hash], []);
            Decode(h, Encode(s)).Ok? && !Valid(h, Decode(h, Encode(s)).value)
  {
    var s := Snapshot(id, None, expiresAt, Paired, V1, [hash, hash], []);
    hide DecodeRecord, Encode;
    RecordRoundTrip(s);
    assert OwnedBy([], Allocator) == [] && OwnedBy([], Claimant) == [] && SortBySequence([]) == [];
    var m := FromSnapshot(h, s).value;
    assert m.claimant.value.hash == m.allocator.hash;
  }

  // ---------------------------------------------------------------- the in-memory store

  /** `MemoryMailboxStore`: records by mailbox identifier. */
  class MemoryMailboxStore {
    var records: map<Bytes32, Value>

    /** What a load would give back. */
    ghost predicate Holds(h: Hashes, ms: map<Bytes32, Mailbox>)
      reads this
    {
      records.Keys == ms.Keys && forall id | id in ms :: Decode(h, records[id]) == Ok(ms[id])
    }

    constructor ()
      ensures forall h :: Holds(h, map[])
    {
      records := map[];
    }

    method Put(h: Hashes, m: Mailbox, ghost ms: map<Bytes32, Mailbox>)
      requires Holds(h, ms) && Valid(h, m)
      modifies this
      ensures Holds(h, ms[m.id := m])
    {
      StoredMailboxReturns(h, m);
      hide Decode, Encode, Valid;
      records := records[m.id := Encode(TakeSnapshot(m))];
    }

    method Remove(h: Hashes, id: Bytes32, ghost ms: map<Bytes32, Mailbox>)
      requires Holds(h, ms)
      modifies this
      ensures Holds(h, ms - {id})
    {
      hide Decode;
      records := records - {id};
    }

    /** Decodes the records in the order given, and fails at the first that is malformed. */
    method Load(h: Hashes, ids: seq<Bytes32>) returns (r: Decoded<seq<Mailbox>>)
      requires forall i :: 0 <= i < |ids| ==> ids[i] in records
      ensures match r
              case Ok(loaded) => |loaded| == |ids| && forall i :: 0 <= i < |ids| ==>
                  Decode(h, records[ids[i]]) == Ok(loaded[i])
              case Err(_) => exists i :: 0 <= i < |ids| && Decode(h, records[ids[i]]).Err?
    {
      hide Decode;
      var loaded: seq<Mailbox> := [];
      for i := 0 to |ids|
        invariant |loaded| == i && forall k :: 0 <= k < i ==> Decode(h, records[ids[k]]) == Ok(loaded[k])
      {
        var m := Decode(h, records[ids[i]]);
        if m.Err? { return Err(m.error); }
        loaded := loaded + [m.value];
      }
      return Ok(loaded);
    }
  }
}

/** Restarting the relay from what it wrote. */
module Restarts {
  import opened Base
  import opened Storages
  import M = Mailbox
  import Relays
  import RelayInvariant
  import RelayServices

  function WriteAll(ms: seq<M.Mailbox>): (r: seq<Value>)
    ensures |r| == |ms|
  {
    seq(|ms|, i requires 0 <= i < |ms| => Encode(TakeSnapshot(ms[i])))
  }

  function ReadAll(h: M.Hashes, records: seq<Value>): Decoded<seq<M.Mailbox>> {
    if records == [] then Ok([])
    else
      var front :- ReadAll(h, records[..|records| - 1]);
      var last :- Decode(h, records[|records| - 1]);
      Ok(front + [last])
  }

  lemma {:induction false} ReadsBack(h: M.Hashes, ms: seq<M.Mailbox>)
    requires forall i :: 0 <= i < |ms| ==> M.Valid(h, ms[i])
    ensures ReadAll(h, WriteAll(ms)) == Ok(ms)
  {
    hide Decode, Encode, M.Valid;
    if ms != [] {
      var n := |ms| - 1;
      assert WriteAll(ms)[..n] == WriteAll(ms[..n]);
      ReadsBack(h, ms[..n]);
      StoredMailboxReturns(h, ms[n]);
      assert ms == ms[..n] + [ms[n]];
    }
  }

  lemma {:induction false} ListedAreValid(h: M.Hashes, ms: RelayInvariant.Mailboxes, listed: seq<M.Mailbox>)
    requires RelayInvariant.MailboxesOk(h, ms) && RelayServices.Lists(listed, ms)
    ensures forall i :: 0 <= i < |listed| ==> M.Valid(h, listed[i])
    decreases |listed|
  {
    hide M.Valid;
    if listed != [] {
      var last := listed[|listed| - 1];
      ListedAreValid(h, ms - {last.id}, listed[..|listed| - 1]);
    }
  }

  lemma {:induction false} ReadFrom(h: M.Hashes, records: seq<Value>, i: nat)
    requires ReadAll(h, records).Ok? && i < |records|
    ensures |ReadAll(h, records).value| == |records| && Decode(h, records[i]) == Ok(ReadAll(h, records).value[i])
  {
    hide Decode;
    var n := |records| - 1;
    if n > 0 { ReadFrom(h, records[..n], if i < n then i else 0); }
  }

  /** An ended mailbox that still holds a body: the one thing no check on the way refuses. */
  predicate EndedHoldsBody(m: M.Mailbox) {
    m.status.Terminal? && exists who, i :: 0 <= i < |m.Frames(who)| && m.Frames(who)[i].body.Some?
  }

  lemma BodiesHeld(m: M.Mailbox)
    ensures EndedHoldsBody(m) <==>
              m.status.Terminal? && !(M.NoBodies(m.Frames(M.Allocator)) && M.NoBodies(m.Frames(M.Claimant)))
  {
    if EndedHoldsBody(m) {
      var who, i :| 0 <= i < |m.Frames(who)| && m.Frames(who)[i].body.Some?;
      assert who == M.Allocator || who == M.Claimant;
    }
  }

  lemma DecodedValidity(h: M.Hashes, record: Value)
    requires Decode(h, record).Ok? && !RelayServices.SharesHash(Decode(h, record).value)
    ensures M.Valid(h, Decode(h, record).value) <==> !EndedHoldsBody(Decode(h, record).value)
  {
    hide FromSnapshot, M.Valid, EndedHoldsBody, M.NoBodies;
    DecodedIsValid(h, DecodeRecord(record).value);
    BodiesHeld(Decode(h, record).value);
  }

  /** Whatever records a store holds, a service rebuilt from them is consistent exactly when
      no ended mailbox among them holds a body. */
  lemma RebuiltFromRecords(h: M.Hashes, caps: Relays.Caps, records: seq<Value>)
    requires ReadAll(h, records).Ok? && RelayServices.Rebuild(caps, ReadAll(h, records).value).Ok?
    ensures var loaded := ReadAll(h, records).value;
            var t := RelayServices.Rebuild(caps, loaded).value;
            && RelayServices.Lists(loaded, t.mailboxes)
            && (RelayInvariant.Consistent(h, caps, t) <==> forall i :: 0 <= i < |loaded| ==> !EndedHoldsBody(loaded[i]))
  {
    hide RelayServices.Lists, RelayServices.Rebuild, Decode, M.Valid, RelayInvariant.Consistent, EndedHoldsBody,
         RelayServices.SharesHash, ReadAll;
    var loaded := ReadAll(h, records).value;
    RelayServices.RebuiltIsConsistent(h, caps, loaded);
    SameLength(h, records);
    forall i | 0 <= i < |loaded| ensures M.Valid(h, loaded[i]) <==> !EndedHoldsBody(loaded[i]) {
      ReadFrom(h, records, i);
      DecodedValidity(h, records[i]);
    }
  }

  lemma SameLength(h: M.Hashes, records: seq<Value>)
    requires ReadAll(h, records).Ok?
    ensures |ReadAll(h, records).value| == |records|
  {
    hide Decode;
    if records != [] { ReadFrom(h, records, 0); }
  }

  /** Such records exist: an ended mailbox with a body decodes, rebuilds, and is not one the
      relay can retain. */
  lemma EndedBodyRebuilds(h: M.Hashes, caps: Relays.Caps, id: Bytes32, hash: Bytes32, body: Bytes, expiresAt: u64)
    requires 1 <= |body| <= M.MAX_FRAME_BODY_BYTES && caps.openMailboxes >= 1 && caps.queueBytes >= |body|
    ensures var s := Snapshot(id, None, expiresAt, M.Terminal(M.Closed), M.V1, [hash],
            [SequenceSnapshot(M.Allocator, 0, h.body(body), |body|, Some(body))]);
            var record := Encode(s);
            && Decode(h, record).Ok? && EndedHoldsBody(Decode(h, record).value)
            && RelayServices.Rebuild(caps, [Decode(h, record).value]).Ok?
  {
    var frame := M.FrameRecord(0, h.body(body), |body|, Some(body));
    var s := Snapshot(id, None, expiresAt, M.Terminal(M.Closed), M.V1, [hash],
        [SequenceSnapshot(M.Allocator, 0, h.body(body), |body|, Some(body))]);
    hide DecodeRecord, Encode;
    RecordRoundTrip(s);
    OneFrameRestores(h, s, hash, frame);
    var m := M.Mailbox(id, None, expiresAt, M.Terminal(M.Closed), M.V1, M.Member(hash, 1, [frame]), None, |body|);
    assert FromSnapshot(h, s) == Ok(m);
    hide FromSnapshot;
    hide RelayServices.Rebuild;
    assert m.Frames(M.Allocator)[0].body.Some?;
    RelayServices.LoneMailboxLoads(caps, m);
  }

  lemma OneFrameRestores(h: M.Hashes, s: Snapshot, hash: Bytes32, frame: M.FrameRecord)
    requires frame.seqNo == 0 && frame.body.Some? && |frame.body.value| == frame.bodyLen
             && h.body(frame.body.value) == frame.digest
    requires 1 <= frame.bodyLen <= M.MAX_FRAME_BODY_BYTES
    requires s.sequences == [SequenceSnapshot(M.Allocator, 0, frame.digest, frame.bodyLen, frame.body)]
    ensures RestoreMember(h, s.sequences, M.Allocator, hash) == Ok(M.Member(hash, 1, [frame]))
            && M.HeldBytes([frame]) == frame.bodyLen
  {
    var one := s.sequences;
    assert one[..0] == [] && [frame][..0] == [];
    assert OwnedBy(one, M.Allocator) == one by { assert OwnedBy([], M.Allocator) == []; }
    assert SortBySequence(one) == one by { assert SortBySequence([]) == []; }
    assert GoodFrame(h, one[0], 0);
    assert RecordsOf(one) == [frame];
    assert M.HeldBytes([]) == 0;
  }

  /** After every run of the service, the records it has written decode, and the service
      rebuilt from them has the live mailboxes, indexes and queue total. */
  lemma RestartAfterEveryRun(h: M.Hashes, caps: Relays.Caps, calls: seq<RelayInvariant.Call>, listed: seq<M.Mailbox>)
    requires RelayServices.Lists(listed, RelayInvariant.Execute(h, caps, Relays.EmptyTables(), calls).store)
    ensures ReadAll(h, WriteAll(listed)) == Ok(listed)
    ensures RelayServices.Rebuild(caps, listed)
         == Ok(RelayInvariant.Execute(h, caps, Relays.EmptyTables(), calls).(connections := map[], routes := map[],
             enabled := true))
  {
    hide RelayServices.Lists, RelayServices.Rebuild, RelayInvariant.Execute, RelayInvariant.MailboxesOk;
    var t := RelayInvariant.Execute(h, caps, Relays.EmptyTables(), calls);
    RelayInvariant.IndexesAgreeAfterEveryRun(h, caps, calls);
    ListedAreValid(h, t.mailboxes, listed);
    ReadsBack(h, listed);
    RelayServices.RestartEquivalence(h, caps, t, listed);
  }
}
