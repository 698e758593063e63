/** The blind relay service (src/relay.rs): retained mailboxes, five indexes over
    them, and the live connections attached to their memberships. Time, randomness,
    the limiter's decision and the store's willingness to write are inputs. */
module Relays {
  import opened Base
  import M = Mailbox

  type Conn = u64

  /** One membership of one mailbox, as a route key. */
  datatype Seat = Seat(id: Bytes32, who: M.Membership)

  datatype Connection = Connection(bound: bool, seat: Option<Seat>)

  datatype Message =
    | Welcome | Failure(code: u16) | Pong
    | AllocatedReply(id: Bytes32, token: Bytes32, nameplate: Option<u32>, expiresAt: u64)
    | ClaimedReply(id: Bytes32, token: Bytes32, expiresAt: u64)
    | AllocatedV2Reply(id: Bytes32, token: Bytes32, expiresAt: u64)
    | ClaimedV2Reply(id: Bytes32, token: Bytes32, expiresAt: u64)
    | FrameReply(peerSeq: u8, body: Bytes)
    | AcknowledgedReply(seqNo: u8)
    | ClosedReply(reason: M.CloseReason)

  datatype Routed = Routed(to: Conn, message: Message)

  datatype Locator = Direct(id: Bytes32) | Nameplate(number: u32)

  datatype Request =
    | Bind | Ping
    | Allocate(mode: u8, ttl: Option<u32>)
    | AllocateV2(id: Bytes32, commitment: Bytes32, ttlV2: Option<u16>)
    | Claim(locator: Locator)
    | ClaimV2(id: Bytes32, claimToken: Bytes16)
    | Open(id: Bytes32, token: Bytes32)
    | Put(seqNo: u8, body: Bytes)
    | Ack(peerSeq: u8)
    | Close

  datatype Random = Random(id: Bytes32, token: Bytes32, nameplate: u32)

  datatype Caps = Caps(openMailboxes: u64, queueBytes: u64)

  datatype Error = InvalidConfiguration | Storage

  datatype Tables = Tables(
    mailboxes: map<Bytes32, M.Mailbox>,
    nameplates: map<u32, Bytes32>,
    hashes: set<Bytes32>,
    expiries: set<(u64, Bytes32)>,
    queueBytes: int,
    connections: map<Conn, Connection>,
    routes: map<Seat, Conn>,
    store: map<Bytes32, M.Mailbox>,
    enabled: bool)
  {
    function SeatOf(c: Conn): Option<Seat> { if c in connections then connections[c].seat else None }

    predicate BoundTo(c: Conn) { c in connections && connections[c].bound }
  }

  function EmptyTables(): Tables { Tables(map[], map[], {}, {}, 0, map[], map[], map[], true) }

  // ---------------------------------------------------------------- connections

  function WithSeat(connections: map<Conn, Connection>, c: Conn, seat: Option<Seat>): map<Conn, Connection> {
    connections[c := (if c in connections then connections[c] else Connection(false, None)).(seat := seat)]
  }

  /** The version bind: the connection may now send requests. */
  function Greeted(t: Tables, c: Conn): Tables {
    var state := if c in t.connections then t.connections[c] else Connection(false, None);
    t.(connections := t.connections[c := state.(bound := true)])
  }

  /** The routes once connection `c` has left its seat. */
  function Vacated(t: Tables, c: Conn): map<Seat, Conn> {
    var seat := t.SeatOf(c);
    if seat.Some? && seat.value in t.routes && t.routes[seat.value] == c then t.routes - {seat.value} else t.routes
  }

  function Attach(t: Tables, c: Conn, seat: Seat): Tables {
    var routes := Vacated(t, c);
    var displaced :=
      if seat in routes && routes[seat] != c && routes[seat] in t.connections
      then WithSeat(t.connections, routes[seat], None) else t.connections;
    t.(routes := routes[seat := c], connections := WithSeat(displaced, c, Some(seat)))
  }

  function Disconnect(t: Tables, c: Conn): Tables {
    if c in t.connections then t.(routes := Vacated(t, c), connections := t.connections - {c}) else t
  }

  /** Whoever sits there loses the seat. */
  function Evict(t: Tables, seat: Seat): Tables {
    if seat !in t.routes then t
    else
      t.(routes := t.routes - {seat},
         connections := if t.routes[seat] in t.connections then WithSeat(t.connections, t.routes[seat], None)
             else t.connections)
  }

  // ---------------------------------------------------------------- mailboxes

  function HashesOf(m: M.Mailbox): set<Bytes32> {
    {m.allocator.hash} + if m.claimant.Some? then {m.claimant.value.hash} else {}
  }

  function Inserted(t: Tables, m: M.Mailbox): Tables {
    t.(store := t.store[m.id := m],
       mailboxes := t.mailboxes[m.id := m],
       hashes := t.hashes + {m.allocator.hash},
       expiries := t.expiries + {(m.expiresAt, m.id)},
       nameplates := if m.nameplate.Some? then t.nameplates[m.nameplate.value := m.id] else t.nameplates)
  }

  function Replaced(t: Tables, id: Bytes32, m: M.Mailbox): Tables {
    t.(store := t.store[m.id := m],
       queueBytes := t.queueBytes - (if id in t.mailboxes then t.mailboxes[id].queueBytes else 0) + m.queueBytes,
       hashes := t.hashes + HashesOf(m),
       mailboxes := t.mailboxes[id := m])
  }

  function Unindexed(t: Tables, id: Bytes32, m: M.Mailbox): Tables {
    t.(store := t.store - {id},
       mailboxes := t.mailboxes - {id},
       nameplates := if m.nameplate.Some? then t.nameplates - {m.nameplate.value} else t.nameplates,
       hashes := t.hashes - HashesOf(m),
       expiries := t.expiries - {(m.expiresAt, id)},
       queueBytes := t.queueBytes - m.queueBytes)
  }

  function Removed(t: Tables, id: Bytes32): Tables {
    if id in t.mailboxes
    then Evict(Evict(Unindexed(t, id, t.mailboxes[id]), Seat(id, M.Allocator)), Seat(id, M.Claimant))
    else t.(store := t.store - {id})
  }

  /** `commit`: the store first, then the tables. */
  function Commit(t: Tables, id: Bytes32, state: Option<M.Mailbox>, willing: bool): Result<Tables, Error> {
    if state.None? && id !in t.mailboxes then Ok(t)
    else if !willing then Err(Storage)
    else if state.Some? then Ok(Replaced(t, id, state.value))
    else Ok(Removed(t, id))
  }

  // ---------------------------------------------------------------- replies

  type Reply = (Tables, Result<seq<Routed>, Error>)

  function Tell(t: Tables, c: Conn, message: Message): Reply { (t, Ok([Routed(c, message)])) }

  function WireCode(e: M.Error): u16 {
    match e
    case LifetimeOutOfRange | NameplateOutOfRange => 400
    case NotMember => 404
    case AlreadyClosed(_) => 410
    case BodySize => 413
    case ExpiryOverflow | InvalidSnapshot => 503
    case FrameLimit | UnknownSequence | MembershipCollision => 409
    case SequenceGap(_, _) => 409
  }

  function Refusal(e: M.Error): Message { if e.AlreadyClosed? then ClosedReply(e.reason) else Failure(WireCode(e)) }

  function TerminalRoutes(t: Tables, id: Bytes32, reason: M.CloseReason): seq<Routed> {
    (if Seat(id, M.Allocator) in t.routes then [Routed(t.routes[Seat(id, M.Allocator)], ClosedReply(reason))] else [])
    + (if Seat(id, M.Claimant) in t.routes then [Routed(t.routes[Seat(id, M.Claimant)], ClosedReply(reason))] else [])
  }

  /** `deduplicate_routes`: each message once, at its first place. */
  function Distinct(messages: seq<Routed>): (r: seq<Routed>)
    ensures forall m :: m in r <==> m in messages
    ensures forall i, j :: 0 <= i < j < |r| ==> r[i] != r[j]
  {
    if messages == [] then []
    else
      var n := |messages| - 1;
      var front := Distinct(messages[..n]);
      assert messages == messages[..n] + [messages[n]];
      if messages[n] in front then front else front + [messages[n]]
  }

  function ClaimExpiry(effects: seq<M.Effect>): Option<u64> {
    if effects == [] then None
    else if effects[0].Claimed? then Some(effects[0].claimExpiry)
    else ClaimExpiry(effects[1..])
  }

  function EndReason(effects: seq<M.Effect>): Option<M.CloseReason> {
    if effects == [] then None
    else if effects[0].Ended? then Some(effects[0].reason)
    else EndReason(effects[1..])
  }

  function OpenedAs(effects: seq<M.Effect>): Option<M.Membership> {
    if effects == [] then None
    else if effects[0].Opened? then Some(effects[0].membership)
    else OpenedAs(effects[1..])
  }

  function Resumed(c: Conn, effects: seq<M.Effect>): seq<Routed> {
    if effects == [] then []
    else (if effects[0].Deliver? then [Routed(c, FrameReply(effects[0].peerSeq, effects[0].body))]
        else []) + Resumed(c, effects[1..])
  }

  /** Frames and closures a member's command causes, each to the seat it concerns. */
  function Outgoing(t: Tables, id: Bytes32, effects: seq<M.Effect>): seq<Routed> {
    if effects == [] then []
    else
      (match effects[0]
       case Deliver(recipient, peerSeq, body) =>
         if Seat(id, recipient) in t.routes then [Routed(t.routes[Seat(id, recipient)], FrameReply(peerSeq, body))]
             else []
       case Ended(reason) => TerminalRoutes(t, id, reason)
       case _ => [])
      + Outgoing(t, id, effects[1..])
  }

  // ---------------------------------------------------------------- requests

  function AdmitMailbox(t: Tables, c: Conn, m: M.Mailbox, reply: Message, willing: bool): Reply {
    if !willing then (t, Err(Storage)) else Tell(Attach(Inserted(t, m), c, Seat(m.id, M.Allocator)), c, reply)
  }

  function AllocateStep(h: M.Hashes, caps: Caps, t: Tables, c: Conn, now: u64, random: Random, mode: u8,
      ttl: Option<u32>, willing: bool): Reply {
    if !t.enabled then Tell(t, c, Failure(503))
    else if t.SeatOf(c).Some? then Tell(t, c, Failure(409))
    else if |t.mailboxes| >= caps.openMailboxes || random.id in t.mailboxes || h.token(random.token) in t.hashes
        then Tell(t, c, Failure(503))
    else if mode == 1 && (random.nameplate > M.MAX_NAMEPLATE || random.nameplate in t.nameplates)
        then Tell(t, c, Failure(503))
    else if mode > 1 then Tell(t, c, Failure(400))
    else
      var nameplate := if mode == 0 then None else Some(random.nameplate);
      match M.Allocate(random.id, nameplate, h.token(random.token), now, ttl)
      case Err(e) => Tell(t, c, Refusal(e))
      case Ok(m) => AdmitMailbox(t, c, m, AllocatedReply(m.id, random.token, nameplate, m.expiresAt), willing)
  }

  function AllocateV2Step(h: M.Hashes, caps: Caps, t: Tables, c: Conn, now: u64, token: Bytes32, id: Bytes32,
      commitment: Bytes32, ttl: Option<u16>, willing: bool): Reply {
    if !t.enabled then Tell(t, c, Failure(503))
    else if t.SeatOf(c).Some? then Tell(t, c, Failure(409))
    else if |t.mailboxes| >= caps.openMailboxes || id in t.mailboxes || h.token(token) in t.hashes
        then Tell(t, c, Failure(503))
    else match M.AllocateV2(id, h.token(token), commitment, now, ttl)
      case Err(e) => Tell(t, c, Refusal(e))
      case Ok(m) => AdmitMailbox(t, c, m, AllocatedV2Reply(id, token, m.expiresAt), willing)
  }

  function Resolve(t: Tables, locator: Locator): Option<Bytes32> {
    match locator
    case Direct(id) => if id in t.mailboxes then Some(id) else None
    case Nameplate(n) => if n in t.nameplates then Some(t.nameplates[n]) else None
  }

  /** Closure reaches the seats as they are after the commit, and always the actor. */
  function Closure(t: Tables, c: Conn, id: Bytes32, reason: M.CloseReason): Reply {
    (t, Ok(Distinct(TerminalRoutes(t, id, reason) + [Routed(c, ClosedReply(reason))])))
  }

  function ClaimStep(h: M.Hashes, t: Tables, c: Conn, now: u64, token: Bytes32, locator: Locator,
      willing: bool): Reply {
    if t.SeatOf(c).Some? then Tell(t, c, Failure(409))
    else if Resolve(t, locator).None? then Tell(t, c, Failure(404))
    else if h.token(token) in t.hashes then Tell(t, c, Failure(409))
    else if Resolve(t, locator).value !in t.mailboxes then Tell(t, c, Failure(404))
    else
      var id := Resolve(t, locator).value;
      match M.Transition(h, t.mailboxes[id], now, M.Claim(h.token(token)))
      case Err(e) => Tell(t, c, Refusal(e))
      case Ok(step) =>
        match Commit(t, id, step.state, willing)
        case Err(e) => (t, Err(e))
        case Ok(after) =>
          var claimed := ClaimExpiry(step.effects);
          if claimed.Some? then Tell(Attach(after, c, Seat(id, M.Claimant)), c, ClaimedReply(id, token, claimed.value))
          else if EndReason(step.effects).Some? then Closure(after, c, id, EndReason(step.effects).value)
          else Tell(after, c, Failure(503))
  }

  function ClaimV2Step(h: M.Hashes, t: Tables, c: Conn, now: u64, token: Bytes32, id: Bytes32, claimToken: Bytes16,
      willing: bool): Reply {
    if t.SeatOf(c).Some? || h.token(token) in t.hashes then Tell(t, c, Failure(409))
    else if id !in t.mailboxes then Tell(t, c, Failure(404))
    else match M.Transition(h, t.mailboxes[id], now, M.ClaimV2(h.token(token), claimToken))
      case Err(e) => Tell(t, c, Refusal(e))
      case Ok(step) =>
        match Commit(t, id, step.state, willing)
        case Err(e) => (t, Err(e))
        case Ok(after) =>
          var claimed := ClaimExpiry(step.effects);
          if claimed.None? then Tell(after, c, Failure(503))
          else Tell(Attach(after, c, Seat(id, M.Claimant)), c, ClaimedV2Reply(id, token, claimed.value))
  }

  function OpenStep(h: M.Hashes, t: Tables, c: Conn, now: u64, id: Bytes32, token: Bytes32, willing: bool): Reply {
    if id !in t.mailboxes then Tell(t, c, Failure(404))
    else match M.Transition(h, t.mailboxes[id], now, M.Open(h.token(token)))
      case Err(e) => Tell(t, c, Refusal(e))
      case Ok(step) =>
        match Commit(t, id, step.state, willing)
        case Err(e) => (t, Err(e))
        case Ok(after) =>
          var who := OpenedAs(step.effects);
          if who.Some? then (Attach(after, c, Seat(id, who.value)), Ok(Resumed(c, step.effects)))
          else if EndReason(step.effects).Some? then Closure(after, c, id, EndReason(step.effects).value)
          else Tell(after, c, Failure(503))
  }

  function MailboxCommand(who: M.Membership, request: Request): M.Command
    requires request.Put? || request.Ack? || request.Close?
  {
    match request
    case Put(seqNo, body) => M.Put(who, seqNo, body)
    case Ack(peerSeq) => M.Ack(who, peerSeq)
    case Close => M.Close(who)
  }

  function ProjectedQueue(t: Tables, id: Bytes32, state: Option<M.Mailbox>): int {
    Max(0, t.queueBytes - if id in t.mailboxes then t.mailboxes[id].queueBytes else 0)
    + if state.Some? then state.value.queueBytes else 0
  }

  /** The Put is in the mailbox, newly or already. */
  predicate StoredIn(request: Request, effects: seq<M.Effect>) {
    request.Put? && exists i :: 0 <= i < |effects| && effects[i].Stored? && effects[i].seqNo == request.seqNo
  }

  function MemberStep(h: M.Hashes, caps: Caps, t: Tables, c: Conn, now: u64, request: Request, willing: bool): Reply
    requires request.Put? || request.Ack? || request.Close?
  {
    if t.SeatOf(c).None? || t.SeatOf(c).value.id !in t.mailboxes then Tell(t, c, Failure(404))
    else
      var seat := t.SeatOf(c).value;
      match M.Transition(h, t.mailboxes[seat.id], now, MailboxCommand(seat.who, request))
      case Err(e) => Tell(t, c, Refusal(e))
      case Ok(step) =>
        if ProjectedQueue(t, seat.id, step.state) > caps.queueBytes then Tell(t, c, Failure(503))
        else
          var acknowledged := if StoredIn(request, step.effects) then [Routed(c, AcknowledgedReply(request.seqNo))]
              else [];
          var messages := acknowledged + Outgoing(t, seat.id, step.effects);
          match Commit(t, seat.id, step.state, willing)
          case Err(e) => (t, Err(e))
          case Ok(after) => (after, Ok(Distinct(messages)))
  }

  /** `handle`: one recognised request, with the limiter's decision as an input. */
  function Handle(h: M.Hashes, caps: Caps, t: Tables, c: Conn, now: u64, allowed: bool, random: Random,
      request: Request, willing: bool): Reply {
    if !allowed then Tell(t, c, Failure(429))
    else if request.Bind? then
      Tell(Greeted(t, c), c, Welcome)
    else if !t.BoundTo(c) then Tell(t, c, Failure(400))
    else if request.Ping? then Tell(t, c, Pong)
    else if request.Allocate? then AllocateStep(h, caps, t, c, now, random, request.mode, request.ttl, willing)
    else if request.AllocateV2? then
      AllocateV2Step(h, caps, t, c, now, random.token, request.id, request.commitment, request.ttlV2, willing)
    else if request.Claim? then ClaimStep(h, t, c, now, random.token, request.locator, willing)
    else if request.ClaimV2? then ClaimV2Step(h, t, c, now, random.token, request.id, request.claimToken, willing)
    else if request.Open? then OpenStep(h, t, c, now, request.id, request.token, willing)
    else MemberStep(h, caps, t, c, now, request, willing)
  }
}
