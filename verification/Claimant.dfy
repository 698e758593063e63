/** The claimant from the established channel on (src/credential_v2/claimant.rs): what
    it sends before final approval lives in memory only; FinalApprove and Payload wait
    behind a durable checkpoint, and the Receipt is taken in two steps. */
module Claimants {
  import opened Base
  import opened V2
  import opened Projections
  import opened Channels
  import opened Endpoints
  import opened EndpointCodec
  import opened Checkpoints
  import opened Wires

  datatype Effect =
    | Send(message: ClientMessage)
    | Save(generation: u64, checkpoint: Checkpoint)
    | ShowIntent(offer: Object)
    | ReceivedObject(o: Object)
    | SessionTerminal

  /** A live session; a terminated one has given everything up. */
  datatype Claim = Claim(core: Restored, gate: Option<u64>, after: seq<Effect>, receiptPending: bool)

  type Reply = (Option<Claim>, Outcome<seq<Effect>>)

  /** An authenticated Receipt the wallet holds while it installs the grant. */
  datatype Recovered = Recovered(o: Object, authority: ReceiptAuthority, peerSeq: Option<u8>)

  predicate DurablePhase(c: Claim) { c.core.endpoint.phase.FinalApproved? || c.core.endpoint.phase.PayloadSent? }

  predicate EarlyKind(kind: Kind) {
    kind.AccountSelect? || kind.IntentApprove? || kind.IntentDecline? || kind.Preparation? || kind.Refusal?
        || kind.FinalDecline?
  }

  function RelayPut(w: World, sequence: u8, frame: Frame): Outcome<Effect> {
    var sent :- PutMessage(w, sequence, frame);
    Ok(Send(sent))
  }

  function Outgoing(w: World, c: Claim, o: Object): (Restored, Outcome<Effect>) {
    var out := PrepareOutbound(w, c.core.endpoint, c.core.channel, c.core.relay, o);
    var core := Restored(out.endpoint, out.channel, out.relay);
    if out.result.Err? then (core, Err(out.result.error))
    else
      var sequence := out.relay.CachedApplicationSequence();
      if sequence.Err? then (core, Err(sequence.error)) else (core, RelayPut(w, sequence.value, out.result.value))
  }

  /** What the consumer's offer verifier does with the allocator's first Offer: refuse it,
      or hand the endpoint the authority it authenticated and its own verdict. */
  datatype OfferVerdict =
    | TurnsDown(fault: Fault)
    | Presents(ceremony: Bytes32, application: Bytes, refusal: Option<Fault>)

  function Heard(w: World, e: Endpoint, o: Object, verdict: OfferVerdict): (Endpoint, Outcome<Advance>) {
    if !PreOffer(e.phase) then Apply(w, e, o, V2.Allocator)
    else if !o.kind.Offer? then (e, Err(PhaseFault))
    else match verdict
      case TurnsDown(fault) => (e, Err(fault))
      case Presents(ceremony, application, refusal) => ReceiveOffer(e, o, (ceremony, application), refusal)
  }

  /** `peer_application_frame`: open one peer object and acknowledge it at once. */
  function PeerApplication(w: World, core: Restored, peerSeq: u8, body: Bytes, verdict: OfferVerdict)
    : Outcome<(Restored, seq<Effect>)>
  {
    var frame :- w.decodeFrame(body);
    var relay :- core.relay.AcceptPeer(peerSeq);
    var (channel, plaintext) := core.channel.Open(w, frame);
    if plaintext.Err? then Err(plaintext.error)
    else
      var o :- w.decodeObject(plaintext.value);
      var (endpoint, advance) := Heard(w, core.endpoint, o, verdict);
      if advance.Err? then Err(advance.error)
      else
        var ack :- RelayMessage(Ack(peerSeq));
        Ok((Restored(endpoint, channel, relay),
            [Send(ack)] + match advance.value
                          case DisplayIntent => [ShowIntent(o)]
                          case Advanced => [ReceivedObject(o)]
                          case ExactRetransmission => []))
  }

  function LocalAcknowledged(core: Restored, sequence: u8): Outcome<Restored> {
    if core.relay.AlreadyAcknowledged(sequence) then Ok(core)
    else
      var relay :- core.relay.AcknowledgeApplication(sequence);
      Ok(core.(relay := relay))
  }

  /** `receive`: relay traffic while nothing is durable yet; any refusal ends the session. */
  function Receive(w: World, c: Claim, m: ServerMessage, now: u64, verdict: OfferVerdict): Reply {
    if c.gate.Some? || DurablePhase(c) then (Some(c), Err(PhaseFault))
    else if now >= c.core.endpoint.carrier.expiresAt then (None, Err(ExpiredFault))
    else match m
      case PeerFrame(peerSeq, body) =>
        (match PeerApplication(w, c.core, peerSeq, body, verdict)
         case Err(fault) => (None, Err(fault))
         case Ok((core, effects)) => (Some(c.(core := core)), Ok(effects)))
      case Acknowledged(sequence) =>
        (match LocalAcknowledged(c.core, sequence)
         case Err(fault) => (None, Err(fault))
         case Ok(core) => (Some(c.(core := core)), Ok([])))
      case Pong => (Some(c), Ok([]))
      case Closed => (None, Ok([SessionTerminal]))
      case Failed => (None, Ok([SessionTerminal]))
      case Malformed => (None, Err(SchemaFault))
      case _ => (None, Err(PhaseFault))
  }

  /** `prepare_application_object`: pre-final objects, released at once. */
  function PrepareEarly(w: World, c: Claim, o: Object): Reply {
    if c.gate.Some? || !EarlyKind(o.kind) then (Some(c), Err(PhaseFault))
    else
      var (core, put) := Outgoing(w, c, o);
      (Some(c.(core := core)), if put.Ok? then Ok([put.value]) else Err(put.error))
  }

  /** `checkpoint_current`: seal what is current, hold the effects back. */
  function Checkpointed(w: World, c: Claim, key: Bytes32, nonce: Bytes12, now: u64, expiry: Option<u64>,
      after: seq<Effect>)
    : Outcome<(Claim, seq<Effect>)>
  {
    if c.gate.Some? || c.after != [] then Err(PhaseFault)
    else
      var e := c.core.endpoint;
      var generation := SaturatingSucc(e.generation);
      var checkpoint :- SealEndpoint(w, c.core, key, generation, expiry, nonce, now);
      Ok((c.(core := c.core.(endpoint := e.(generation := generation, nonce := Some(nonce))),
          gate := Some(generation), after := after),
          [Save(generation, checkpoint)]))
  }

  /** Advance, seal and cache one object, then checkpoint; a failure ends the session. */
  function Barrier(w: World, c: Claim, o: Object, key: Bytes32, nonce: Bytes12, now: u64, expiry: Option<u64>): Reply {
    var (core, put) := Outgoing(w, c, o);
    if put.Err? then (None, Err(put.error))
    else match Checkpointed(w, c.(core := core), key, nonce, now, expiry, [put.value])
      case Err(fault) => (None, Err(fault))
      case Ok((next, effects)) => (Some(next), Ok(effects))
  }

  function PrepareFinalApproval(w: World, c: Claim, o: Object, key: Bytes32, nonce: Bytes12, now: u64): Reply {
    if c.gate.Some? || c.after != [] || !o.kind.FinalApprove? then (Some(c), Err(PhaseFault))
    else Barrier(w, c, o, key, nonce, now, Some(c.core.endpoint.carrier.expiresAt))
  }

  function PreparePayload(w: World, c: Claim, o: Object, key: Bytes32, nonce: Bytes12, now: u64): Reply {
    if c.gate.Some? || c.after != [] || !c.core.endpoint.phase.FinalApproved? || !o.kind.Payload?
        then (Some(c), Err(PhaseFault))
    else if now >= c.core.endpoint.carrier.expiresAt then (Some(c), Err(ExpiredFault))
    else Barrier(w, c, o, key, nonce, now, None)
  }

  function CheckpointPersisted(c: Claim, generation: u64): Reply {
    if c.gate != Some(generation) then (Some(c), Err(CounterFault))
        else (Some(c.(gate := None, after := [])), Ok(c.after))
  }

  /** `resume_cached_frame` */
  function Resume(w: World, c: Claim): Outcome<seq<Effect>> {
    if c.gate.Some? || !DurablePhase(c) then Err(PhaseFault)
    else if c.core.relay.cached.None? then Ok([])
    else
      var sequence :- c.core.relay.CachedApplicationSequence();
      var put :- RelayPut(w, sequence, c.core.relay.cached.value);
      Ok([put])
  }

  /** `receive_durable`: only acknowledgements, each checkpointed before anything else. */
  function ReceiveDurable(w: World, c: Claim, m: ServerMessage, now: u64, key: Bytes32, nonce: Bytes12): Reply {
    var expiresAt := c.core.endpoint.carrier.expiresAt;
    if c.gate.Some? || !DurablePhase(c) then (Some(c), Err(PhaseFault))
    else if c.core.endpoint.phase.FinalApproved? && now >= expiresAt then (Some(c), Err(ExpiredFault))
    else if m.Malformed? then (Some(c), Err(SchemaFault))
    else if !m.Acknowledged? then (Some(c), Err(PhaseFault))
    else if c.core.relay.AlreadyAcknowledged(m.seqNo) then (Some(c), Ok([]))
    else match c.core.relay.AcknowledgeApplication(m.seqNo)
      case Err(fault) => (Some(c), Err(fault))
      case Ok(relay) =>
        var settled := c.(core := c.core.(relay := relay));
        match Checkpointed(w, settled, key, nonce, now, if c.core.endpoint.phase.FinalApproved? then Some(expiresAt)
            else None, [])
        case Err(fault) => (Some(settled), Err(fault))
        case Ok((next, effects)) => (Some(next), Ok(effects))
  }

  /** `receive_recovered_receipt`: open and authenticate, release nothing. */
  function ReceiveReceipt(w: World, c: Claim, m: ServerMessage): (Option<Claim>, Outcome<Recovered>) {
    if c.gate.Some? || !c.core.endpoint.phase.PayloadSent? || c.receiptPending || c.core.relay.cached.Some?
        then (Some(c), Err(PhaseFault))
    else if m.Malformed? then (None, Err(SchemaFault))
    else if !m.PeerFrame? then (None, Err(PhaseFault))
    else match OpenReceipt(w, c, m.peerSeq, m.body)
      case Err(fault) => (None, Err(fault))
      case Ok((core, o, authority)) =>
        (Some(c.(core := core, receiptPending := true)), Ok(Recovered(o, authority, Some(m.peerSeq))))
  }

  function OpenReceipt(w: World, c: Claim, peerSeq: u8, body: Bytes): Outcome<(Restored, Object, ReceiptAuthority)> {
    var frame :- w.decodeFrame(body);
    var relay :- c.core.relay.AcceptPeer(peerSeq);
    var (channel, plaintext) := c.core.channel.Open(w, frame);
    if plaintext.Err? then Err(plaintext.error)
    else
      var o :- w.decodeObject(plaintext.value);
      var (endpoint, authority) := AuthenticateReceipt(w, c.core.endpoint, o);
      if authority.Err? then Err(authority.error) else Ok((Restored(endpoint, channel, relay), o, authority.value))
  }

  /** `authenticate_recovered_receipt_object`: the same without a relay frame. */
  function AuthenticateObject(w: World, c: Claim, o: Object): (Option<Claim>, Outcome<Recovered>) {
    if c.gate.Some? || !c.core.endpoint.phase.PayloadSent? || c.receiptPending then (Some(c), Err(PhaseFault))
    else
      var (endpoint, authority) := AuthenticateReceipt(w, c.core.endpoint, o);
      var next := c.(core := c.core.(endpoint := endpoint));
      if authority.Err? then (Some(next), Err(authority.error))
      else (Some(next.(receiptPending := true)), Ok(Recovered(o, authority.value, None)))
  }

  /** `commit_recovered_receipt`: the only acknowledgement of a Receipt. */
  function CommitReceipt(w: World, c: Claim, r: Recovered): Reply {
    if !c.receiptPending || c.gate.Some? || !c.core.endpoint.phase.PayloadSent?
        || (r.peerSeq.Some? && c.core.relay.cached.Some?)
    then (Some(c), Err(PhaseFault))
    else if r.peerSeq.Some? && RelayMessage(Ack(r.peerSeq.value)).Err? then (Some(c), Err(SchemaFault))
    else
      var (endpoint, advance) := RecoverReceipt(w, c.core.endpoint, r.o, r.authority);
      if advance.Err? then (Some(c.(core := c.core.(endpoint := endpoint))), Err(advance.error))
      else (None, Ok(if r.peerSeq.Some? then [Send(Ack(r.peerSeq.value))] else []))
  }

  /** `restore`: only a claimant past its final approval. */
  function Restore(w: World, checkpoint: Checkpoint, key: Bytes32, carrier: Carrier, generation: u64,
      now: u64): Outcome<Claim> {
    var core :- RestoreEndpoint(w, checkpoint, key, V2.Claimant, carrier, generation, now);
    if !core.endpoint.phase.FinalApproved? && !core.endpoint.phase.PayloadSent? then Err(PhaseFault)
    else Ok(Claim(core, None, [], false))
  }
}
