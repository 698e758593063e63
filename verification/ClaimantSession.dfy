/** The claimant session as the program keeps it, past the established channel: one
    object whose endpoint, channel, membership, gate and held-back effects are replaced
    call by call, and given up when it ends. */
module ClaimantSessions {
  import opened Base
  import opened V2
  import opened Projections
  import opened Channels
  import opened Endpoints
  import opened EndpointCodec
  import opened Checkpoints
  import opened Claimants
  import opened Wires

  class ClaimantSession {
    var established: bool
    var endpoint: Endpoint
    var channel: Channel
    var relay: Projection
    var gate: Option<u64>
    var after: seq<Effect>
    var receiptPending: bool

    /** Nothing once the session has ended. */
    function View(): Option<Claim>
      reads this
    {
      if established then Some(Claim(Restored(endpoint, channel, relay), gate, after, receiptPending)) else None
    }

    constructor (c: Claim)
      ensures View() == Some(c)
    {
      established, endpoint, channel, relay := true, c.core.endpoint, c.core.channel, c.core.relay;
      gate, after, receiptPending := c.gate, c.after, c.receiptPending;
    }

    method Terminate()
      modifies this
      ensures View() == None && gate.None? && after == [] && !receiptPending
    {
      established, gate, after, receiptPending := false, None, [], false;
    }

    /** `prepare_outbound` on the session's parts, and the Put that carries the frame. */
    method PrepareFrame(w: World, o: Object) returns (put: Outcome<Effect>)
      requires established
      modifies this`endpoint, this`channel, this`relay
      ensures (Restored(endpoint, channel, relay), put) == Outgoing(w, old(View()).value, o)
    {
      hide PrepareOutbound;
      var out := PrepareOutbound(w, endpoint, channel, relay, o);
      endpoint, channel, relay := out.endpoint, out.channel, out.relay;
      if out.result.Err? { return Err(out.result.error); }
      var sequence := relay.CachedApplicationSequence();
      if sequence.Err? { return Err(sequence.error); }
      return RelayPut(w, sequence.value, out.result.value);
    }

    /** Open one peer object, let the endpoint or the offer verifier judge it. */
    method PeerFrameArrived(w: World, peerSeq: u8, body: Bytes, verdict: OfferVerdict) returns (r: Outcome<seq<Effect>>)
      requires established
      modifies this`endpoint, this`channel, this`relay
      ensures match PeerApplication(w, old(Restored(endpoint, channel, relay)), peerSeq, body, verdict)
              case Ok((core, effects)) => r == Ok(effects) && Restored(endpoint, channel, relay) == core
              case Err(fault) => r == Err(fault)
    {
      hide Apply, ReceiveOffer;
      var frame :- w.decodeFrame(body);
      relay :- relay.AcceptPeer(peerSeq);
      var (next, plaintext) := channel.Open(w, frame);
      channel := next;
      if plaintext.Err? { return Err(plaintext.error); }
      var o :- w.decodeObject(plaintext.value);
      var (heard, advance) := Heard(w, endpoint, o, verdict);
      endpoint := heard;
      if advance.Err? { return Err(advance.error); }
      var ack :- RelayMessage(Ack(peerSeq));
      var effects := [Send(ack)];
      match advance.value {
        case DisplayIntent => effects := effects + [ShowIntent(o)];
        case Advanced => effects := effects + [ReceivedObject(o)];
        case ExactRetransmission => assert effects + [] == effects;
      }
      return Ok(effects);
    }

    method ReceiveRelay(w: World, m: ServerMessage, now: u64, verdict: OfferVerdict) returns (r: Outcome<seq<Effect>>)
      requires established
      modifies this
      ensures (View(), r) == Receive(w, old(View()).value, m, now, verdict)
    {
      hide PeerApplication;
      if gate.Some? || endpoint.phase.FinalApproved? || endpoint.phase.PayloadSent? { return Err(PhaseFault); }
      if now >= endpoint.carrier.expiresAt {
        Terminate();
        return Err(ExpiredFault);
      }
      match m {
        case PeerFrame(peerSeq, body) => r := PeerFrameArrived(w, peerSeq, body, verdict);
        case Acknowledged(sequence) =>
          if relay.AlreadyAcknowledged(sequence) { return Ok([]); }
          var settled := relay.AcknowledgeApplication(sequence);
          if settled.Ok? { relay := settled.value; }
          r := if settled.Ok? then Ok([]) else Err(settled.error);
        case Pong => return Ok([]);
        case Closed => Terminate(); return Ok([SessionTerminal]);
        case Failed => Terminate(); return Ok([SessionTerminal]);
        case Malformed => r := Err(SchemaFault);
        case _ => r := Err(PhaseFault);
      }
      if r.Err? { Terminate(); }
    }

    method PrepareEarlyObject(w: World, o: Object) returns (r: Outcome<seq<Effect>>)
      requires established
      modifies this
      ensures (View(), r) == PrepareEarly(w, old(View()).value, o)
    {
      hide Outgoing;
      if gate.Some? || !EarlyKind(o.kind) { return Err(PhaseFault); }
      var put := PrepareFrame(w, o);
      return if put.Ok? then Ok([put.value]) else Err(put.error);
    }

    method CheckpointCurrent(w: World, key: Bytes32, nonce: Bytes12, now: u64, expiry: Option<u64>,
        effects: seq<Effect>)
      returns (r: Outcome<seq<Effect>>)
      requires established
      modifies this
      ensures match Checkpointed(w, old(View()).value, key, nonce, now, expiry, effects)
              case Ok((next, saved)) => r == Ok(saved) && View() == Some(next)
              case Err(fault) => r == Err(fault) && View() == old(View())
    {
      hide SealEndpoint;
      if gate.Some? || after != [] { return Err(PhaseFault); }
      var generation := SaturatingSucc(endpoint.generation);
      var checkpoint :- SealEndpoint(w, Restored(endpoint, channel, relay), key, generation, expiry, nonce, now);
      endpoint := endpoint.(generation := generation, nonce := Some(nonce));
      gate, after := Some(generation), effects;
      return Ok([Save(generation, checkpoint)]);
    }

    method PassBarrier(w: World, o: Object, key: Bytes32, nonce: Bytes12, now: u64,
        expiry: Option<u64>) returns (r: Outcome<seq<Effect>>)
      requires established
      modifies this
      ensures (View(), r) == Barrier(w, old(View()).value, o, key, nonce, now, expiry)
    {
      hide Outgoing, Checkpointed;
      var put := PrepareFrame(w, o);
      if put.Err? {
        Terminate();
        return Err(put.error);
      }
      r := CheckpointCurrent(w, key, nonce, now, expiry, [put.value]);
      if r.Err? { Terminate(); }
    }

    method PrepareFinal(w: World, o: Object, key: Bytes32, nonce: Bytes12, now: u64) returns (r: Outcome<seq<Effect>>)
      requires established
      modifies this
      ensures (View(), r) == PrepareFinalApproval(w, old(View()).value, o, key, nonce, now)
    {
      hide Barrier;
      if gate.Some? || after != [] || !o.kind.FinalApprove? { return Err(PhaseFault); }
      r := PassBarrier(w, o, key, nonce, now, Some(endpoint.carrier.expiresAt));
    }

    method PreparePayloadObject(w: World, o: Object, key: Bytes32, nonce: Bytes12,
        now: u64) returns (r: Outcome<seq<Effect>>)
      requires established
      modifies this
      ensures (View(), r) == PreparePayload(w, old(View()).value, o, key, nonce, now)
    {
      hide Barrier;
      if gate.Some? || after != [] || !endpoint.phase.FinalApproved? || !o.kind.Payload? { return Err(PhaseFault); }
      if now >= endpoint.carrier.expiresAt { return Err(ExpiredFault); }
      r := PassBarrier(w, o, key, nonce, now, None);
    }

    method Persisted(generation: u64) returns (r: Outcome<seq<Effect>>)
      requires established
      modifies this`gate, this`after
      ensures (View(), r) == CheckpointPersisted(old(View()).value, generation)
    {
      if gate != Some(generation) { return Err(CounterFault); }
      gate := None;
      var released := after;
      after := [];
      return Ok(released);
    }

    method ReceiveAcknowledgement(w: World, m: ServerMessage, now: u64, key: Bytes32,
        nonce: Bytes12) returns (r: Outcome<seq<Effect>>)
      requires established
      modifies this
      ensures (View(), r) == ReceiveDurable(w, old(View()).value, m, now, key, nonce)
    {
      hide Checkpointed;
      if gate.Some? || !(endpoint.phase.FinalApproved? || endpoint.phase.PayloadSent?) { return Err(PhaseFault); }
      if endpoint.phase.FinalApproved? && now >= endpoint.carrier.expiresAt { return Err(ExpiredFault); }
      if m.Malformed? { return Err(SchemaFault); }
      if !m.Acknowledged? { return Err(PhaseFault); }
      if relay.AlreadyAcknowledged(m.seqNo) { return Ok([]); }
      relay :- relay.AcknowledgeApplication(m.seqNo);
      r := CheckpointCurrent(w, key, nonce, now, if endpoint.phase.FinalApproved?
          then Some(endpoint.carrier.expiresAt) else None, []);
    }

    method ReceiveReceiptFrame(w: World, m: ServerMessage) returns (r: Outcome<Recovered>)
      requires established
      modifies this
      ensures (View(), r) == ReceiveReceipt(w, old(View()).value, m)
    {
      if gate.Some? || !endpoint.phase.PayloadSent? || receiptPending || relay.cached.Some? { return Err(PhaseFault); }
      r := OpenReceiptFrame(w, m);
      if r.Err? { Terminate(); } else { receiptPending := true; }
    }

    method OpenReceiptFrame(w: World, m: ServerMessage) returns (r: Outcome<Recovered>)
      requires established
      modifies this`endpoint, this`channel, this`relay
      ensures var received := if m.PeerFrame? then OpenReceipt(w, old(View()).value, m.peerSeq, m.body)
                             else Err(if m.Malformed? then SchemaFault else PhaseFault);
              match received
              case Ok((core, o, authority)) => r == Ok(Recovered(o, authority, Some(m.peerSeq)))
                  && Restored(endpoint, channel, relay) == core
              case Err(fault) => r == Err(fault)
    {
      hide AuthenticateReceipt;
      if !m.PeerFrame? { return Err(if m.Malformed? then SchemaFault else PhaseFault); }
      var frame :- w.decodeFrame(m.body);
      relay :- relay.AcceptPeer(m.peerSeq);
      var (next, plaintext) := channel.Open(w, frame);
      channel := next;
      if plaintext.Err? { return Err(plaintext.error); }
      var o :- w.decodeObject(plaintext.value);
      var (checked, authority) := AuthenticateReceipt(w, endpoint, o);
      endpoint := checked;
      if authority.Err? { return Err(authority.error); }
      return Ok(Recovered(o, authority.value, Some(m.peerSeq)));
    }

    method Commit(w: World, receipt: Recovered) returns (r: Outcome<seq<Effect>>)
      requires established
      modifies this
      ensures (View(), r) == CommitReceipt(w, old(View()).value, receipt)
    {
      hide RecoverReceipt;
      if !receiptPending || gate.Some? || !endpoint.phase.PayloadSent?
          || (receipt.peerSeq.Some? && relay.cached.Some?) { return Err(PhaseFault); }
      if receipt.peerSeq.Some? && RelayMessage(Ack(receipt.peerSeq.value)).Err? { return Err(SchemaFault); }
      var (next, advance) := RecoverReceipt(w, endpoint, receipt.o, receipt.authority);
      endpoint := next;
      if advance.Err? { return Err(advance.error); }
      Terminate();
      return Ok(if receipt.peerSeq.Some? then [Send(Ack(receipt.peerSeq.value))] else []);
    }
  }
}
