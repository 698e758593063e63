/** The credential/v2 endpoint reducer (src/credential_v2/endpoint.rs): sender-,
    predecessor- and intent-bound objects advance one consent path. */
module Endpoints {
  import opened Base
  import opened V2
  import opened Projections
  import opened Channels

  datatype Phase =
    | Begin | AccountSelected | Offered | IntentApproved | Prepared | Confirmed | FinalApproved | PayloadSent | Ended

  datatype Advance = Advanced | DisplayIntent | ExactRetransmission

  datatype Last = Last(sender: Side, bytes: Option<Bytes>, kind: Kind, intent: Bytes32, hash: Bytes32)

  datatype Endpoint = Endpoint(
    side: Side, carrier: Carrier, phase: Phase, intent: Option<Bytes32>, last: Option<Last>,
    verifier: Bytes, generation: u64, nonce: Option<Bytes12>)

  /** Authority minted by `authenticate_recovered_receipt`. */
  datatype ReceiptAuthority = ReceiptAuthority(
    application: Bytes, ceremony: Bytes32, intent: Bytes32, payloadHash: Bytes32, finalStatus: Bytes32,
    bodyDigest: Bytes32)

  function NewEndpoint(side: Side, carrier: Carrier, verifier: Bytes): Endpoint {
    Endpoint(side, carrier, Begin, None, None, verifier, 0, None)
  }

  predicate ValidSender(kind: Kind, sender: Side) {
    match kind
    case Offer | ComparisonConfirmed | BindingConfirmed | Receipt => sender.Allocator?
    case IntentApprove | IntentDecline | Preparation | FinalApprove | FinalDecline | Payload | AccountSelect =>
      sender.Claimant?
    case Refusal => true
  }

  predicate PreOffer(phase: Phase) { phase.Begin? || phase.AccountSelected? }

  function NextPhase(phase: Phase, kind: Kind): Option<Phase> {
    if kind.Refusal? && !phase.PayloadSent? then Some(Ended)
    else match (phase, kind)
      case (Offered, IntentApprove) => Some(IntentApproved)
      case (Offered, IntentDecline) => Some(Ended)
      case (Confirmed, FinalDecline) => Some(Ended)
      case (IntentApproved, Preparation) => Some(Prepared)
      case (Prepared, ComparisonConfirmed) => Some(Confirmed)
      case (Prepared, BindingConfirmed) => Some(Confirmed)
      case (Confirmed, FinalApprove) => Some(FinalApproved)
      case (FinalApproved, Payload) => Some(PayloadSent)
      case (PayloadSent, Receipt) => Some(Ended)
      case _ => None
  }

  predicate Retransmits(e: Endpoint, o: Object, sender: Side) {
    && e.last.Some?
    && e.last.value.sender == sender && e.last.value.kind == o.kind
    && e.last.value.intent == o.intent && e.last.value.hash == o.hash
    && (e.last.value.bytes.None? || e.last.value.bytes.value == o.bytes)
  }

  function Accept(e: Endpoint, o: Object, sender: Side, next: Phase): Endpoint {
    e.(intent := if e.intent.None? && !o.kind.AccountSelect? then Some(o.intent) else e.intent,
       last := Some(Last(sender, Some(o.bytes), o.kind, o.intent, o.hash)),
       phase := next)
  }

  function Fail(e: Endpoint, fault: Fault): (Endpoint, Outcome<Advance>) { (e.(phase := Ended), Err(fault)) }

  /** The successor branch of `apply`: everything after AccountSelect and Offer. */
  function ApplySuccessor(w: World, e: Endpoint, o: Object, sender: Side): (Endpoint, Outcome<Advance>) {
    if e.intent.None? then Fail(e, PhaseFault)
    else if o.intent != e.intent.value then Fail(e, ProfileFault)
    else match NextPhase(e.phase, o.kind)
      case None => Fail(e, PhaseFault)
      case Some(next) =>
        match w.logicalBody(o)
        case Err(fault) => Fail(e, fault)
        case Ok(logical) =>
          if logical.ceremony != e.carrier.ceremony then Fail(e, ProfileFault)
          else if e.last.None? then Fail(e, PhaseFault)
          else if logical.predecessor != e.last.value.hash then Fail(e, PredecessorFault)
          else
            var (verifier, refused) := w.verifyBody(e.verifier, logical);
            var checked := e.(verifier := verifier);
            if refused.Some? then Fail(checked, refused.value)
            else (Accept(checked, o, sender, next), Ok(Advanced))
  }

  function Apply(w: World, e: Endpoint, o: Object, sender: Side): (Endpoint, Outcome<Advance>) {
    if Retransmits(e, o, sender) then (e, Ok(ExactRetransmission))
    else if e.phase.Ended? then (e, Err(TerminalFault))
    else if e.phase.PayloadSent? && o.kind.Refusal? then (e, Err(PhaseFault))
    else if !ValidSender(o.kind, sender) then Fail(e, DirectionFault)
    else if o.kind.AccountSelect? then
      if !e.phase.Begin? || e.last.Some? then Fail(e, PhaseFault)
      else if o.intent != w.selectionDigest then Fail(e, SchemaFault)
      else match w.recogniseSelection(o, e.carrier.ceremony, e.carrier.application)
        case Some(fault) => Fail(e, fault)
        case None => (Accept(e, o, sender, AccountSelected), Ok(Advanced))
    else if o.kind.Offer? then
      if !sender.Allocator? || !e.side.Allocator? || !PreOffer(e.phase) then Fail(e, PhaseFault)
      else (Accept(e.(intent := Some(o.intent)), o, sender, Offered), Ok(Advanced))
    else ApplySuccessor(w, e, o, sender)
  }

  /** `receive_offer`: the claimant's authenticated first Offer. `authority` names
      the ceremony and application the caller authenticated; `refusal` is what the
      consumer's parser and verifier answer. */
  function ReceiveOffer(e: Endpoint, o: Object, authority: (Bytes32, Bytes), refusal: Option<Fault>)
    : (Endpoint, Outcome<Advance>)
  {
    if Retransmits(e, o, Allocator) then (e, Ok(ExactRetransmission))
    else if !e.side.Claimant? || !PreOffer(e.phase) || !o.kind.Offer? then Fail(e, PhaseFault)
    else if authority.0 != e.carrier.ceremony || authority.1 != e.carrier.application then Fail(e, ProfileFault)
    else if refusal.Some? then Fail(e, refusal.value)
    else (Accept(e, o, Allocator, Offered), Ok(DisplayIntent))
  }

  function AuthenticateReceipt(w: World, e: Endpoint, o: Object): (Endpoint, Outcome<ReceiptAuthority>) {
    if !e.side.Claimant? || !e.phase.PayloadSent? || !o.kind.Receipt? || e.intent.None? then (e, Err(PhaseFault))
    else if o.intent != e.intent.value then (e, Err(ProfileFault))
    else match w.logicalBody(o)
      case Err(fault) => (e, Err(fault))
      case Ok(logical) =>
        if logical.ceremony != e.carrier.ceremony then (e, Err(ProfileFault))
        else if e.last.None? then (e, Err(PhaseFault))
        else if logical.predecessor != e.last.value.hash then (e, Err(PredecessorFault))
        else
          var (verifier, refused) := w.verifyBody(e.verifier, logical);
          var checked := e.(verifier := verifier);
          if refused.Some? then (checked, Err(refused.value))
          else match w.finalStatus(o.body)
            case Err(fault) => (checked, Err(fault))
            case Ok(status) =>
              (checked, Ok(ReceiptAuthority(e.carrier.application, e.carrier.ceremony, e.intent.value,
                                            e.last.value.hash, status, w.sha256(o.body))))
  }

  function RecoverReceipt(w: World, e: Endpoint, o: Object, authority: ReceiptAuthority): (Endpoint, Outcome<Advance>) {
    if !e.side.Claimant? || !e.phase.PayloadSent? || !o.kind.Receipt? then (e, Err(PhaseFault))
    else match w.logicalBody(o)
      case Err(fault) => (e, Err(fault))
      case Ok(logical) =>
        if e.last.None? || e.intent.None? then (e, Err(PhaseFault))
        else match w.finalStatus(o.body)
          case Err(fault) => (e, Err(fault))
          case Ok(status) =>
            if authority == ReceiptAuthority(e.carrier.application, e.carrier.ceremony, e.intent.value,
                                             e.last.value.hash, status, w.sha256(o.body))
               && o.intent == e.intent.value && logical.ceremony == e.carrier.ceremony
               && logical.predecessor == e.last.value.hash
            then (Accept(e, o, Allocator, Ended), Ok(Advanced))
            else (e, Err(ProfileFault))
  }

  /** `prepare_outbound`: advance, seal and cache one frame; a refusal after the
      reducer advanced leaves what it had already changed. */
  datatype Outbound = Outbound(endpoint: Endpoint, channel: Channel, relay: Projection, result: Outcome<Frame>)

  function PrepareOutbound(w: World, e: Endpoint, channel: Channel, relay: Projection, o: Object): Outbound {
    if channel.side != e.side then Outbound(e, channel, relay, Err(DirectionFault))
    else if relay.cached.Some? then
      Outbound(e, channel, relay, if Retransmits(e, o, e.side) then Ok(relay.cached.value) else Err(PhaseFault))
    else if channel.CanSeal(o.bytes).Some? then Outbound(e, channel, relay, Err(channel.CanSeal(o.bytes).value))
    else
      var (sent, advance) := Apply(w, e, o, e.side);
      if advance.Err? then Outbound(sent, channel, relay, Err(advance.error))
      else if advance.value != Advanced then Outbound(sent, channel, relay, Err(PhaseFault))
      else match channel.Seal(w, o.bytes)
        case Err(fault) => Outbound(sent, channel, relay, Err(fault))
        case Ok((sealed, frame)) =>
          match relay.CacheApplication(frame)
          case Err(fault) => Outbound(sent, sealed, relay, Err(fault))
          case Ok(cached) => Outbound(sent, sealed, cached, Ok(frame))
  }

  /** Whether the allocator's own Receipt is the last accepted object. */
  predicate ReceiptReleased(e: Endpoint) {
    e.side.Allocator? && e.last.Some? && e.last.value.sender.Allocator? && e.last.value.kind.Receipt?
  }

  /** `consistent_projection` (src/credential_v2/checkpoint.rs): the shape a
      checkpoint decoder demands of a phase, its intent and its last object. */
  predicate ConsistentProjection(w: World, phase: Phase, intent: Option<Bytes32>, last: Option<Last>) {
    if last.None? then phase.Begin? && intent.None?
    else if intent.None? then
      phase.AccountSelected? && last.value.sender.Claimant? && last.value.kind.AccountSelect?
      && last.value.intent == w.selectionDigest
    else
      && last.value.intent == intent.value
      && match phase
         case Begin | AccountSelected => false
         case Offered => last.value.kind.Offer?
         case IntentApproved => last.value.kind.IntentApprove?
         case Prepared => last.value.kind.Preparation?
         case Confirmed => last.value.kind.ComparisonConfirmed? || last.value.kind.BindingConfirmed?
         case FinalApproved => last.value.kind.FinalApprove?
         case PayloadSent => last.value.kind.Payload?
         case Ended => last.value.sender.Allocator? && last.value.kind.Receipt?
  }

  /** The object the program updates in place, refining `Endpoint`. */
  class CredentialEndpoint {
    const side: Side
    const carrier: Carrier
    var phase: Phase
    var intent: Option<Bytes32>
    var last: Option<Last>
    var verifier: Bytes
    var generation: u64
    var nonce: Option<Bytes12>

    ghost function View(): Endpoint
      reads this
    {
      Endpoint(side, carrier, phase, intent, last, verifier, generation, nonce)
    }

    constructor (side: Side, carrier: Carrier, verifier: Bytes)
      ensures View() == NewEndpoint(side, carrier, verifier)
    {
      this.side, this.carrier, this.verifier := side, carrier, verifier;
      phase, intent, last, generation, nonce := Begin, None, None, 0, None;
    }

    method AcceptObject(o: Object, sender: Side, next: Phase)
      modifies this`intent, this`last, this`phase
      ensures View() == Accept(old(View()), o, sender, next)
    {
      if intent.None? && !o.kind.AccountSelect? { intent := Some(o.intent); }
      last := Some(Last(sender, Some(o.bytes), o.kind, o.intent, o.hash));
      phase := next;
    }

    method ApplyObject(w: World, o: Object, sender: Side) returns (r: Outcome<Advance>)
      modifies this`intent, this`last, this`phase, this`verifier
      ensures (View(), r) == Apply(w, old(View()), o, sender)
    {
      if last.Some? && last.value.sender == sender && last.value.kind == o.kind
         && last.value.intent == o.intent && last.value.hash == o.hash
         && (last.value.bytes.None? || last.value.bytes.value == o.bytes) {
        return Ok(ExactRetransmission);
      }
      if phase.Ended? { return Err(TerminalFault); }
      if phase.PayloadSent? && o.kind.Refusal? { return Err(PhaseFault); }
      if !ValidSender(o.kind, sender) { phase := Ended; return Err(DirectionFault); }
      if o.kind.AccountSelect? {
        if !phase.Begin? || last.Some? { phase := Ended; return Err(PhaseFault); }
        if o.intent != w.selectionDigest { phase := Ended; return Err(SchemaFault); }
        var refused := w.recogniseSelection(o, carrier.ceremony, carrier.application);
        if refused.Some? { phase := Ended; return Err(refused.value); }
        AcceptObject(o, sender, AccountSelected);
        return Ok(Advanced);
      }
      if o.kind.Offer? {
        if !sender.Allocator? || !side.Allocator? || !PreOffer(phase) { phase := Ended; return Err(PhaseFault); }
        intent := Some(o.intent);
        AcceptObject(o, sender, Offered);
        return Ok(Advanced);
      }
      r := ApplyNext(w, o, sender);
    }

    method ApplyNext(w: World, o: Object, sender: Side) returns (r: Outcome<Advance>)
      modifies this`intent, this`last, this`phase, this`verifier
      ensures (View(), r) == ApplySuccessor(w, old(View()), o, sender)
    {
      if intent.None? { phase := Ended; return Err(PhaseFault); }
      if o.intent != intent.value { phase := Ended; return Err(ProfileFault); }
      var next := NextPhase(phase, o.kind);
      if next.None? { phase := Ended; return Err(PhaseFault); }
      var logical := w.logicalBody(o);
      if logical.Err? { phase := Ended; return Err(logical.error); }
      if logical.value.ceremony != carrier.ceremony { phase := Ended; return Err(ProfileFault); }
      if last.None? { phase := Ended; return Err(PhaseFault); }
      if logical.value.predecessor != last.value.hash { phase := Ended; return Err(PredecessorFault); }
      var (after, refused) := w.verifyBody(verifier, logical.value);
      verifier := after;
      if refused.Some? { phase := Ended; return Err(refused.value); }
      AcceptObject(o, sender, next.value);
      return Ok(Advanced);
    }
  }
}
