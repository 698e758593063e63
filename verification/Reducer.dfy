/** The credential/v1 consent reducer (src/endpoint.rs): invitation consumption, key
    activation and erasure, decision uniqueness and effect release. The CBCL monitors
    are an oracle: any verdict, different at every consultation. */
module Reducers {
  import opened Base
  import V2

  type Side = V2.Side

  datatype Status = Unused | Bound | Spent

  /** The durable record of one invitation. */
  datatype Record = Record(digest: Bytes32, status: Status, binding: Option<Bytes32>) {
    function Spend(): Record { this.(status := Spent, binding := None) }

    /** `bind`: the first attempt takes the invitation, any other spends it. */
    function Bind(attempt: Bytes32): (Record, Result<bool, Error>) {
      match status
      case Unused => (this.(status := Bound, binding := Some(attempt)), Ok(true))
      case Bound => if binding == Some(attempt) then (this, Ok(false)) else (Spend(), Err(InvitationError))
      case Spent => (this, Err(InvitationError))
    }
  }

  datatype Reason =
    | Cancelled | Expired | MailboxClosed | MailboxCrowded | MailboxConflict | Declined | ProtocolViolation
    | KeyConfirmation | ChannelFailed | IntentMismatch | ProfileRefused | DecisionConflict | Malformed

  datatype Error =
    | InvitationError | WrongSide | ProtocolError | ChannelError | Recognition | PhaseError | IntentDigest
    | ProfileError | DecisionError | TerminalError

  datatype Decision = Approve | Decline

  /** A decoded application body; an intent carries the digest of its encoding. */
  datatype Application =
    | Intent(application: Bytes, digest: Bytes32)
    | Decided(digest: Bytes32, decision: Decision)
    | Payload(digest: Bytes32)

  datatype Pending = Pending(control: Bytes, body: Bytes, decoded: Application)

  datatype Effect = SendFrame | DisplayIntent(digest: Bytes32) | DeliverGrant(digest: Bytes32) | CloseMailbox

  /** What a monitor answers: a content hash, not yet, never, or a refusal to look. */
  datatype Verdict = Valid(hash: Bytes) | Unknown | Violation | Refused

  /** The session monitor at its n-th consultation, and the application profile. */
  datatype Oracle = Oracle(
    admit: (nat, Pending) -> Verdict,
    recognisesIntent: Application -> bool,
    recognisesPayload: Application -> bool,
    authorises: Application -> bool)

  datatype IntentRecord = IntentRecord(digest: Bytes32, controlHash: Bytes)
  datatype DecisionRecord = DecisionRecord(decision: Decision, controlHash: Bytes)

  /** Secret-bearing parts are present or gone; their contents are not modelled. */
  datatype Reducer = Reducer(
    side: Side, application: Bytes, record: Record,
    ceremonyKey: bool, bootstrap: bool, pendingChannel: bool, channel: bool, session: bool,
    localFinished: bool, pendingFinished: Option<Bytes>, pending: seq<Pending>,
    intent: Option<IntentRecord>, decision: Option<DecisionRecord>, payloadControl: Option<Bytes>, payloadSent: bool,
    delivered: nat, terminal: Option<Reason>, localDecline: bool, replay: Option<Bytes32>, consults: nat)

  type Reply = (Reducer, Result<seq<Effect>, Error>)

  const MAX_PENDING_CONTROLS: nat := 16

  function NewReducer(side: Side, application: Bytes, record: Record, invitation: Bytes32): Result<Reducer, Error> {
    if !record.status.Bound? || record.digest != invitation then Err(InvitationError)
    else Ok(Reducer(side, application, record, true, true, true, false, false, false, None, [], None, None, None,
        false, 0, None, false, None, 0))
  }

  function Terminated(r: Reducer, reason: Reason): Reducer {
    Reducer(r.side, r.application, r.record.Spend(), false, false, false, false, false, false, None, [], None, None,
        None, false,
            r.delivered, Some(reason), r.localDecline, r.replay, r.consults)
  }

  function Fail(r: Reducer, reason: Reason, error: Error): Reply { (Terminated(r, reason), Err(error)) }

  // ---------------------------------------------------------------- applying a body

  function ApplyIntent(o: Oracle, r: Reducer, value: Application, hash: Bytes): Reply
    requires value.Intent?
  {
    if !r.side.Claimant? || value.application != r.application then Fail(r, IntentMismatch, IntentDigest)
    else if !o.recognisesIntent(value) then Fail(r, ProfileRefused, ProfileError)
    else match r.intent
      case Some(existing) =>
        if existing == IntentRecord(value.digest, hash) then (r, Ok([])) else Fail(r, IntentMismatch, IntentDigest)
      case None => (r.(intent := Some(IntentRecord(value.digest, hash))), Ok([DisplayIntent(value.digest)]))
  }

  function ApplyDecision(r: Reducer, value: Application, hash: Bytes): Reply
    requires value.Decided?
  {
    if !r.side.Allocator? then Fail(r, ProtocolViolation, ProtocolError)
    else if r.intent.None? then (r, Err(PhaseError))
    else if value.digest != r.intent.value.digest then Fail(r, IntentMismatch, IntentDigest)
    else match r.decision
      case Some(existing) =>
        if existing == DecisionRecord(value.decision, hash) then (r, Ok([]))
            else Fail(r, DecisionConflict, DecisionError)
      case None =>
        var decided := r.(decision := Some(DecisionRecord(value.decision, hash)));
        if value.decision.Decline? then (Terminated(decided, Declined), Ok([CloseMailbox])) else (decided, Ok([]))
  }

  function ApplyPayload(o: Oracle, r: Reducer, value: Application, hash: Bytes): Reply
    requires value.Payload?
  {
    if !r.side.Claimant? then Fail(r, ProtocolViolation, ProtocolError)
    else if r.intent.None? then (r, Err(PhaseError))
    else if value.digest != r.intent.value.digest || r.decision.None? || !r.decision.value.decision.Approve?
    then Fail(r, IntentMismatch, IntentDigest)
    else match r.payloadControl
      case Some(existing) => if existing == hash then (r, Ok([])) else Fail(r, ProtocolViolation, ProtocolError)
      case None =>
        if !o.recognisesPayload(value) || !o.authorises(value) then Fail(r, ProfileRefused, ProfileError)
        else (r.(payloadControl := Some(hash), delivered := r.delivered + 1), Ok([DeliverGrant(value.digest)]))
  }

  function Apply(o: Oracle, r: Reducer, value: Application, hash: Bytes): Reply {
    match value
    case Intent(_, _) => ApplyIntent(o, r, value, hash)
    case Decided(_, _) => ApplyDecision(r, value, hash)
    case Payload(_) => ApplyPayload(o, r, value, hash)
  }

  // ---------------------------------------------------------------- retrying what was too early

  datatype Passed = Stopped(r: Reducer, error: Error) | Through(r: Reducer, kept: seq<Pending>, emitted: seq<Effect>)

  /** One pass over what is left: each body is asked about once. */
  function Pass(o: Oracle, r: Reducer, left: seq<Pending>, kept: seq<Pending>, emitted: seq<Effect>): (p: Passed)
    ensures p.Through? ==> |p.kept| <= |kept| + |left|
    decreases |left|
  {
    if left == [] then Through(r, kept, emitted)
    else if !r.session then Stopped(r, PhaseError)
    else
      var asked := r.(consults := r.consults + 1);
      match o.admit(r.consults, left[0])
      case Refused => Stopped(asked, ProtocolError)
      case Unknown => Pass(o, asked, left[1..], kept + [left[0]], emitted)
      case Violation => Stopped(Terminated(asked, ProtocolViolation), ProtocolError)
      case Valid(hash) =>
        var (next, result) := Apply(o, asked, left[0].decoded, hash);
        if result.Err? then Stopped(next, result.error) else Pass(o, next, left[1..], kept, emitted + result.value)
  }

  /** Passes until one admits nothing; each pass that admits something leaves fewer. */
  function Retry(o: Oracle, r: Reducer, left: seq<Pending>, emitted: seq<Effect>): Reply
    decreases |left|
  {
    match Pass(o, r, left, [], emitted)
    case Stopped(next, error) => (next, Err(error))
    case Through(next, kept, out) =>
      if |kept| < |left| then Retry(o, next, kept, out) else (next.(pending := kept), Ok(out))
  }

  function RetryPending(o: Oracle, r: Reducer): Reply { Retry(o, r.(pending := []), r.pending, []) }

  function Admit(o: Oracle, r: Reducer, p: Pending): Reply {
    if !r.session then (r, Err(PhaseError))
    else
      var asked := r.(consults := r.consults + 1);
      match o.admit(r.consults, p)
      case Refused => Fail(asked, ProtocolViolation, ProtocolError)
      case Violation => Fail(asked, ProtocolViolation, ProtocolError)
      case Unknown =>
        if p in r.pending then (asked, Ok([]))
        else if |r.pending| == MAX_PENDING_CONTROLS then Fail(asked, ProtocolViolation, ProtocolError)
        else (asked.(pending := r.pending + [p]), Ok([]))
      case Valid(hash) =>
        var (applied, result) := Apply(o, asked, p.decoded, hash);
        if result.Err? then (applied, result)
        else
          var (next, more) := RetryPending(o, applied);
          (next, if more.Ok? then Ok(result.value + more.value) else more)
  }

  // ---------------------------------------------------------------- calls

  /** What a sealed frame turns out to be; `None` where a recogniser refuses. */
  datatype Inner = Inner(control: Bytes, body: Option<Bytes>, decoded: Option<Application>)

  datatype Frame =
    | CpaceFrame
    | FinishedFrame(side: Side, frame: Bytes)
    | SealedFrame(digest: Option<Bytes32>, plaintext: Option<Option<Inner>>)

  /** Oracle answers one call may need besides the session monitor's. */
  datatype Answers = Answers(keysMatch: bool, bootstrap: Verdict, confirms: bool, opens: Verdict, seals: bool)

  function AdmitBootstrap(r: Reducer, a: Answers): Reply {
    if r.terminal.Some? then (r, Err(TerminalError))
    else if !r.bootstrap then (r, Err(PhaseError))
    else if a.bootstrap.Violation? || a.bootstrap.Refused? then Fail(r, ProtocolViolation, ProtocolError)
    else if !a.keysMatch then Fail(r, ProtocolViolation, ProtocolError)
    else (r, Ok([]))
  }

  function LocalFinished(r: Reducer, a: Answers): Reply {
    if r.terminal.Some? then (r, Err(TerminalError))
    else if !a.keysMatch then Fail(r, ProtocolViolation, ProtocolError)
    else if r.localFinished then (r, Ok([]))
    else if !r.pendingChannel || !r.ceremonyKey || !r.bootstrap then (r, Err(PhaseError))
    else match a.bootstrap
      case Unknown => (r, Ok([]))
      case Valid(_) => (r.(localFinished := true), Ok([]))
      case _ => Fail(r, ProtocolViolation, ProtocolError)
  }

  /** Key confirmation: the channel exists from here on, and the invitation is spent. */
  function ReceiveFinished(r: Reducer, side: Side, frame: Bytes, a: Answers): Reply {
    if side == r.side then Fail(r, ProtocolViolation, WrongSide)
    else if !r.localFinished || !r.pendingChannel || r.channel then Fail(r, ProtocolViolation, PhaseError)
    else if !a.keysMatch then Fail(r, ProtocolViolation, ProtocolError)
    else if !r.bootstrap then (r, Err(PhaseError))
    else match a.bootstrap
      case Refused => Fail(r, ProtocolViolation, ProtocolError)
      case Violation => Fail(r, ProtocolViolation, ProtocolError)
      case Unknown =>
        if r.pendingFinished.Some? && r.pendingFinished.value != frame then Fail(r, ProtocolViolation, ProtocolError)
        else (r.(pendingFinished := Some(frame)), Ok([]))
      case Valid(_) =>
        if !a.confirms then Fail(r.(pendingFinished := None, pendingChannel := false), KeyConfirmation, ChannelError)
        else
          var confirmed := r.(pendingFinished := None, pendingChannel := false, channel := true,
              record := r.record.Spend());
          if r.side.Claimant? then (confirmed, Ok([])) else OpenSession(confirmed, a)
  }

  function OpenSession(r: Reducer, a: Answers): Reply {
    if !r.ceremonyKey then (r, Err(PhaseError))
    else if a.opens.Refused? then (r, Err(ProtocolError))
    else if !a.opens.Valid? then Fail(r, ProtocolViolation, ProtocolError)
    else if !a.seals then Fail(r.(session := true), ChannelFailed, ChannelError)
    else (r.(session := true), Ok([SendFrame]))
  }

  function ReceiveOpener(r: Reducer, inner: Inner, a: Answers): Reply {
    if !r.side.Claimant? || inner.body.Some? then Fail(r, ProtocolViolation, ProtocolError)
    else if !a.opens.Valid? then Fail(r, ProtocolViolation, ProtocolError)
    else (r.(session := true), Ok([]))
  }

  function ReceiveSealed(o: Oracle, r: Reducer, digest: Option<Bytes32>, plaintext: Option<Option<Inner>>,
      a: Answers): Reply {
    if digest.None? then (r, Err(Recognition))
    else if !r.channel then (r, Err(PhaseError))
    else if plaintext.None? then Fail(r, ChannelFailed, ChannelError)
    else if plaintext.value.None? then Fail(r, Malformed, Recognition)
    else
      var inner := plaintext.value.value;
      if !r.session then ReceiveOpener(r, inner, a)
      else if inner.body.None? || inner.decoded.None? then Fail(r, Malformed, Recognition)
      else
        var (next, result) := Admit(o, r, Pending(inner.control, inner.body.value, inner.decoded.value));
        (if result.Ok? && next.terminal == Some(Declined) then next.(replay := digest) else next, result)
  }

  function ReceiveFrame(o: Oracle, r: Reducer, frame: Frame, a: Answers): Reply {
    if r.terminal.Some? then
      if r.terminal == Some(Declined) && frame.SealedFrame? && frame.digest.Some? && r.replay == frame.digest
          then (r, Ok([]))
      else (r, Err(TerminalError))
    else match frame
      case CpaceFrame => Fail(r, ProtocolViolation, PhaseError)
      case FinishedFrame(side, id) => ReceiveFinished(r, side, id, a)
      case SealedFrame(digest, plaintext) => ReceiveSealed(o, r, digest, plaintext, a)
  }

  function RetryFinished(r: Reducer, side: Side, a: Answers): Reply {
    if r.terminal.Some? then (r, Err(TerminalError))
    else if r.pendingFinished.None? then (r, Ok([]))
    else ReceiveFinished(r, side, r.pendingFinished.value, a)
  }

  function Ends(r: Reducer, reason: Reason): Reply {
    if r.terminal.Some? then (r, Err(TerminalError)) else (Terminated(r, reason), Ok([CloseMailbox]))
  }

  /** A local control: admitted as valid, then sealed. */
  function SendControl(o: Oracle, r: Reducer, p: Pending, a: Answers): (Reducer, Result<Bytes, Error>) {
    if !r.session then (r, Err(PhaseError))
    else
      var asked := r.(consults := r.consults + 1);
      match o.admit(r.consults, p)
      case Refused => (asked, Err(ProtocolError))
      case Valid(hash) =>
        if !r.channel then (asked, Err(PhaseError))
        else if !a.seals then (Terminated(asked, ChannelFailed), Err(ChannelError))
        else (asked, Ok(hash))
      case _ => (Terminated(asked, ProtocolViolation), Err(ProtocolError))
  }

  function SendIntent(o: Oracle, r: Reducer, p: Pending, a: Answers): Reply {
    if r.terminal.Some? then (r, Err(TerminalError))
    else if !p.decoded.Intent? || !r.side.Allocator? || r.intent.Some? then (r, Err(PhaseError))
    else if p.decoded.application != r.application then Fail(r, IntentMismatch, IntentDigest)
    else if !o.recognisesIntent(p.decoded) then (r, Err(ProfileError))
    else if !r.session || !r.ceremonyKey then (r, Err(PhaseError))
    else
      var (next, hash) := SendControl(o, r, p, a);
      if hash.Err? then (next, Err(hash.error))
      else (next.(intent := Some(IntentRecord(p.decoded.digest, hash.value))), Ok([SendFrame]))
  }

  /** `decide`: one decision, the person's, about the intent that was displayed. */
  function Decide(o: Oracle, r: Reducer, decision: Decision, control: Bytes, body: Bytes, a: Answers): Reply {
    if r.terminal.Some? then
      if r.terminal == Some(Declined) && r.localDecline && decision.Decline? then (r, Ok([]))
          else (r, Err(TerminalError))
    else if !r.side.Claimant? then (r, Err(PhaseError))
    else if r.decision.Some? then
      if r.decision.value.decision == decision then (r, Ok([])) else Fail(r, DecisionConflict, DecisionError)
    else if r.intent.None? || !r.ceremonyKey then (r, Err(PhaseError))
    else
      var p := Pending(control, body, Decided(r.intent.value.digest, decision));
      var (next, hash) := SendControl(o, r, p, a);
      if hash.Err? then (next, Err(hash.error))
      else
        var decided := next.(decision := Some(DecisionRecord(decision, hash.value)));
        if decision.Decline? then (Terminated(decided.(localDecline := true), Declined), Ok([SendFrame, CloseMailbox]))
        else (decided, Ok([SendFrame]))
  }

  function SendPayload(o: Oracle, r: Reducer, p: Pending, a: Answers): Reply {
    if r.terminal.Some? then (r, Err(TerminalError))
    else if !p.decoded.Payload? || !r.side.Allocator? || r.intent.None? || r.decision.None?
        || !r.decision.value.decision.Approve?
    then (r, Err(PhaseError))
    else if p.decoded.digest != r.intent.value.digest then (r, Err(IntentDigest))
    else if r.payloadSent then (r, Err(PhaseError))
    else if !o.recognisesPayload(p.decoded) then (r, Err(ProfileError))
    else if !r.ceremonyKey then (r, Err(PhaseError))
    else
      var (next, hash) := SendControl(o, r, p, a);
      if hash.Err? then (next, Err(hash.error)) else (next.(payloadSent := true), Ok([SendFrame]))
  }
}

/** The reducer as the program keeps it: one object whose optional parts are filled,
    replaced and dropped in place. */
module ReducerServices {
  import opened Base
  import opened Reducers

  /** The durable invitation record, changed in place. */
  class InvitationRecord {
    const digest: Bytes32
    var status: Status
    var binding: Option<Bytes32>

    ghost function View(): Record
      reads this
    {
      Record(digest, status, binding)
    }

    constructor (digest: Bytes32)
      ensures View() == Record(digest, Unused, None)
    {
      this.digest, status, binding := digest, Unused, None;
    }

    method BindAttempt(attempt: Bytes32) returns (r: Result<bool, Error>)
      modifies this`status, this`binding
      ensures (View(), r) == old(View()).Bind(attempt)
    {
      match status {
        case Unused =>
          status, binding := Bound, Some(attempt);
          return Ok(true);
        case Bound =>
          if binding == Some(attempt) { return Ok(false); }
          Consume();
          return Err(InvitationError);
        case Spent => return Err(InvitationError);
      }
    }

    method Consume()
      modifies this`status, this`binding
      ensures View() == old(View()).Spend()
    {
      status, binding := Spent, None;
    }
  }

  class EndpointReducer {
    const side: Side
    const application: Bytes
    var record: Record
    var ceremonyKey: bool
    var bootstrap: bool
    var pendingChannel: bool
    var channel: bool
    var session: bool
    var localFinished: bool
    var pendingFinished: Option<Bytes>
    var pending: seq<Pending>
    var intent: Option<IntentRecord>
    var decision: Option<DecisionRecord>
    var payloadControl: Option<Bytes>
    var payloadSent: bool
    var delivered: nat
    var terminal: Option<Reason>
    var localDecline: bool
    var replay: Option<Bytes32>
    var consults: nat

    ghost function View(): Reducer
      reads this
    {
      Reducer(side, application, record, ceremonyKey, bootstrap, pendingChannel, channel, session, localFinished,
          pendingFinished,
              pending, intent, decision, payloadControl, payloadSent, delivered, terminal, localDecline, replay,
                  consults)
    }

    constructor (r: Reducer)
      ensures View() == r
    {
      side, application, record := r.side, r.application, r.record;
      ceremonyKey, bootstrap, pendingChannel, channel, session := r.ceremonyKey, r.bootstrap, r.pendingChannel,
          r.channel, r.session;
      localFinished, pendingFinished, pending := r.localFinished, r.pendingFinished, r.pending;
      intent, decision, payloadControl, payloadSent := r.intent, r.decision, r.payloadControl, r.payloadSent;
      delivered, terminal, localDecline, replay, consults := r.delivered, r.terminal, r.localDecline, r.replay,
          r.consults;
    }

    method DropKeys()
      modifies this`ceremonyKey, this`pendingChannel, this`channel, this`bootstrap, this`session
      ensures View() == old(View()).(ceremonyKey := false, pendingChannel := false, channel := false,
              bootstrap := false, session := false)
    {
      ceremonyKey, pendingChannel, channel, bootstrap, session := false, false, false, false, false;
    }

    method DropHandshake()
      modifies this`localFinished, this`pendingFinished, this`pending
      ensures View() == old(View()).(localFinished := false, pendingFinished := None, pending := [])
    {
      localFinished, pendingFinished, pending := false, None, [];
    }

    method DropConsent()
      modifies this`intent, this`decision, this`payloadControl, this`payloadSent
      ensures View() == old(View()).(intent := None, decision := None, payloadControl := None, payloadSent := false)
    {
      intent, decision, payloadControl, payloadSent := None, None, None, false;
    }

    method Terminate(reason: Reason)
      modifies this
      ensures View() == Terminated(old(View()), reason)
    {
      DropKeys();
      DropHandshake();
      DropConsent();
      terminal := Some(reason);
      record := record.Spend();
    }

    method TakeIntent(o: Oracle, value: Application, hash: Bytes) returns (r: Result<seq<Effect>, Error>)
      requires value.Intent?
      modifies this
      ensures (View(), r) == ApplyIntent(o, old(View()), value, hash)
    {
      hide Terminated;
      if !side.Claimant? || value.application != application { Terminate(IntentMismatch); return Err(IntentDigest); }
      if !o.recognisesIntent(value) { Terminate(ProfileRefused); return Err(ProfileError); }
      if intent.Some? {
        if intent.value == IntentRecord(value.digest, hash) { return Ok([]); }
        Terminate(IntentMismatch);
        return Err(IntentDigest);
      }
      intent := Some(IntentRecord(value.digest, hash));
      return Ok([DisplayIntent(value.digest)]);
    }

    method TakeDecision(value: Application, hash: Bytes) returns (r: Result<seq<Effect>, Error>)
      requires value.Decided?
      modifies this
      ensures (View(), r) == ApplyDecision(old(View()), value, hash)
    {
      hide Terminated;
      if !side.Allocator? { Terminate(ProtocolViolation); return Err(ProtocolError); }
      if intent.None? { return Err(PhaseError); }
      if value.digest != intent.value.digest { Terminate(IntentMismatch); return Err(IntentDigest); }
      if decision.Some? {
        if decision.value == DecisionRecord(value.decision, hash) { return Ok([]); }
        Terminate(DecisionConflict);
        return Err(DecisionError);
      }
      decision := Some(DecisionRecord(value.decision, hash));
      if value.decision.Approve? { return Ok([]); }
      Terminate(Declined);
      return Ok([CloseMailbox]);
    }

    method TakePayload(o: Oracle, value: Application, hash: Bytes) returns (r: Result<seq<Effect>, Error>)
      requires value.Payload?
      modifies this
      ensures (View(), r) == ApplyPayload(o, old(View()), value, hash)
    {
      hide Terminated;
      if !side.Claimant? { Terminate(ProtocolViolation); return Err(ProtocolError); }
      if intent.None? { return Err(PhaseError); }
      if value.digest != intent.value.digest || decision.None? || !decision.value.decision.Approve? {
        Terminate(IntentMismatch);
        return Err(IntentDigest);
      }
      if payloadControl.Some? {
        if payloadControl.value == hash { return Ok([]); }
        Terminate(ProtocolViolation);
        return Err(ProtocolError);
      }
      if !o.recognisesPayload(value) || !o.authorises(value) { Terminate(ProfileRefused); return Err(ProfileError); }
      payloadControl := Some(hash);
      delivered := delivered + 1;
      return Ok([DeliverGrant(value.digest)]);
    }

    method TakeApplication(o: Oracle, value: Application, hash: Bytes) returns (r: Result<seq<Effect>, Error>)
      modifies this
      ensures (View(), r) == Apply(o, old(View()), value, hash)
    {
      hide ApplyIntent, ApplyDecision, ApplyPayload;
      match value {
        case Intent(_, _) => r := TakeIntent(o, value, hash);
        case Decided(_, _) => r := TakeDecision(value, hash);
        case Payload(_) => r := TakePayload(o, value, hash);
      }
    }

    /** One pass of `retry_pending` over what is left. */
    method RetryOnce(o: Oracle, remaining: seq<Pending>, before: seq<Effect>)
      returns (next: seq<Pending>, emitted: seq<Effect>, stopped: Option<Error>)
      modifies this
      ensures Pass(o, old(View()), remaining, [], before)
           == if stopped.Some? then Stopped(View(), stopped.value) else Through(View(), next, emitted)
      ensures |next| <= |remaining|
    {
      hide Apply, Terminated;
      ghost var entry := View();
      next, emitted, stopped := [], before, None;
      var i := 0;
      while i < |remaining|
        invariant 0 <= i <= |remaining| && |next| <= i
        invariant Pass(o, entry, remaining, [], before) == Pass(o, View(), remaining[i..], next, emitted)
      {
        var p := remaining[i];
        assert remaining[i..][0] == p && remaining[i..][1..] == remaining[i + 1..];
        i := i + 1;
        if !session { return next, emitted, Some(PhaseError); }
        var verdict := o.admit(consults, p);
        consults := consults + 1;
        if verdict.Unknown? {
          next := next + [p];
        } else if verdict.Refused? {
          return next, emitted, Some(ProtocolError);
        } else if verdict.Violation? {
          Terminate(ProtocolViolation);
          return next, emitted, Some(ProtocolError);
        } else {
          var effects := TakeApplication(o, p.decoded, verdict.hash);
          if effects.Err? { return next, emitted, Some(effects.error); }
          emitted := emitted + effects.value;
        }
      }
    }

    /** `retry_pending`: it ends because a pass that made progress carries fewer bodies into
        the next one. */
    method RetryAll(o: Oracle) returns (result: Result<seq<Effect>, Error>)
      modifies this
      ensures (View(), result) == RetryPending(o, old(View()))
    {
      hide Pass;
      ghost var start := View();
      var remaining, emitted := pending, [];
      pending := [];
      var progress := true;
      while progress
        invariant progress ==> Retry(o, View(), remaining, emitted) == RetryPending(o, start)
        invariant !progress ==> (View().(pending := remaining), Ok(emitted)) == RetryPending(o, start)
        decreases |remaining| + if progress then 1 else 0
      {
        var next, out, stopped := RetryOnce(o, remaining, emitted);
        if stopped.Some? { return Err(stopped.value); }
        progress := |next| < |remaining|;
        remaining, emitted := next, out;
      }
      pending := remaining;
      result := Ok(emitted);
    }

    method AdmitApplication(o: Oracle, p: Pending) returns (r: Result<seq<Effect>, Error>)
      modifies this
      ensures (View(), r) == Admit(o, old(View()), p)
    {
      hide Apply, RetryPending, Terminated;
      if !session { return Err(PhaseError); }
      var verdict := o.admit(consults, p);
      consults := consults + 1;
      match verdict {
        case Refused => Terminate(ProtocolViolation); return Err(ProtocolError);
        case Violation => Terminate(ProtocolViolation); return Err(ProtocolError);
        case Unknown =>
          if p in pending { return Ok([]); }
          if |pending| == MAX_PENDING_CONTROLS { Terminate(ProtocolViolation); return Err(ProtocolError); }
          pending := pending + [p];
          return Ok([]);
        case Valid(hash) =>
          var applied := TakeApplication(o, p.decoded, hash);
          if applied.Err? { return applied; }
          var more := RetryAll(o);
          if more.Err? { return more; }
          return Ok(applied.value + more.value);
      }
    }

    /** Admit a local control, then seal it. */
    method SendLocal(o: Oracle, p: Pending, a: Answers) returns (hash: Result<Bytes, Error>)
      modifies this
      ensures (View(), hash) == SendControl(o, old(View()), p, a)
    {
      hide Terminated;
      if !session { return Err(PhaseError); }
      var verdict := o.admit(consults, p);
      consults := consults + 1;
      if verdict.Refused? { return Err(ProtocolError); }
      if !verdict.Valid? { Terminate(ProtocolViolation); return Err(ProtocolError); }
      if !channel { return Err(PhaseError); }
      if !a.seals { Terminate(ChannelFailed); return Err(ChannelError); }
      return Ok(verdict.hash);
    }

    /** `decide`: the person's one decision. */
    method DecideNow(o: Oracle, choice: Decision, control: Bytes, body: Bytes,
        a: Answers) returns (r: Result<seq<Effect>, Error>)
      modifies this
      ensures (View(), r) == Decide(o, old(View()), choice, control, body, a)
    {
      hide Terminated, SendControl;
      if terminal.Some? {
        if terminal == Some(Declined) && localDecline && choice.Decline? { return Ok([]); }
        return Err(TerminalError);
      }
      if !side.Claimant? { return Err(PhaseError); }
      if decision.Some? {
        if decision.value.decision == choice { return Ok([]); }
        Terminate(DecisionConflict);
        return Err(DecisionError);
      }
      if intent.None? || !ceremonyKey { return Err(PhaseError); }
      var hash := SendLocal(o, Pending(control, body, Decided(intent.value.digest, choice)), a);
      if hash.Err? { return Err(hash.error); }
      KeepDecision(choice, hash.value);
      return if choice.Approve? then Ok([SendFrame]) else Ok([SendFrame, CloseMailbox]);
    }

    /** The decision is kept, or ends everything. */
    method KeepDecision(choice: Decision, hash: Bytes)
      modifies this
      ensures var decided := old(View()).(decision := Some(DecisionRecord(choice, hash)));
              View() == if choice.Decline? then Terminated(decided.(localDecline := true), Declined) else decided
    {
      hide Terminated;
      decision := Some(DecisionRecord(choice, hash));
      if choice.Decline? {
        localDecline := true;
        Terminate(Declined);
      }
    }
  }
}
