/** The confirmed secure channel (src/channel.rs and src/credential_v2/channel.rs,
    which share their counters and refusals): role-directed exact counters, and
    a terminal flag that the first deviation sets for good. */
module Channels {
  import opened Base
  import opened V2
  import opened Octets

  const MAX_PLAINTEXT: nat := 69_556

  datatype Channel = Channel(
    side: Side, transcript: Bytes64, keys: Keys, nextSend: Option<u64>, nextReceive: Option<u64>, terminal: bool)
  {
    function CanSeal(plaintext: Bytes): Option<Fault> {
      if terminal then Some(TerminalFault)
      else if |plaintext| == 0 || |plaintext| > MAX_PLAINTEXT then Some(SizeFault)
      else if nextSend.None? then Some(CounterFault)
      else None
    }

    function Seal(w: World, plaintext: Bytes): Outcome<(Channel, Frame)> {
      if CanSeal(plaintext).Some? then Err(CanSeal(plaintext).value)
      else
        var counter, direction := nextSend.value, side.SendDirection();
        var aad := w.sealedAad(direction, counter, transcript);
        var ciphertext := w.encrypt(keys.sendKey, DeriveNonce(keys.sendIv, counter), aad, plaintext);
        Ok((this.(nextSend := Successor(counter)), Sealed(direction, counter, ciphertext)))
    }

    /** Every refusal but the one of an already terminal channel ends the channel. */
    function Open(w: World, frame: Frame): (Channel, Outcome<Bytes>) {
      if terminal then (this, Err(TerminalFault))
      else if !frame.Sealed? then Fail(SchemaFault)
      else if frame.direction != side.ReceiveDirection() then Fail(DirectionFault)
      else if nextReceive.None? || frame.counter != nextReceive.value then Fail(CounterFault)
      else if !(17 <= |frame.ciphertext| <= MAX_PLAINTEXT + 16) then Fail(SizeFault)
      else
        var aad := w.sealedAad(frame.direction, frame.counter, transcript);
        match w.decrypt(keys.receiveKey, DeriveNonce(keys.receiveIv, frame.counter), aad, frame.ciphertext)
        case None => Fail(AuthenticationFault)
        case Some(plaintext) => (this.(nextReceive := Successor(frame.counter)), Ok(plaintext))
    }

    function Fail(fault: Fault): (Channel, Outcome<Bytes>) { (this.(terminal := true), Err(fault)) }
  }

  /** `counter.checked_add(1)` */
  function Successor(counter: u64): Option<u64> { if counter == U64_MAX then None else Some(counter + 1) }

  function Confirmed(side: Side, pending: Pending): Channel {
    Channel(side, pending.transcript, pending.keys, Some(0), Some(0), false)
  }

  /** The object the program updates in place, refining `Channel`. */
  class SecureChannel {
    const side: Side
    const transcript: Bytes64
    const keys: Keys
    var nextSend: Option<u64>
    var nextReceive: Option<u64>
    var terminal: bool

    ghost function View(): Channel
      reads this
    {
      Channel(side, transcript, keys, nextSend, nextReceive, terminal)
    }

    constructor (side: Side, pending: Pending)
      ensures View() == Confirmed(side, pending)
    {
      this.side, transcript, keys := side, pending.transcript, pending.keys;
      nextSend, nextReceive, terminal := Some(0), Some(0), false;
    }

    method Seal(w: World, plaintext: Bytes) returns (r: Outcome<Frame>)
      modifies this`nextSend
      ensures match old(View()).Seal(w, plaintext)
              case Ok((next, frame)) => r == Ok(frame) && View() == next
              case Err(e) => r == Err(e) && View() == old(View())
    {
      if terminal { return Err(TerminalFault); }
      if |plaintext| == 0 || |plaintext| > MAX_PLAINTEXT { return Err(SizeFault); }
      if nextSend.None? { return Err(CounterFault); }
      var counter := nextSend.value;
      var nonce := DeriveNonceInPlace(keys.sendIv, counter);
      var aad := w.sealedAad(side.SendDirection(), counter, transcript);
      var ciphertext := w.encrypt(keys.sendKey, nonce, aad, plaintext);
      nextSend := Successor(counter);
      return Ok(Sealed(side.SendDirection(), counter, ciphertext));
    }

    method Open(w: World, frame: Frame) returns (r: Outcome<Bytes>)
      modifies this`nextReceive, this`terminal
      ensures (View(), r) == old(View()).Open(w, frame)
    {
      if terminal { return Err(TerminalFault); }
      if !frame.Sealed? { terminal := true; return Err(SchemaFault); }
      if frame.direction != side.ReceiveDirection() { terminal := true; return Err(DirectionFault); }
      if nextReceive.None? { terminal := true; return Err(CounterFault); }
      if frame.counter != nextReceive.value { terminal := true; return Err(CounterFault); }
      if !(17 <= |frame.ciphertext| <= MAX_PLAINTEXT + 16) { terminal := true; return Err(SizeFault); }
      var nonce := DeriveNonceInPlace(keys.receiveIv, frame.counter);
      var aad := w.sealedAad(frame.direction, frame.counter, transcript);
      var plain := w.decrypt(keys.receiveKey, nonce, aad, frame.ciphertext);
      if plain.None? { terminal := true; return Err(AuthenticationFault); }
      nextReceive := Successor(frame.counter);
      return Ok(plain.value);
    }
  }

  // ---------------------------------------------------------------- ideal AEAD

  /** The honest peer's sealing history: plaintext `i` went out under counter `i`. */
  datatype Link = Link(sender: Channel, sealed: seq<Bytes>, receiver: Channel, accepted: seq<Bytes>, refused: bool)

  datatype Event = PeerSeals(plaintext: Bytes) | Arrives(frame: Frame)

  function Advance(w: World, link: Link, event: Event): Link {
    match event
    case PeerSeals(plaintext) =>
      (match link.sender.Seal(w, plaintext)
       case Err(_) => link
       case Ok((sender, _)) => link.(sender := sender, sealed := link.sealed + [plaintext]))
    case Arrives(frame) =>
      var (receiver, r) := link.receiver.Open(w, frame);
      if r.Ok? then link.(receiver := receiver, accepted := link.accepted + [r.value])
      else link.(receiver := receiver, refused := true)
  }

  function Deliver(w: World, link: Link, events: seq<Event>): Link {
    if events == [] then link
    else Advance(w, Deliver(w, link, events[..|events| - 1]), events[|events| - 1])
  }

  /** Ciphertext `frame` is one the peer produced: the i-th plaintext it sealed. */
  ghost predicate Produced(w: World, link: Link, nonce: Bytes12, aad: Bytes, ciphertext: Bytes, plaintext: Bytes) {
    exists i: u64 ::
      && i < |link.sealed| && plaintext == link.sealed[i]
      && nonce == DeriveNonce(link.sender.keys.sendIv, i)
      && aad == w.sealedAad(link.sender.side.SendDirection(), i, link.sender.transcript)
      && ciphertext == w.encrypt(link.sender.keys.sendKey, nonce, aad, plaintext)
  }

  /** An arrival no attacker could forge: it decrypts only to what the peer sealed
      under that nonce. This is the ideal-AEAD assumption, one arrival at a time. */
  ghost predicate Unforged(w: World, link: Link, event: Event) {
    event.Arrives? && event.frame.Sealed? ==>
      var nonce := DeriveNonce(link.receiver.keys.receiveIv, event.frame.counter);
      var aad := w.sealedAad(event.frame.direction, event.frame.counter, link.receiver.transcript);
      forall plaintext ::
        w.decrypt(link.receiver.keys.receiveKey, nonce, aad, event.frame.ciphertext) == Some(plaintext) ==>
          Produced(w, link, nonce, aad, event.frame.ciphertext, plaintext)
  }

  ghost predicate AllUnforged(w: World, link: Link, events: seq<Event>) {
    forall n :: 0 <= n < |events| ==> Unforged(w, Deliver(w, link, events[..n]), events[n])
  }

  /** A fresh pair: opposite roles of one confirmed transcript. */
  ghost predicate Paired(link: Link) {
    && link.receiver.side == link.sender.side.Opposite()
    && link.receiver.transcript == link.sender.transcript
    && link.receiver.keys.receiveKey == link.sender.keys.sendKey
    && link.receiver.keys.receiveIv == link.sender.keys.sendIv
  }

  ghost predicate Started(link: Link) {
    && Paired(link)
    && link.sealed == [] && link.accepted == [] && !link.refused
    && link.sender.nextSend == Some(0) && !link.sender.terminal
    && link.receiver.nextReceive == Some(0) && !link.receiver.terminal
  }

  ghost predicate InStep(link: Link) {
    && Paired(link)
    && (link.sender.nextSend.Some? ==> link.sender.nextSend.value == |link.sealed|)
    && |link.sealed| <= U64_MAX + 1
    && (link.receiver.nextReceive.Some? ==> link.receiver.nextReceive.value == |link.accepted|)
    && link.accepted <= link.sealed
    && (link.refused <==> link.receiver.terminal)
  }

  lemma AdvanceInStep(w: World, link: Link, event: Event)
    requires InStep(link) && Unforged(w, link, event)
    ensures InStep(Advance(w, link, event))
    ensures link.refused ==> Advance(w, link, event).accepted == link.accepted && Advance(w, link, event).refused
  {
    var next := Advance(w, link, event);
    if event.Arrives? && |next.accepted| > |link.accepted| {
      var frame := event.frame;
      var nonce := DeriveNonce(link.receiver.keys.receiveIv, frame.counter);
      var aad := w.sealedAad(frame.direction, frame.counter, link.receiver.transcript);
      var plaintext := link.receiver.Open(w, frame).1.value;
      assert Produced(w, link, nonce, aad, frame.ciphertext, plaintext);
      var i: u64 :| i < |link.sealed| && plaintext == link.sealed[i]
          && nonce == DeriveNonce(link.sender.keys.sendIv, i);
      NonceIsInjective(link.sender.keys.sendIv, i, frame.counter);
    }
  }

  /** The next frame of an honest peer opens, to its plaintext: with sixteen octets of tag
      per ciphertext, nothing but a deviation is ever refused. */
  lemma HonestFrameOpens(w: World, sender: Channel, receiver: Channel, plaintext: Bytes)
    requires Lawful(w) && Paired(Link(sender, [], receiver, [], false))
    requires sender.Seal(w, plaintext).Ok? && !receiver.terminal && receiver.nextReceive == sender.nextSend
    requires |sender.Seal(w, plaintext).value.1.ciphertext| == |plaintext| + 16
    ensures var (next, frame) := sender.Seal(w, plaintext).value;
            receiver.Open(w, frame) == (receiver.(nextReceive := next.nextSend), Ok(plaintext))
  {
    hide DeriveNonce;
  }

  lemma UnforgedPrefix(w: World, link: Link, events: seq<Event>, n: nat)
    requires AllUnforged(w, link, events) && n <= |events|
    ensures AllUnforged(w, link, events[..n])
  {
    hide Unforged, Deliver;
    forall k | 0 <= k < n ensures Unforged(w, Deliver(w, link, events[..n][..k]), events[..n][k]) {
      assert events[..n][..k] == events[..k];
    }
  }

  /** Whatever frames arrive, in any order and number, the accepted plaintexts are
      a prefix of those the peer sealed, and after the first refused frame nothing
      is ever accepted again. */
  lemma {:induction false} AcceptedIsPrefix(w: World, link: Link, events: seq<Event>)
    requires Started(link) && AllUnforged(w, link, events)
    ensures var end := Deliver(w, link, events);
            InStep(end) && end.accepted <= end.sealed && (end.refused <==> end.receiver.terminal)
  {
    hide Unforged, Advance;
    if events != [] {
      var n := |events| - 1;
      UnforgedPrefix(w, link, events, n);
      AcceptedIsPrefix(w, link, events[..n]);
      AdvanceInStep(w, Deliver(w, link, events[..n]), events[n]);
    }
  }

  lemma {:induction false} RefusalIsFinal(w: World, link: Link, events: seq<Event>, n: nat)
    requires Started(link) && AllUnforged(w, link, events) && n <= |events| && Deliver(w, link, events[..n]).refused
    ensures Deliver(w, link, events).accepted == Deliver(w, link, events[..n]).accepted
            && Deliver(w, link, events).refused
    decreases |events|
  {
    hide Unforged, Advance, InStep, Started;
    if n == |events| {
      assert events[..n] == events;
    } else {
      var m := |events| - 1;
      UnforgedPrefix(w, link, events, m);
      assert events[..m][..n] == events[..n];
      RefusalIsFinal(w, link, events[..m], n);
      AcceptedIsPrefix(w, link, events[..m]);
      AdvanceInStep(w, Deliver(w, link, events[..m]), events[m]);
    }
  }
}
