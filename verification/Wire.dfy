/** What both members exchange with the relay, and what their sessions show it: the
    messages, the stop-and-wait sender's wire, and what one Put per sequence means for
    the nonces of sealed frames. */
module Wires {
  import opened Base
  import opened V2
  import opened Octets
  import opened Bootstraps
  import opened Checkpoints

  datatype ClientMessage =
    | Bind
    | AllocateV2(mailboxId: Bytes32, commitment: Bytes32)
    | Open(mailboxId: Bytes32, token: Bytes32)
    | Put(seqNo: u8, body: Bytes)
    | Ack(peerSeq: u8)

  /** Decoded relay responses; `Unexpected` stands for the recognised kinds no
      allocator accepts and `Malformed` for octets the recogniser refuses. */
  datatype ServerMessage =
    | Welcome | AllocatedV2(mailboxId: Bytes32, token: Bytes32, expiresAt: u64)
    | PeerFrame(peerSeq: u8, body: Bytes) | Acknowledged(seqNo: u8)
    | Pong | Closed | Failed | Unexpected | Malformed

  /** The wire schema bounds sequences to 0..15 and bodies to 69,632 octets. */
  predicate FitsWire(m: ClientMessage) {
    (m.Put? ==> m.seqNo <= 15 && 1 <= |m.body| <= 69_632) && (m.Ack? ==> m.peerSeq <= 15)
  }

  /** `relay_message` */
  function RelayMessage(m: ClientMessage): Outcome<ClientMessage> { if FitsWire(m) then Ok(m) else Err(SchemaFault) }

  function PutMessage(w: World, sequence: u8, frame: Frame): Outcome<ClientMessage> {
    var body :- w.encodeFrame(frame);
    RelayMessage(Put(sequence, body))
  }

  /** A checkpoint, and (for the history only) the state it sealed. */
  datatype Saved<State> = Saved(checkpoint: Checkpoint, state: State)

  /** What a session shows the relay: the next sequence it will use, the next peer
      sequence it will accept, the frame it would repeat, and its generation. */
  datatype Wire = Wire(nextLocal: nat, nextPeer: nat, awaiting: bool, outstanding: Option<Frame>, generation: u64) {
    /** Sequences below this are known to be stored. */
    function Floor(): int { nextLocal - if awaiting then 1 else 0 }
  }

  function Blank(): Wire { Wire(0, 0, false, None, 0) }

  /** Which frame each of a member's sequences carries: its share, its Finished value,
      and then sealed frames whose counter runs two behind the sequence. */
  predicate FrameFor(side: Side, frame: Frame, sequence: int) {
    if sequence == 0 then IsShareOf(frame, side)
    else if sequence == 1 then IsFinishedOf(frame, side)
    else frame.Sealed? && frame.direction == side.SendDirection() && frame.counter == sequence - 2
  }

  ghost predicate Framed(w: World, side: Side, m: ClientMessage) {
    m.Put? ==> w.decodeFrame(m.body).Ok? && FrameFor(side, w.decodeFrame(m.body).value, m.seqNo)
  }

  /** A message a state accounts for: it repeats the outstanding frame, or acknowledges
      a peer frame already taken in. */
  ghost predicate Covers(w: World, wire: Wire, m: ClientMessage) {
    && FitsWire(m)
    && (m.Put? ==> wire.awaiting && m.seqNo + 1 == wire.nextLocal && Repeats(w, wire, m.body))
    && (m.Ack? ==> m.peerSeq < wire.nextPeer)
  }

  /** The outstanding frame is retained, and is encoded as this body. */
  ghost predicate Repeats(w: World, wire: Wire, body: Bytes) {
    wire.outstanding.Some? && w.encodeFrame(wire.outstanding.value) == Ok(body)
  }

  /** How one gated call moves the wire: at most one new frame, which is then outstanding. */
  ghost predicate Moves(from: Wire, to: Wire) {
    && to.generation == SaturatingSucc(from.generation)
    && from.nextPeer <= to.nextPeer
    && from.nextLocal <= to.nextLocal <= from.nextLocal + 1
    && (to.nextLocal > from.nextLocal ==> to.awaiting)
    && (to.nextLocal == from.nextLocal && to.awaiting ==> from.awaiting && to.outstanding == from.outstanding)
  }

  ghost predicate OneBodyPerSequence(sent: set<ClientMessage>) {
    forall a, b | a in sent && b in sent && a.Put? && b.Put? && a.seqNo == b.seqNo :: a == b
  }

  /** The message carries this plaintext, sealed by `side` under this key, IV and counter. */
  ghost predicate Encloses(w: World, side: Side, m: ClientMessage, key: Bytes32, iv: Bytes12, transcript: Bytes64,
      counter: u64, plaintext: Bytes)
  {
    && m.Put?
    && var aad := w.sealedAad(side.SendDirection(), counter, transcript);
       w.decodeFrame(m.body)
       == Ok(Sealed(side.SendDirection(), counter, w.encrypt(key, DeriveNonce(iv, counter), aad, plaintext)))
  }

  /** No AEAD nonce protects two plaintexts among these messages. */
  ghost predicate OnePlaintextPerNonce(w: World, side: Side, sent: set<ClientMessage>) {
    forall key, iv, transcript, a, b, counterA: u64, counterB: u64, textA, textB
      | && a in sent && b in sent
        && Encloses(w, side, a, key, iv, transcript, counterA, textA)
        && Encloses(w, side, b, key, iv, transcript, counterB, textB)
        && DeriveNonce(iv, counterA) == DeriveNonce(iv, counterB)
      :: textA == textB
  }

  lemma SameCiphertextSamePlaintext(w: World, side: Side, m: ClientMessage, key: Bytes32, iv: Bytes12,
      transcript: Bytes64, counter: u64, a: Bytes, b: Bytes)
    requires Lawful(w)
    requires Encloses(w, side, m, key, iv, transcript, counter, a)
    requires Encloses(w, side, m, key, iv, transcript, counter, b)
    ensures a == b
  {
    hide DeriveNonce;
    var nonce, aad := DeriveNonce(iv, counter), w.sealedAad(side.SendDirection(), counter, transcript);
    assert w.decrypt(key, nonce, aad, w.encrypt(key, nonce, aad, a)) == Some(a);
    assert w.decrypt(key, nonce, aad, w.encrypt(key, nonce, aad, b)) == Some(b);
  }

  /** Where a sequence has one body and each frame the counter its sequence calls for, two
      frames sealed under one key and IV whose nonces coincide are one message. */
  lemma OneBodyOnePlaintext(w: World, side: Side, sent: set<ClientMessage>, key: Bytes32, iv: Bytes12,
      transcript: Bytes64, a: ClientMessage, b: ClientMessage, counterA: u64, counterB: u64, plaintextA: Bytes,
      plaintextB: Bytes)
    requires Lawful(w) && OneBodyPerSequence(sent) && a in sent && b in sent && Framed(w, side, a) && Framed(w, side, b)
    requires Encloses(w, side, a, key, iv, transcript, counterA, plaintextA)
    requires Encloses(w, side, b, key, iv, transcript, counterB, plaintextB)
    requires DeriveNonce(iv, counterA) == DeriveNonce(iv, counterB)
    ensures a == b && counterA == counterB && plaintextA == plaintextB
  {
    hide Lawful, DeriveNonce;
    NonceIsInjective(iv, counterA, counterB);
    assert a.seqNo == counterA + 2 && b.seqNo == counterB + 2;
    SameCiphertextSamePlaintext(w, side, a, key, iv, transcript, counterA, plaintextA, plaintextB);
  }

  lemma OneBodyManyNonces(w: World, side: Side, sent: set<ClientMessage>)
    requires Lawful(w) && OneBodyPerSequence(sent) && forall m | m in sent :: Framed(w, side, m)
    ensures OnePlaintextPerNonce(w, side, sent)
  {
    hide Encloses, Framed, Lawful, DeriveNonce;
    forall key, iv, transcript, a, b, counterA: u64, counterB: u64, textA, textB
      | && a in sent && b in sent
        && Encloses(w, side, a, key, iv, transcript, counterA, textA)
        && Encloses(w, side, b, key, iv, transcript, counterB, textB)
        && DeriveNonce(iv, counterA) == DeriveNonce(iv, counterB)
      ensures textA == textB
    {
      OneBodyOnePlaintext(w, side, sent, key, iv, transcript, a, b, counterA, counterB, textA, textB);
    }
  }
}
