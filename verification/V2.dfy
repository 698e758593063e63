/** Vocabulary of the protected credential/v2 protocol (src/credential_v2): roles,
    frames, objects, carriers, and the cryptographic and CBOR functions the
    protocol core calls without looking inside them. */
module V2 {
  import opened Base

  datatype Side = Allocator | Claimant {
    function Opposite(): Side { if Allocator? then Claimant else Allocator }
    function SendDirection(): Direction {
      if Allocator? then AllocatorToClaimant else ClaimantToAllocator
    }
    function ReceiveDirection(): Direction { Opposite().SendDirection() }
  }

  datatype Direction = AllocatorToClaimant | ClaimantToAllocator

  datatype Frame =
    | Cpace(shareSide: Side, share: Bytes32, associatedData: Bytes)
    | Finished(finishedSide: Side, value: Bytes64)
    | Sealed(direction: Direction, counter: u64, ciphertext: Bytes)

  datatype Kind =
    | Offer | IntentApprove | IntentDecline | Preparation | ComparisonConfirmed | BindingConfirmed
    | Refusal | FinalApprove | FinalDecline | Payload | Receipt | AccountSelect

  /** A recognised padded object: its canonical bytes and their content hash. */
  datatype Object = Object(kind: Kind, intent: Bytes32, body: Bytes, bytes: Bytes, hash: Bytes32)

  datatype Carrier = Carrier(
    application: Bytes, relayOrigin: Bytes, mailboxId: Bytes32, ceremony: Bytes32, carrierNonce: Bytes32,
    commitment: Bytes32, expiresAt: u64, allocatorKey: Option<Bytes32>)

  datatype Fault =
    | SchemaFault | CpaceFault | KeyScheduleFault | FinishedFault | DirectionFault | CounterFault
    | AuthenticationFault | SizeFault | TerminalFault | ProfileFault | PredecessorFault | PhaseFault
    | ExpiredFault | EncodingFault

  type Outcome<T> = Result<T, Fault>

  /** The parts of a successor body every successor must carry. */
  datatype Logical = Logical(kind: Kind, ceremony: Bytes32, predecessor: Bytes32, bytes: Bytes)

  /** Traffic keys as one role sees them. */
  datatype Keys = Keys(sendKey: Bytes32, receiveKey: Bytes32, sendIv: Bytes12, receiveIv: Bytes12, exporter: Bytes32)

  /** The key schedule waiting for the peer's Finished value. */
  datatype Pending = Pending(transcript: Bytes64, localFinished: Bytes64, peerFinished: Bytes64, keys: Keys)

  /** Everything outside the protocol core, as total functions of their inputs:
      canonical CBOR codecs, CPace, the key schedule, the AEAD, SHA-256 and the
      consumer's body verifier (whose state is the octets it checkpoints). */
  datatype World = World(
    encodeCarrier: Carrier -> Bytes,
    decodeCarrier: Bytes -> Outcome<Carrier>,
    encodeFrame: Frame -> Outcome<Bytes>,
    decodeFrame: Bytes -> Outcome<Frame>,
    decodeObject: Bytes -> Outcome<Object>,
    share: (Side, Carrier, Bytes32, Bytes16, Bytes32) -> Outcome<Frame>,
    schedule: (Side, Carrier, Bytes32, Bytes16, Bytes32, Frame) -> Outcome<Pending>,
    sealedAad: (Direction, u64, Bytes64) -> Bytes,
    encrypt: (Bytes32, Bytes12, Bytes, Bytes) -> Bytes,
    decrypt: (Bytes32, Bytes12, Bytes, Bytes) -> Option<Bytes>,
    sha256: Bytes -> Bytes32,
    logicalBody: Object -> Outcome<Logical>,
    finalStatus: Bytes -> Outcome<Bytes32>,
    recogniseSelection: (Object, Bytes32, Bytes) -> Option<Fault>,
    selectionDigest: Bytes32,
    verifyBody: (Bytes, Logical) -> (Bytes, Option<Fault>))

  /** What the program relies on: codecs invert and never write nothing, a CPace
      share names its own side, and decryption inverts encryption. */
  ghost predicate Lawful(w: World) {
    && (forall c :: w.decodeCarrier(w.encodeCarrier(c)) == Ok(c) && w.encodeCarrier(c) != [])
    && (forall f :: w.encodeFrame(f).Ok? ==>
          w.encodeFrame(f).value != [] && w.decodeFrame(w.encodeFrame(f).value) == Ok(f))
    && w.decodeObject([]).Err?
    && (forall s :: w.decodeObject(s).Ok? ==>
         w.decodeObject(s).value.bytes == s && w.decodeObject(s).value.hash == w.sha256(s))
    && (forall side, carrier, profile, secret, scalar ::
          w.share(side, carrier, profile, secret, scalar).Ok? ==>
            var frame := w.share(side, carrier, profile, secret, scalar).value;
            frame.Cpace? && frame.shareSide == side)
    && (forall key, nonce, aad, text :: w.decrypt(key, nonce, aad, w.encrypt(key, nonce, aad, text)) == Some(text))
  }

  /** An object whose fields are those its canonical bytes decode to. */
  ghost predicate Recognised(w: World, o: Object) {
    w.decodeObject(o.bytes) == Ok(o) && o.hash == w.sha256(o.bytes)
  }
}

/** The relay membership a client keeps across crashes (`CredentialV2RelayState`
    in src/credential_v2/bootstrap.rs): a stop-and-wait sender with one
    outstanding Put, and the next peer sequence it will accept. */
module Projections {
  import opened Base
  import opened V2

  datatype Projection = Projection(
    token: Bytes32, nextLocal: u8, nextPeer: u8, awaitingAck: bool, cached: Option<Frame>)
  {
    function AcceptPeer(sequence: u8): Outcome<Projection> {
      if sequence != nextPeer || nextPeer == 255 then Err(CounterFault)
      else Ok(this.(nextPeer := nextPeer + 1))
    }

    function QueueBootstrap(): Outcome<(Projection, u8)> {
      if awaitingAck || cached.Some? then Err(PhaseFault)
      else if nextLocal == 255 then Err(CounterFault)
      else Ok((this.(nextLocal := nextLocal + 1, awaitingAck := true), nextLocal))
    }

    function AcknowledgeBootstrap(sequence: u8): Outcome<Projection> {
      if nextLocal == 0 || !awaitingAck || sequence != nextLocal - 1 || cached.Some? then Err(CounterFault)
      else Ok(this.(awaitingAck := false))
    }

    predicate AlreadyAcknowledged(sequence: u8) {
      nextLocal > 0 && (sequence < nextLocal - 1 || (sequence == nextLocal - 1 && !awaitingAck))
    }

    function CacheApplication(frame: Frame): Outcome<Projection> {
      if awaitingAck || !frame.Sealed? then Err(PhaseFault)
      else if nextLocal == 255 then Err(CounterFault)
      else Ok(this.(nextLocal := nextLocal + 1, awaitingAck := true, cached := Some(frame)))
    }

    function CachedApplicationSequence(): Outcome<u8> {
      if !awaitingAck || cached.None? then Err(PhaseFault)
      else if nextLocal == 0 then Err(CounterFault)
      else Ok(nextLocal - 1)
    }

    function CachedBootstrapSequence(): Outcome<Option<u8>> {
      if cached.Some? then Err(PhaseFault)
      else if !awaitingAck then Ok(None)
      else if nextLocal == 0 then Err(CounterFault)
      else Ok(Some(nextLocal - 1))
    }

    function AcknowledgeApplication(sequence: u8): Outcome<Projection> {
      var expected :- CachedApplicationSequence();
      if expected != sequence then Err(CounterFault)
      else Ok(this.(cached := None, awaitingAck := false))
    }
  }

  function NewProjection(token: Bytes32): Projection { Projection(token, 0, 0, false, None) }

  /** The object the program updates in place, refining `Projection`. */
  class RelayState {
    var token: Bytes32
    var nextLocal: u8
    var nextPeer: u8
    var awaitingAck: bool
    var cached: Option<Frame>

    ghost function View(): Projection
      reads this
    {
      Projection(token, nextLocal, nextPeer, awaitingAck, cached)
    }

    constructor (token: Bytes32)
      ensures View() == NewProjection(token)
    {
      this.token, nextLocal, nextPeer, awaitingAck, cached := token, 0, 0, false, None;
    }

    method AcceptPeerSequence(sequence: u8) returns (r: Outcome<()>)
      modifies this`nextPeer
      ensures match old(View()).AcceptPeer(sequence)
              case Ok(next) => r == Ok(()) && View() == next
              case Err(e) => r == Err(e) && View() == old(View())
    {
      if sequence != nextPeer || nextPeer == 255 { return Err(CounterFault); }
      nextPeer := nextPeer + 1;
      return Ok(());
    }

    method QueueBootstrapFrame() returns (r: Outcome<u8>)
      modifies this`nextLocal, this`awaitingAck
      ensures match old(View()).QueueBootstrap()
              case Ok((next, sequence)) => r == Ok(sequence) && View() == next
              case Err(e) => r == Err(e) && View() == old(View())
    {
      if awaitingAck || cached.Some? { return Err(PhaseFault); }
      var sequence := nextLocal;
      if nextLocal == 255 { return Err(CounterFault); }
      nextLocal := nextLocal + 1;
      awaitingAck := true;
      return Ok(sequence);
    }

    method AcknowledgeBootstrapFrame(sequence: u8) returns (r: Outcome<()>)
      modifies this`awaitingAck
      ensures match old(View()).AcknowledgeBootstrap(sequence)
              case Ok(next) => r == Ok(()) && View() == next
              case Err(e) => r == Err(e) && View() == old(View())
    {
      if nextLocal == 0 { return Err(CounterFault); }
      if !awaitingAck || sequence != nextLocal - 1 || cached.Some? { return Err(CounterFault); }
      awaitingAck := false;
      return Ok(());
    }

    method CacheApplicationFrame(frame: Frame) returns (r: Outcome<()>)
      modifies this
      ensures match old(View()).CacheApplication(frame)
              case Ok(next) => r == Ok(()) && View() == next
              case Err(e) => r == Err(e) && View() == old(View())
    {
      if awaitingAck || !frame.Sealed? { return Err(PhaseFault); }
      if nextLocal == 255 { return Err(CounterFault); }
      nextLocal := nextLocal + 1;
      cached := Some(frame);
      awaitingAck := true;
      return Ok(());
    }

    method AcknowledgeApplicationFrame(sequence: u8) returns (r: Outcome<()>)
      modifies this`cached, this`awaitingAck
      ensures match old(View()).AcknowledgeApplication(sequence)
              case Ok(next) => r == Ok(()) && View() == next
              case Err(e) => r == Err(e) && View() == old(View())
    {
      if !awaitingAck || cached.None? { return Err(PhaseFault); }
      if nextLocal == 0 || nextLocal - 1 != sequence { return Err(CounterFault); }
      cached := None;
      awaitingAck := false;
      return Ok(());
    }
  }
}
