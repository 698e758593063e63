# A verified model of the cbcl-pairing core

This project models the effect-free core of cbcl-pairing in Dafny 4.11 and proves what
it promises: a blind relay that carries sealed frames between two members of a mailbox,
a rate limiter, the credential/v1 consent reducer, and the crash-recoverable
credential/v2 sessions that pair an allocator with a claimant over the relay.
`dafny verify dfyconfig.toml` checks all of it.

What the parts are, in the system's own terms:

- **Sessions that survive crashes.** `V2` (vocabulary and the stop-and-wait relay
  projection), `Bootstrap`, `Channel`, `Endpoint`, `Cursor`, `BootstrapCodec`,
  `EndpointCodec`, `Checkpoint`, `Wire` build up to `Allocator` and `Claimant`.
  `AllocatorSystem` puts the allocator next to its durable checkpoint slot, the real
  mailbox and an unreliable network, with crashes and restores at any point;
  `ClaimantSystem` does the same for the claimant from its new channel on, and
  `ClaimantRefusal` adds what it releases without a checkpoint; `RefusalRun` is one of its
  runs in full. `EndpointRuns` follows whole runs of the hash-chained consent path.
- **The blind relay.** `Mailbox` and `MailboxRuns` are the two-member state machine and
  its runs; `Relay`, `RelayInvariant`, `RelayService`, `RelayRouting` the service, its
  five indexes and its routes; `Storage` the records it restarts from.
- **The limiter.** `LimiterLog` is the reference, an unbounded log per dimension;
  `Limiter`, `LimiterRuns`, `LimiterService` the bounded one.
- **The v1 reducer.** `Reducer`, `ReducerRuns`.
- **Codecs and the map to the curve.** `Presence`, `Manual`, `Handoff`, `Cpace`, `Octets`;
  `Residue`, `Field`, `Elligator`.

Conventions. Code that computes is a function; code that changes things in place is a
class or a loop whose contract ties it to such a function, and the results are lemmas
about the functions. Machine integers keep their width, and saturating, checked and
truncating steps are written out. SHA-256, HMAC, CPace, the key schedule, canonical CBOR
and the consumer's body verifier are function parameters: results hold for all of them,
and `V2.Lawful` states what is relied on (encoders invert and never write nothing, a
recognised object keeps its octets, a share names its side, decryption inverts
encryption); `Hypotheses` exhibits a world that obeys all of it. A sealed checkpoint is
an ideal AEAD value that opens under no other key.
Freedom from collisions is assumed only between the objects two given runs accepted.
Time, randomness, the limiter's decision inside the relay, the store's willingness to
write and every CBCL verdict are inputs.

Where the code and the obvious property part ways, the code is kept and the exact
condition proved: a claimant's Puts keep one body per sequence and one plaintext per nonce
if and only if no Refusal is released between final approval and payload with nothing
cached, since such a Refusal leaves without a checkpoint and a restart uses its sequence
and counter again; the limiter's window bound holds if and only if the window is at most
the 300-second cooldown; the recency bijection breaks exactly when an existing dimension
is touched after the counter has run out; a checkpoint taken after an object's bytes were
omitted and its frame acknowledged seals but never restores, and no other reachable state
does that; checkpoint generations grow by one until they saturate at 2^64 - 1; an expiry
met while claiming or opening is told to the actor alone. A snapshot decoder also accepts
mailboxes whose two members share a hash, which a rebuilt service then refuses, or which
ended while holding bodies, which it does not; the relay writes neither. `append_bstr`
truncates lengths from 65,536 on, which its callers never reach.

## Model

| member | source | states |
|---|---|---|
| `AllocatorSystem.CrashSafety` | src/credential_v2/allocator.rs:378-406 | In every run of calls, durable writes, crashes and restores, under any loss, repetition or reordering of relay messages: all Puts ever released for one sequence carry one body, and every Put and Ack ever released is contained in the durable checkpoint, the last unacknowledged Put with its very body |
| `AllocatorSystem.ReleasedIsContained` | src/credential_v2/allocator.rs:836-898 | Persist before release: when any Put or Ack leaves, the checkpoint in the slot, however it is restored, gives a session that would repeat that very Put or has taken in the frame that Ack names |
| `AllocatorSystem.NeverRefused` | src/mailbox.rs:715-780 | Over the same runs a live mailbox stores every Put the allocator ever released, as a repeat exactly when it was accepted before; it refuses one only once it has ended |
| `AllocatorSystem.NextSequenceAgrees` | src/credential_v2/bootstrap.rs:75-176 | The mailbox's next sequence is the client's next local sequence, or one less while an acknowledgement is awaited, for the durable state and for a live session |
| `AllocatorSystem.OnePlaintextPerNonce` | src/credential_v2/channel.rs:254-278 | Two released frames sealed under one key and IV whose nonces coincide are the same message with the same counter and plaintext |
| `Wires.OneBodyOnePlaintext` | src/credential_v2/channel.rs:254-278 | For either side: where a sequence has one body and its frame the counter two behind it, frames whose nonces coincide under one key and IV are one message with one plaintext |
| `AllocatorSystem.GenerationsAndCounters` | src/credential_v2/allocator.rs:836-898 | A pending checkpoint is one generation after the durable one (saturating), the slot records its own generation, and an established session's next sequence is its send counter plus two |
| `AllocatorSystem.AcknowledgedIsDurable` | src/credential_v2/allocator.rs:790-818 | A peer frame the mailbox dropped on the allocator's acknowledgement is already part of the allocator's durable state |
| `AllocatorSystem.CheckpointIsAlone` | src/credential_v2/allocator.rs:377-394 | In every reachable state, a reply that contains a checkpoint effect contains nothing else |
| `AllocatorSystem.SlotRestoresExactly` | src/credential_v2/allocator.rs:192-261 | In every reachable system a restore of the durable slot succeeds if and only if key, generation, carrier (and for a bootstrap mode and profile) match, the expiry is ahead, and the last object's bytes are present or its frame is still cached |
| `AllocatorSystem.ForgottenRun` | src/credential_v2/checkpoint.rs:491-500 | From every reachable system whose slot holds an own object with its frame cached: once a restore and then that frame's acknowledgement succeed, the run through crash, restore, acknowledgement and write is feasible, and no call whatever restores the slot it leaves |
| `AllocatorSystem.SlotRestores` | src/credential_v2/allocator.rs:192-261 | Whatever arguments a restore gets, the session it returns shows the relay the same sequences, outstanding frame and generation as the slot |
| `AllocatorSystem.EveryRun` | src/credential_v2/allocator.rs:378-898 | The system invariant holds after every feasible sequence of events |
| `AllocatorSystem.NewSessionStarts` | src/credential_v2/allocator.rs:143-183 | A session the constructor accepts, with a mailbox as the relay allocates it, is a start of such a run |
| `AllocatorSystem.StoredSequence` | src/mailbox.rs:715-780 | A Stored answer to the allocator names the next sequence when new and an earlier one when a repeat |
| `AllocatorSteps.ServerProceeds` | src/credential_v2/allocator.rs:425-470 | Any relay response in any state either repeats what the state accounts for, or emits one checkpoint of the new state and holds the rest back, or ends the session |
| `AllocatorSteps.PrepareProceeds` | src/credential_v2/allocator.rs:760-788 | Preparing an object takes at most one new sequence, whose frame is then the outstanding one, behind one checkpoint |
| `AllocatorSteps.OutboundIsSound` | src/credential_v2/endpoint.rs:174-197 | An outbound object is sealed under the counter two behind the sequence it takes, and the endpoint stays in a shape the decoder accepts |
| `AllocatorSteps.FirstShareProceeds` | src/credential_v2/allocator.rs:595-619 | The first peer share yields one checkpoint that already holds the share's reply; Ack and Put wait behind it |
| `AllocatorSteps.RedeliveredProceeds` | src/credential_v2/allocator.rs:567-592 | A redelivered first share only repeats the Ack and the outstanding frame |
| `AllocatorSteps.EstablishProceeds` | src/credential_v2/allocator.rs:708-758 | Establishing carries the relay membership over unchanged into a sound endpoint behind one checkpoint |
| `AllocatorSteps.ShareAcknowledged` | src/credential_v2/allocator.rs:669-689 | The acknowledgement of the share settles sequence 0 and queues the Finished value at sequence 1 |
| `AllocatorSteps.ReopenIsCovered` | src/credential_v2/allocator.rs:472-515 | After a restart only the outstanding frame is repeated, at its own sequence |
| `AllocatorSessions.AllocatorSession.Receive` | src/credential_v2/allocator.rs:378-394 | The object answers and changes as the step function says; a refusal while gated changes nothing, any other refusal erases its secrets |
| `AllocatorSessions.AllocatorSession.Prepare` | src/credential_v2/allocator.rs:409-423 | Likewise for preparing an application object |
| `AllocatorSessions.AllocatorSession.Persisted` | src/credential_v2/allocator.rs:397-406 | Only the awaited generation releases the held-back effects, once |
| `AllocatorSessions.AllocatorSession.HoldBack` | src/credential_v2/allocator.rs:882-898 | The gate replaces the awaited generation and returns the checkpoint alone |
| `AllocatorSessions.AllocatorSession.FirstPeerShare` | src/credential_v2/allocator.rs:595-619 | The first-share branch, field by field |
| `AllocatorSessions.AllocatorSession.PeerFrameArrived` | src/credential_v2/allocator.rs:556-638 | The dispatch on a peer frame, redelivery included |
| `AllocatorSessions.AllocatorSession.AcknowledgementArrived` | src/credential_v2/allocator.rs:640-706 | The dispatch on an acknowledgement, applied ones included |
| `AllocatorSessions.AllocatorSession.EstablishChannel` | src/credential_v2/allocator.rs:708-758 | Establishment, with the bootstrap given up before it can fail |
| `AllocatorSessions.AllocatorSession.PeerApplicationFrame` | src/credential_v2/allocator.rs:790-818 | One authenticated peer object |
| `AllocatorSessions.AllocatorSession.Terminate` | src/credential_v2/allocator.rs:900-906 | Termination leaves no presence, scalar, key or held-back effect |
| `Projections.RelayState.AcceptPeerSequence` | src/credential_v2/bootstrap.rs:75-84 | The stop-and-wait projection, updated in place, is the value-level one |
| `Projections.RelayState.QueueBootstrapFrame` | src/credential_v2/bootstrap.rs:86-97 | Queues at the next sequence only when nothing is outstanding |
| `Projections.RelayState.CacheApplicationFrame` | src/credential_v2/bootstrap.rs:127-141 | Caches one sealed frame as the outstanding one |
| `Projections.RelayState.AcknowledgeApplicationFrame` | src/credential_v2/bootstrap.rs:165-176 | Drops the cached frame only for its own sequence |
| `ClaimantSystem.PersistBeforeRelease` | src/credential_v2/claimant.rs:409-467 | In every run with crashes and restores, each released FinalApprove or Payload Put is contained in the durable checkpoint, with its very body while unacknowledged, no two of them share a sequence, and checkpoints go up one generation at a time |
| `ClaimantSystem.ReleasedIsContained` | src/credential_v2/claimant.rs:409-493 | When such a Put leaves, the checkpoint in the slot, however it is restored, gives a session that would repeat that very Put |
| `ClaimantRefusals.DisciplinedIsSafe` | src/credential_v2/claimant.rs:376-407 | In every run that releases no Refusal between final approval and payload, all Puts a claimant ever releases for one sequence, those without a checkpoint included, carry one body, and no nonce protects two of their plaintexts |
| `ClaimantRefusals.SafeExactlyWithoutRefusal` | src/credential_v2/claimant.rs:376-407 | From any system a disciplined run leads to, with a payload its slot would accept, preparing an early object leaves every later disciplined run safe if and only if the call does not release a Refusal at FinalApproved with nothing cached |
| `ClaimantRefusals.RefusalThenPayload` | src/credential_v2/claimant.rs:658-694 | The failing continuation of every such run: the Refusal leaves at once, then crash, restore of the checkpoint before it and payload give one sequence two bodies and one nonce two plaintexts |
| `ClaimantRefusals.EarlyAtRisk` | src/credential_v2/endpoint.rs:521-549 | Past final approval an early object is released only if it is a Refusal, before the payload and with nothing cached; any other leaves the session as it was or mute for good |
| `ClaimantRefusals.EveryDisciplinedRun` | src/credential_v2/claimant.rs:264-726 | Early Puts stay below the FinalApprove's sequence and durable ones at or above it, through every disciplined run |
| `ClaimantRefusals.EveryRunKeyed` | src/credential_v2/checkpoint.rs:659-711 | A run never changes its channel's keys or transcript, through crashes and restores |
| `RefusalRuns.RefusalRun` | src/credential_v2/claimant.rs:376-407 | One such run in full, from the new channel over every consent step to the durable final approval, the Refusal, the crash and the payload, in any world that refuses nothing |
| `ClaimantSystem.EveryRun` | src/credential_v2/claimant.rs:264-726 | The claimant's invariant over its durable half holds after every feasible sequence of events, relay traffic and early objects before final approval included |
| `ClaimantSystem.BarrierHolds` | src/credential_v2/claimant.rs:658-726 | Passing the barrier emits one checkpoint that seals the state holding the frame |
| `ClaimantSystem.BarrierEmitsOnlyACheckpoint` | src/credential_v2/claimant.rs:409-456 | Preparing FinalApprove or Payload emits exactly one effect, the checkpoint it then waits for |
| `ClaimantSystem.SlotRestores` | src/credential_v2/claimant.rs:208-253 | A restore, whatever its arguments, returns the durable core up to the omitted bytes |
| `ClaimantSystem.SlotRestoresExactly` | src/credential_v2/claimant.rs:208-253 | After every run a restore of the durable slot succeeds if and only if key, generation and carrier match, the expiry of a final approval is ahead, and the last object's bytes are present or its frame is still cached |
| `ClaimantSystem.PeerApplicationHolds` | src/credential_v2/claimant.rs:952-994 | Hearing a peer object before final approval leaves sequence, counter and cached frame as they were and never reaches the durable phases |
| `ClaimantSystem.OutboundStaysWired` | src/credential_v2/endpoint.rs:174-197 | Preparing an object, whatever comes of it, keeps the counter two behind the sequence and both far from their limits |
| `ClaimantSystem.EndedIsBarred` | src/credential_v2/checkpoint.rs:766-801 | An ended claimant endpoint never passes the barrier |
| `ClaimantSystem.DurableKeepsInv` | src/credential_v2/claimant.rs:495-530 | An acknowledgement after final approval is checkpointed before anything else, or leaves at most a settled frame behind |
| `ClaimantSystem.OpenedFits` | src/credential_v2/claimant.rs:540-590 | Opening a Receipt changes nothing of what the claimant sends |
| `ClaimantSessions.ClaimantSession.PassBarrier` | src/credential_v2/claimant.rs:409-456 | The object passes the barrier as the step function says, or is gone |
| `ClaimantSessions.ClaimantSession.ReceiveRelay` | src/credential_v2/claimant.rs:264-286 | The receive path before final approval; any refusal ends the session |
| `ClaimantSessions.ClaimantSession.PeerFrameArrived` | src/credential_v2/claimant.rs:952-994 | One peer object, opened, judged by the endpoint or the offer verifier, and acknowledged |
| `ClaimantSessions.ClaimantSession.PrepareEarlyObject` | src/credential_v2/claimant.rs:376-407 | An object released without a checkpoint |
| `ClaimantSessions.ClaimantSession.CheckpointCurrent` | src/credential_v2/claimant.rs:696-726 | Seals what is current and holds the given effects back |
| `ClaimantSessions.ClaimantSession.ReceiveAcknowledgement` | src/credential_v2/claimant.rs:495-530 | The durable receive path |
| `ClaimantSessions.ClaimantSession.ReceiveReceiptFrame` | src/credential_v2/claimant.rs:540-590 | First half of the Receipt: authenticated, nothing released |
| `ClaimantSessions.ClaimantSession.Commit` | src/credential_v2/claimant.rs:621-648 | Second half: the only acknowledgement, and the session is over |
| `BootstrapCodec.BootstrapRoundTrip` | src/credential_v2/bootstrap.rs:561-713 | Decoding an encoded bootstrap returns it field for field, key schedule rebuilt |
| `BootstrapCodec.OldTagReadsAsFull` | src/credential_v2/bootstrap.rs:604-626 | A plaintext under the v2 tag decodes exactly as the same fields under the v3 tag in Full mode, and never as Manual |
| `BootstrapCodec.DecodeInner` | src/credential_v2/bootstrap.rs:604-687 | The reader that moves one cursor over the input is the decoder |
| `BootstrapCodec.FieldsInvert` | src/credential_v2/bootstrap.rs:567-602 | Every field is read back from where it was written |
| `Cursors.LengthInverts` | src/credential_v2/checkpoint.rs:840-878 | A length-prefixed field reads back; an empty one is refused where the reader demands content |
| `Cursors.Cursor.TakeOctets` | src/credential_v2/bootstrap.rs:827-838 | The cursor takes exactly the next octets, or fails and stays |
| `Cursors.Cursor.TakeOptionalFrame` | src/credential_v2/bootstrap.rs:879-885 | Presence flag, bounded length and frame recogniser in order |
| `EndpointCodec.EndpointRoundTrip` | src/credential_v2/checkpoint.rs:455-607 | A sealed endpoint, channel and membership decode if and only if they are restorable, and then to themselves up to the bytes of a cached outbound object |
| `EndpointCodec.LastInverts` | src/credential_v2/checkpoint.rs:484-506 | The retained object reads back exactly when its bytes describe it |
| `EndpointCodec.ChannelInverts` | src/credential_v2/checkpoint.rs:659-711 | The channel snapshot reads back, keys, counters and flag |
| `EndpointCodec.RelayInverts` | src/credential_v2/checkpoint.rs:609-657 | The membership reads back exactly when awaiting and cache agree and the cached frame is sealed |
| `Checkpoints.BootstrapRestoresExactly` | src/credential_v2/bootstrap.rs:473-529 | A sealed bootstrap opens if and only if key, carrier, generation and mode are its own and its expiry is ahead, and then to the very state sealed |
| `Checkpoints.EndpointRestoresExactly` | src/credential_v2/checkpoint.rs:226-310 | A sealed endpoint restores under its bindings if and only if it is restorable |
| `Checkpoints.OnlyForgottenBytesBar` | src/credential_v2/checkpoint.rs:580-591 | For every state a session holds, restorability is exactly that absent bytes belong to an own, still cached object |
| `Checkpoints.ForgottenThenAcknowledged` | src/credential_v2/checkpoint.rs:491-500 | The state restored without bytes and then acknowledged seals but never restores |
| `Checkpoints.ForgottenOffer` | src/credential_v2/checkpoint.rs:580-591 | A concrete family of such states: after a sent Offer, a restart and its acknowledgement, for every carrier up to 4,000 octets |
| `Checkpoints.EndpointIsNoBootstrap` | src/credential_v2/allocator.rs:203-243 | The bootstrap decoder refuses every endpoint plaintext |
| `Checkpoints.BootstrapIsNoEndpoint` | src/credential_v2/allocator.rs:203-243 | The endpoint decoder refuses every bootstrap plaintext |
| `Bootstraps.OperationsKeepDerived` | src/credential_v2/bootstrap.rs:340-470 | Every bootstrap operation keeps cached frame and key schedule the ones the retained scalar and peer share determine |
| `EndpointRuns.SameLastObjectSameHistory` | src/credential_v2/endpoint.rs:289-437 | Two endpoints, on either side and after any runs, whose last objects have one content hash accepted the same objects from the Offer on, receipt recovery included |
| `EndpointRuns.NoConsentStepSkipped` | src/credential_v2/endpoint.rs:521-576 | The accepted kinds of every run are the one road to its phase, each from the role that may send it |
| `EndpointRuns.AcceptanceRaisesRank` | src/credential_v2/endpoint.rs:325-442 | Every accepted object strictly raises the phase rank and no call lowers it |
| `EndpointRuns.ExecuteSealable` | src/credential_v2/checkpoint.rs:713-801 | Every endpoint for which sealing is allowed has the shape the checkpoint decoder demands |
| `EndpointRuns.ExecuteTraced` | src/credential_v2/endpoint.rs:325-437 | After every run the endpoint's intent, last object and phase are those of its accepted history, each successor bound to the hash before it |
| `EndpointRuns.ChainsAgree` | src/credential_v2/endpoint.rs:454-479 | Two hash chains that end alike are equal |
| `EndpointRuns.OnlyRoad` | src/credential_v2/endpoint.rs:546-576 | A sequence of kinds leads to a phase only along its road |
| `Endpoints.CredentialEndpoint.ApplyObject` | src/credential_v2/endpoint.rs:325-401 | The reducer object applies an object as the function says |
| `Endpoints.CredentialEndpoint.AcceptObject` | src/credential_v2/endpoint.rs:425-437 | Acceptance sets intent, last object and phase |
| `Channels.AcceptedIsPrefix` | src/channel.rs:234-328 | Under an ideal AEAD and any arrivals, accepted plaintexts are a prefix of the sealed ones, and a refusal is exactly a terminal channel |
| `Channels.HonestFrameOpens` | src/channel.rs:268-311 | The next frame of an honest peer opens to its plaintext |
| `Channels.RefusalIsFinal` | src/channel.rs:324-328 | After the first refused frame nothing is ever accepted again |
| `Channels.SecureChannel.Seal` | src/channel.rs:234-265 | Seals under the next counter and advances it |
| `Channels.SecureChannel.Open` | src/channel.rs:268-311 | Opens only the exact next counter; any deviation ends the channel |
| `Octets.NonceIsInjective` | src/channel.rs:332-338 | Different counters give different nonces under one IV |
| `Octets.DeriveNonceInPlace` | src/channel.rs:332-338 | The exclusive-or loop computes the nonce |
| `MailboxRuns.OpenDeliversUnread` | src/mailbox.rs:693-714 | After every run, resuming a membership delivers in order exactly the peer's accepted and unacknowledged bodies |
| `MailboxRuns.DeliveredIsFirstAccepted` | src/mailbox.rs:715-780 | Whatever is delivered for a sequence is the first body accepted for it, not yet acknowledged |
| `MailboxRuns.RetryIsImmutable` | src/mailbox.rs:715-752 | A Put at an accepted sequence is acknowledged again exactly when length and digest repeat, and otherwise closes the mailbox as a conflict |
| `MailboxRuns.RunAgrees` | src/mailbox.rs:620-842 | After every run the mailbox holds exactly what the history of commands and answers says |
| `MailboxRuns.AcceptedIsStable` | src/mailbox.rs:753-778 | A body once accepted keeps its place |
| `Mailbox.TransitionValid` | src/mailbox.rs:620-823 | Every command keeps sequences contiguous and at most sixteen, the queue total exact, and a terminal mailbox empty |
| `Mailbox.TransitionContinues` | src/mailbox.rs:620-823 | Identity, expiry and members never change, and only a Put grows the queue |
| `Mailbox.DeleteBodies` | src/mailbox.rs:582-602 | The deletion loops leave no body, report each one, and never subtract more than is queued |
| `Mailbox.AllocateValid` | src/mailbox.rs:330-359 | A new mailbox is valid and expires in the future |
| `Mailbox.AllocateV2Valid` | src/mailbox.rs:362-385 | Likewise for a protected mailbox |
| `RelayInvariant.IndexesAgreeAfterEveryRun` | src/relay.rs:205-310 | After every sequence of calls, store refusals included, nameplates, hashes, expiries and queue total equal those recomputed from the mailboxes, hashes are disjoint, both caps hold, routes and seats are inverse, and the store holds the live mailboxes |
| `RelayInvariant.EveryRunKeeps` | src/relay.rs:142-310 | The same from any consistent start, a service rebuilt from its store included |
| `RelayInvariant.HandleKeeps` | src/relay.rs:205-284 | One request keeps all of that |
| `RelayInvariant.CommitKeeps` | src/relay.rs:821-845 | A committed transition keeps all of that and changes one mailbox only |
| `RelayInvariant.RemoveKeeps` | src/relay.rs:860-890 | Removing a mailbox removes exactly its entries from every index |
| `RelayInvariant.AttachSeats` | src/relay.rs:787-805 | Attaching keeps routes and seats inverse |
| `RelayInvariant.OperatorCloseSucceeds` | src/relay.rs:355-378 | The operator's rollback meets no mailbox it cannot close |
| `RelayServices.RelayService.Sweep` | src/relay.rs:298-311 | The sweep ends, leaves exactly the mailboxes expiring later, and tells exactly the seats of what is gone; a refused removal leaves everything consistent |
| `RelayServices.RelayService.FirstAvailableNameplate` | src/relay.rs:334-346 | The least positive number no retained mailbox owns, or none when all are taken |
| `RelayServices.FirstGap` | src/relay.rs:335-345 | The loop over ascending keys finds the first gap |
| `RelayServices.RestartEquivalence` | src/relay.rs:142-202 | Rebuilding from the store in any order succeeds and yields the live mailboxes, indexes and queue total |
| `RelayServices.RebuiltIsConsistent` | src/relay.rs:159-183 | Whatever mailboxes a store yields, a service that starts from them lists exactly those, each with two different members, and is consistent exactly when each is a mailbox the relay can retain |
| `RelayServices.RebuildFrom` | src/relay.rs:159-202 | The rebuilding loop loads the mailboxes, refusing a repeated identifier, nameplate or hash, within one mailbox too |
| `RelayServices.RelayService.HandleRequest` | src/relay.rs:205-284 | The object answers and changes as the request function says |
| `RelayServices.RelayService.MemberCommand` | src/relay.rs:695-785 | A member's Put, Ack or Close |
| `RelayServices.RelayService.ClaimMailbox` | src/relay.rs:453-514 | A claim by locator |
| `RelayServices.RelayService.ClaimMailboxV2` | src/relay.rs:575-632 | A protected claim |
| `RelayServices.RelayService.OpenMailbox` | src/relay.rs:634-693 | A resumed membership |
| `RelayServices.RelayService.AllocateMailbox` | src/relay.rs:381-451 | An allocation, store first |
| `RelayServices.RelayService.AllocateMailboxV2` | src/relay.rs:516-573 | A protected allocation |
| `RelayServices.RelayService.AttachTo` | src/relay.rs:787-805 | Attachment in place |
| `RelayServices.RelayService.DisconnectFrom` | src/relay.rs:287-295 | Disconnection in place |
| `RelayServices.RelayService.CommitStep` | src/relay.rs:821-845 | The commit: the store first, then the tables |
| `RelayServices.RelayService.RemoveMailbox` | src/relay.rs:860-890 | Removal in place |
| `RelayRouting.FramesReachOnlyThePeer` | src/relay.rs:634-785 | Whatever is asked, a frame leaves only as the body of the Put being handled, to the connection seated as the sender's peer, or on a resume as a body the peer stored and nobody acknowledged, to the connection that resumed |
| `RelayRouting.OpenReturnsHeld` | src/relay.rs:634-693 | Resuming a live mailbox answers with the peer's bodies still held, all of them and in order |
| `RelayRouting.ClosureReachesEverySeat` | src/relay.rs:757-785 | A member's command that ends the mailbox is told to everyone seated at it |
| `RelayRouting.ExpiryTellsOnlyTheActor` | src/relay.rs:453-693 | An expiry met while opening, or claiming by identifier or by nameplate, removes the mailbox and tells the actor alone; a protected claim gets a mere failure |
| `Storages.StoredMailboxReturns` | src/storage.rs:197-331 | Every mailbox the relay can retain comes back from its record unchanged |
| `Storages.RecordRoundTrip` | src/storage.rs:197-443 | Reading a record gives the snapshot written |
| `Storages.SnapshotRoundTrip` | src/mailbox.rs:423-552 | A snapshot of a valid mailbox restores to it |
| `Storages.DecodedIsValid` | src/mailbox.rs:455-552 | A decoded mailbox satisfies the invariant exactly when its members differ and, if ended, it holds no body |
| `Storages.SharedHashDecodes` | src/mailbox.rs:505-530 | A record whose two members share a hash decodes to a mailbox outside the invariant |
| `Storages.MemoryMailboxStore.Put` | src/storage.rs:77-81 | A write replaces one mailbox of what a load gives back |
| `Storages.MemoryMailboxStore.Load` | src/storage.rs:73-75 | A load decodes every record or fails at a malformed one |
| `Restarts.RestartAfterEveryRun` | src/storage.rs:197-443 | After every run of the service its records decode and the rebuilt service equals the live one without connections |
| `Restarts.RebuiltFromRecords` | src/relay.rs:159-202 | Whatever decodable records a store holds, a service rebuilt from them is consistent if and only if no ended mailbox among them holds a body |
| `Restarts.EndedBodyRebuilds` | src/mailbox.rs:455-552 | Such a record exists: it decodes and rebuilds |
| `LimiterRuns.DecisionIsTheLogs` | src/limiter.rs:232-298 | For any schedule of sweeps and backwards clocks every decision, remaining and retry time included, is that of an unbounded log of the dimension since its last eviction, until the recency counter runs out and every attempt is refused |
| `LimiterRuns.AdmissionsBounded` | src/limiter.rs:253-298 | With a window of at most 300 seconds no half-open interval of that width holds more than the limit of allowed attempts |
| `LimiterLogs.BoundExactlyWhenWindowFits` | src/limiter.rs:259-277 | The bound holds of every log if and only if the window is at most 300 seconds |
| `LimiterLogs.ComebackIsFeasible` | src/limiter.rs:263-264 | For every longer window: the budget, one refusal, and an attempt when its cooldown is over exceed the limit |
| `LimiterRuns.AttemptOrdered` | src/limiter.rs:392-415 | Entries and recency records stay in bijection and within the cap exactly when no existing dimension is touched with the recency counter run out |
| `LimiterRuns.EvictionIsLeastRecent` | src/limiter.rs:408-415 | Eviction removes exactly the dimension whose last check is the oldest |
| `LimiterRuns.AttemptAgrees` | src/limiter.rs:253-298 | One check decides as the log does and goes on tracking it |
| `LimiterRuns.SweepAgrees` | src/limiter.rs:417-442 | A sweep is invisible to every later decision |
| `LimiterRuns.EveryRun` | src/limiter.rs:232-351 | The limiter tracks its logs through every run |
| `LimiterRuns.OrderedUntilExhausted` | src/limiter.rs:383-415 | Until the recency counter runs out, entries and recency records are in bijection, numbered by last check, and within the cap |
| `LimiterServices.PruneAttempts` | src/limiter.rs:444-452 | The loop drops exactly the attempts at the front that left the window |
| `LimiterServices.Limiter.CheckAttempt` | src/limiter.rs:232-298 | The object decides and changes as the function says |
| `LimiterServices.Limiter.SweepInner` | src/limiter.rs:417-442 | The two passes of a sweep in place |
| `LimiterServices.Limiter.EvictLru` | src/limiter.rs:408-415 | Removes the first recency record and its entry |
| `LimiterServices.Limiter.ObserveTime` | src/limiter.rs:344-351 | The clock is the high-water mark and counts reversals |
| `LimiterServices.Limiter.TouchDimension` | src/limiter.rs:392-406 | The old record goes before the new number is taken |
| `ReducerRuns.OneConsentedGrant` | src/endpoint.rs:1043-1078 | In every run, whatever monitors and peer answer: at most one grant, only on the claimant's side, only for an intent this endpoint approved, only after a matching Finished value gave it its channel |
| `ReducerRuns.EndedHoldsNothing` | src/endpoint.rs:1164-1179 | Once ended: no keys, the invitation spent, and no later call yields an effect |
| `ReducerRuns.OneAttemptPerInvitation` | src/endpoint.rs:72-97 | A bound invitation serves one attempt, any other spends it, and a spent one never returns |
| `ReducerRuns.EveryRun` | src/endpoint.rs:396-1078 | The consent invariant holds after every run |
| `ReducerRuns.PassIsSound` | src/endpoint.rs:926-968 | A pass over early controls grants no more than it counts, and only what was approved |
| `ReducerRuns.NothingAfterTheEnd` | src/endpoint.rs:474-494 | A terminal reducer leaves every call without effect |
| `ReducerServices.EndpointReducer.RetryAll` | src/endpoint.rs:926-968 | The retry loop ends, because each pass that admits something leaves fewer, and computes the retry function |
| `ReducerServices.EndpointReducer.AdmitApplication` | src/endpoint.rs:888-924 | Admission of a body, queued when the monitor does not know yet |
| `ReducerServices.EndpointReducer.DecideNow` | src/endpoint.rs:576-635 | The person's one decision |
| `ReducerServices.EndpointReducer.TakePayload` | src/endpoint.rs:1043-1078 | The payload gate |
| `ReducerServices.EndpointReducer.Terminate` | src/endpoint.rs:1164-1179 | Termination drops every secret-bearing part and spends the invitation |
| `ReducerServices.InvitationRecord.BindAttempt` | src/endpoint.rs:72-97 | Binding in place |
| `PresenceCodes.PrintedParses` | src/credential_v2/presence.rs:68-137 | Parsing a printed code returns both secrets |
| `PresenceCodes.AcceptedPrintsBack` | src/credential_v2/presence.rs:97-137 | Any accepted text printed back is its upper-case form |
| `PresenceCodes.PayloadReturns` | src/credential_v2/presence.rs:55-88 | 272 bits survive the cut into 55 symbols with three zero bits |
| `PresenceCodes.SymbolsReturn` | src/credential_v2/presence.rs:113-129 | And 55 symbols without set padding bits survive the way back |
| `PresenceCodes.WriteSymbols` | src/credential_v2/presence.rs:72-86 | The printing loops compute the symbols |
| `PresenceCodes.ReadSymbols` | src/credential_v2/presence.rs:113-129 | The parsing loops fill the 34-octet buffer or refuse a set padding bit |
| `ManualWords.PhraseParses` | src/credential_v2/manual.rs:228-276 | Thirty bits survive the trip through 33 bits, three eleven-bit indices and three words |
| `ManualWords.AcceptedEncodesBack` | src/credential_v2/manual.rs:245-276 | An accepted phrase encodes to its three words in small letters with single blanks |
| `ManualWords.EncodeWords` | src/credential_v2/manual.rs:228-242 | The loop over the shifts writes the phrase |
| `ManualWords.ReadIndices` | src/credential_v2/manual.rs:257-266 | The loop finds each word by halving the ordered list and shifts in eleven bits per word |
| `ManualWords.BinarySearch` | src/credential_v2/manual.rs:259-262 | Halving an ordered list finds what looking at every word finds |
| `ManualWords.ManualSecretsAre` | src/credential_v2/manual.rs:204-225 | The recognised manual secrets are exactly the thirty-bit values |
| `Handoffs.StringExact` | src/credential_v2/handoff.rs:193-218 | A string is accepted if and only if it is its own minimal encoding, section 4.2.1 of RFC 8949 |
| `Handoffs.LengthExact` | src/credential_v2/handoff.rs:193-217 | A length is read exactly from its shortest head |
| `Handoffs.HandoffExact` | src/credential_v2/handoff.rs:112-157 | The recogniser accepts exactly what the encoder writes and reads back its parts |
| `Handoffs.HandoffBound` | src/credential_v2/handoff.rs:73-95 | The declared decoded bound is the exact maximum |
| `Handoffs.ManualExact` | src/credential_v2/manual.rs:103-143 | Likewise for the manual bootstrap array |
| `Handoffs.AppendBstr` | src/credential_v2/handoff.rs:162-172 | Appends what the code writes for every length, the 16-bit cast of long ones included |
| `Handoffs.BstrReadsExactly` | src/credential_v2/handoff.rs:162-218 | The reader undoes it if and only if the length is below 65,536 |
| `Handoffs.BuildHandoff` | src/credential_v2/handoff.rs:73-95 | The appending encoder writes that array |
| `Handoffs.SchemaParser.TakeString` | src/credential_v2/handoff.rs:193-218 | The parser object reads one string off the front |
| `Cpace.GeneratorStringInjective` | src/cpace.rs:96-127 | Different secrets, channels or sessions never share a generator string, Appendix A of draft-irtf-cfrg-cpace-21 |
| `Cpace.Leb128PrefixFree` | src/cpace.rs:282-292 | No encoded length is a proper prefix of another |
| `Cpace.Leb128RoundTrip` | src/cpace.rs:282-292 | An encoded length reads back |
| `Cpace.Leb128Size` | src/cpace.rs:273-280 | The size loop counts the encoding's octets |
| `Cpace.AppendLeb128` | src/cpace.rs:282-292 | The append loop writes the encoding |
| `Cpace.PaddingFillsTheBlock` | src/cpace.rs:101-105 | Domain, secret and padding fill exactly one SHA-512 block when they fit |
| `Cpace.BuildGeneratorString` | src/cpace.rs:119-126 | The appending builder writes the generator string |
| `Cpace.KeyInputInjective` | src/cpace.rs:253-261 | Two key inputs are equal only if every part is |
| `Field.Pow` | src/cpace/field.rs:81-92 | For every base and every little-endian exponent, the power modulo 2^255 - 19 |
| `Field.ExponentsAre` | src/cpace/field.rs:13-21 | The two exponent constants are p - 2 and (p - 1) / 2 |
| `Field.Invert` | src/cpace/field.rs:94-96 | The power p - 2, which for a prime p is the inverse of every non-zero element |
| `Elligator.MapToCurve` | src/cpace/field.rs:101-113 | The program's map, which for a prime p yields a u-coordinate of the curve |
| `Elligator.MapLandsOnCurve` | src/cpace/field.rs:101-113 | Section 6.7.1 of RFC 9380: for prime p every representative is mapped to the u-coordinate of a point of Curve25519 |
| `Elligator.MapChoosesCandidate` | src/cpace/field.rs:109-112 | The map yields the first candidate when its curve value is a square and -v - A when it is not; the value is never zero |
| `Elligator.DenominatorIsUnit` | src/cpace/field.rs:104-105 | 1 + 2 r^2 is never zero, so the inversion is one |
| `Elligator.OtherValue` | src/cpace/field.rs:106-112 | The curve value of -v - A is 2 r^2 times that of v |
| `Residues.Euler` | src/cpace/field.rs:18-21 | Euler's criterion: the power (p - 1) / 2 is 1 for squares and -1 for the rest |
| `Residues.Fermat` | src/cpace/field.rs:13-16 | The power p - 1 is one, and the power p - 2 the inverse |

## Left out

- ClaimantSystem.PersistBeforeRelease: covers FinalApprove and Payload Puts; every Put, those released without a checkpoint included, is the subject of ClaimantRefusals.DisciplinedIsSafe.
- Channels.AcceptedIsPrefix: assumes of each arriving frame that it decrypts only to what the peer sealed under that nonce; the AEAD itself is not modelled.
- Field.Invert: that 2^255 - 19 is prime is a hypothesis of this and of the results of `Elligator`, not proved.
- ClaimantRefusals.SafeExactlyWithoutRefusal: takes a payload the slot would accept as given; without one the Refusal stays the only body of its sequence.
- Progress of crash recovery: a redelivered peer frame other than the first share ends a session, so only safety is stated.
- The claimant before its channel is established (claim, share, Finished): memory-only and never restored; its two Puts enter as any two at sequences 0 and 1.
- Read-only inspection of checkpoints (src/credential_v2/inspection.rs) and the accessors of the sessions.
- Canonical CBOR, CDDL recognition and base64url texts of carriers, frames, objects and wire messages: parameters that invert.
- The outer CBOR envelope, HKDF and AES-GCM of a checkpoint: replaced by the ideal value.
- Real cryptography, constant-time comparison and zeroization: erasure is modelled as fields becoming absent.
- FileMailboxStore: directory entries, temporary files and synchronisation; the store is an atomic map that may refuse a write.
- Peer-address canonicalisation and the HMAC in the limiter: a dimension is an operation and an opaque key.
- Observability, metrics and logs of the relay, and the sampling of nameplates.
- CBCL dialects and monitors (src/cbcl_protocol.rs): any verdict at any consultation.
- The v1 invitation record's CBOR form, application profiles and display values.
- Binaries, examples, tools, fuzz targets and the web demo.
