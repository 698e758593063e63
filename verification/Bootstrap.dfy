/** The allocator before the protected channel exists
    (`CredentialV2AllocatorBootstrap` in src/credential_v2/bootstrap.rs). */
module Bootstraps {
  import opened Base
  import opened V2
  import opened Projections
  import opened Channels

  datatype Mode = Full | Manual

  datatype BootPhase = Allocated | Claimed | ShareSent | FinishedSent

  datatype Presence = Presence(secret: Bytes16, claimToken: Option<Bytes16>)

  datatype Bootstrap = Bootstrap(
    carrier: Carrier, mode: Mode, presence: Presence, profile: Bytes32, relay: Projection, phase: BootPhase,
    scalar: Option<Bytes32>, peerCpace: Option<Frame>, peerFinished: Option<Frame>, pending: Option<Pending>,
    cached: Option<Frame>, generation: u64, nonce: Option<Bytes12>)

  /** `SSPAIR-M1` and three zero octets: how a manual secret starts. */
  const MANUAL_PREFIX: Bytes := [83, 83, 80, 65, 73, 82, 45, 77, 49, 0, 0, 0]

  /** `CredentialV2ManualWords::from_secret` succeeds. */
  predicate ManualSecret(secret: Bytes16) { secret[..12] == MANUAL_PREFIX && secret[12] < 64 }

  function NewBootstrap(carrier: Carrier, presence: Presence, profile: Bytes32, relay: Projection, mode: Mode)
    : Outcome<Bootstrap>
  {
    if mode.Manual? && !ManualSecret(presence.secret) then Err(SchemaFault)
    else if mode.Manual? && carrier.allocatorKey.None? then Err(ProfileFault)
    else Ok(Bootstrap(carrier, mode, presence, profile, relay, Allocated, None, None, None, None, None, 0, None))
  }

  function ClaimantAdmitted(b: Bootstrap): Outcome<Bootstrap> {
    if !b.phase.Allocated? then Err(PhaseFault)
    else if b.presence.claimToken.None? then Err(TerminalFault)
    else Ok(b.(presence := b.presence.(claimToken := None), phase := Claimed))
  }

  function LocalShare(w: World, b: Bootstrap, scalar: Bytes32): Outcome<Frame> {
    w.share(V2.Allocator, b.carrier, b.profile, b.presence.secret, scalar)
  }

  function StartCpace(w: World, b: Bootstrap, scalar: Bytes32): Outcome<(Bootstrap, Frame)> {
    if !b.phase.Claimed? then Err(PhaseFault)
    else
      var frame :- LocalShare(w, b, scalar);
      Ok((b.(scalar := Some(scalar), cached := Some(frame), phase := ShareSent), frame))
  }

  function RetainPeerCpace(b: Bootstrap, frame: Frame): Outcome<Bootstrap> {
    if !b.phase.ShareSent? then Err(PhaseFault)
    else if !frame.Cpace? then Err(SchemaFault)
    else if !frame.shareSide.Claimant? then Err(DirectionFault)
    else if b.peerCpace.Some? && b.peerCpace.value != frame then Err(ProfileFault)
    else Ok(b.(peerCpace := Some(frame)))
  }

  function LocalSchedule(w: World, b: Bootstrap, scalar: Bytes32, peer: Frame): Outcome<Pending> {
    w.schedule(V2.Allocator, b.carrier, b.profile, b.presence.secret, scalar, peer)
  }

  function LocalFinished(pending: Pending): Frame { Finished(V2.Allocator, pending.localFinished) }

  function PrepareFinished(w: World, b: Bootstrap): Outcome<(Bootstrap, Frame)> {
    if !b.phase.ShareSent? || b.peerCpace.None? then Err(PhaseFault)
    else if !b.peerCpace.value.Cpace? then Err(SchemaFault)
    else if b.scalar.None? then Err(PhaseFault)
    else
      var local :- LocalShare(w, b, b.scalar.value);
      if b.cached != Some(local) then Err(ProfileFault)
      else
        var pending :- LocalSchedule(w, b, b.scalar.value, b.peerCpace.value);
        Ok((b.(pending := Some(pending), cached := Some(LocalFinished(pending)), phase := FinishedSent),
            LocalFinished(pending)))
  }

  function RetainPeerFinished(b: Bootstrap, frame: Frame): Outcome<Bootstrap> {
    if !b.phase.FinishedSent? then Err(PhaseFault)
    else if !frame.Finished? then Err(FinishedFault)
    else if !frame.finishedSide.Claimant? then Err(DirectionFault)
    else if b.peerFinished.Some? && b.peerFinished.value != frame then Err(ProfileFault)
    else Ok(b.(peerFinished := Some(frame)))
  }

  /** Consumes the bootstrap: the channel, and the relay membership that outlives it. */
  function Confirm(b: Bootstrap, peer: Frame): Outcome<(Channel, Projection)> {
    if !b.phase.FinishedSent? || b.pending.None? then Err(PhaseFault)
    else if !peer.Finished? || peer.finishedSide.Allocator? || peer.value != b.pending.value.peerFinished
        then Err(FinishedFault)
    else Ok((Confirmed(V2.Allocator, b.pending.value), b.relay))
  }

  /** `projection_is_consistent`: which fields each phase carries. */
  predicate Consistent(b: Bootstrap) {
    && (b.mode.Manual? ==> ManualSecret(b.presence.secret) && b.carrier.allocatorKey.Some?)
    && match b.phase
       case Allocated =>
         b.presence.claimToken.Some? && b.scalar.None? && b.peerCpace.None? && b.peerFinished.None?
             && b.pending.None? && b.cached.None?
       case Claimed =>
         b.presence.claimToken.None? && b.scalar.None? && b.peerCpace.None? && b.peerFinished.None?
             && b.pending.None? && b.cached.None?
       case ShareSent =>
         && b.presence.claimToken.None? && b.scalar.Some? && b.peerFinished.None? && b.pending.None?
         && (b.peerCpace.Some? ==> IsShareOf(b.peerCpace.value, V2.Claimant))
         && b.cached.Some? && IsShareOf(b.cached.value, V2.Allocator)
       case FinishedSent =>
         && b.presence.claimToken.None? && b.scalar.Some?
         && b.peerCpace.Some? && IsShareOf(b.peerCpace.value, V2.Claimant)
         && b.cached.Some? && IsFinishedOf(b.cached.value, V2.Allocator)
         && (b.peerFinished.Some? ==> IsFinishedOf(b.peerFinished.value, V2.Claimant))
  }

  predicate IsShareOf(frame: Frame, side: Side) { frame.Cpace? && frame.shareSide == side }

  predicate IsFinishedOf(frame: Frame, side: Side) { frame.Finished? && frame.finishedSide == side }

  /** `rebuild_pending`: the key schedule of a restored FinishedSent bootstrap. */
  function RebuildPending(w: World, b: Bootstrap): Outcome<Bootstrap> {
    if b.scalar.None? || b.peerCpace.None? || !b.peerCpace.value.Cpace? then Err(SchemaFault)
    else
      var local :- LocalShare(w, b, b.scalar.value);
      var pending :- LocalSchedule(w, b, b.scalar.value, b.peerCpace.value);
      if b.cached != Some(LocalFinished(pending)) then Err(ProfileFault)
      else Ok(b.(pending := Some(pending)))
  }

  /** What the decoder adds to the parsed fields before it trusts them. */
  function Revive(w: World, b: Bootstrap): Outcome<Bootstrap> {
    if !Consistent(b) then Err(SchemaFault)
    else if b.phase.FinishedSent? then RebuildPending(w, b)
    else if b.phase.ShareSent? then
      var local :- LocalShare(w, b, b.scalar.value);
      if b.cached != Some(local) then Err(ProfileFault) else Ok(b)
    else Ok(b)
  }

  /** The cached frame and the key schedule are the ones the retained scalar and the
      peer's share determine, and the phase carries exactly its fields. */
  ghost predicate Derived(w: World, b: Bootstrap) {
    && Consistent(b)
    && b.relay.cached.None?
    && (b.phase.ShareSent? ==> LocalShare(w, b, b.scalar.value) == Ok(b.cached.value))
    && (b.phase.FinishedSent? ==>
          && LocalShare(w, b, b.scalar.value).Ok?
          && b.pending.Some? && LocalSchedule(w, b, b.scalar.value, b.peerCpace.value) == Ok(b.pending.value)
          && b.cached == Some(LocalFinished(b.pending.value)))
  }

  /** Every public bootstrap operation keeps that. */
  lemma OperationsKeepDerived(w: World, b: Bootstrap, scalar: Bytes32, frame: Frame)
    requires Lawful(w) && Derived(w, b)
    ensures ClaimantAdmitted(b).Ok? ==> Derived(w, ClaimantAdmitted(b).value)
    ensures StartCpace(w, b, scalar).Ok? ==> Derived(w, StartCpace(w, b, scalar).value.0)
    ensures RetainPeerCpace(b, frame).Ok? ==> Derived(w, RetainPeerCpace(b, frame).value)
    ensures PrepareFinished(w, b).Ok? ==> Derived(w, PrepareFinished(w, b).value.0)
    ensures RetainPeerFinished(b, frame).Ok? ==> Derived(w, RetainPeerFinished(b, frame).value)
  {
  }

  /** What an allocator session reaches: there the phase also fixes how many frames
      were queued and accepted (a repeated Finished frame takes further sequences), and
      Claimed is never left standing. */
  ghost predicate Reached(w: World, b: Bootstrap) {
    && Derived(w, b)
    && match b.phase
       case Allocated => b.relay.nextLocal == 0 && b.relay.nextPeer == 0 && !b.relay.awaitingAck
       case Claimed => false
       case ShareSent => b.relay.nextLocal == 1 && b.relay.awaitingAck && b.relay.nextPeer == 1 && b.peerCpace.Some?
       case FinishedSent => b.relay.nextLocal == 2 && if b.peerFinished.Some? then b.relay.nextPeer >= 2
           else b.relay.nextPeer == 1
  }
}
