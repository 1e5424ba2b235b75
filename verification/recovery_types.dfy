/** Rows and values of the gateway recovery store. Identifiers, tokens and digests are opaque. */
module RecoveryTypes {
  import opened Outcomes

  type Id = nat
  type Millis = nat

  /** Largest integer carried exactly by the JSON wire format. */
  const MAX_WIRE: nat := 9_007_199_254_740_991
  const RETENTION: Millis := 86_400_000
  const MAX_CLAIMS: nat := 4096
  const MAX_RESPONSE_BYTES: nat := 131_072

  datatype Config = Config(unresolvedCapacity: nat, retainedCapacity: nat, ttl: nat, renewalInterval: nat) {
    predicate Valid() {
      0 < unresolvedCapacity <= retainedCapacity && 5 <= ttl <= 300 && 0 < renewalInterval < ttl
    }
  }

  datatype Error =
    | SqlFailure | InvalidInput | ContractMismatch | ReleaseMismatch | AuthorityNotFound | CounterExhausted
    | HostFenceRequired | LeaseNotFound | LeaseExpired | LeaseRevoked | StaleLease | LeaseBusy
    | InvalidTransition | OperationNotFound | OperationConflict | CapacityExceeded
    | TicketNotFound | TicketExpired

  // ---- authority ------------------------------------------------------------------------------

  datatype BootState = FenceRequired | Ready

  datatype Boot = Boot(
    deployment: Id, instance: Id, incarnation: Id, id: Id, generation: nat,
    release: nat, createdAt: Millis, state: BootState)

  datatype FenceRef = FenceRef(id: Id, generation: nat)

  /** The single authority row: the current boot and, once the host answered, its fence. */
  datatype Authority = Authority(boot: Boot, fence: Option<FenceRef>, fencedAt: Millis)

  /** A host fence together with the boot it was issued for. */
  datatype HostFence = HostFence(
    mark: FenceRef, deployment: Id, instance: Id, incarnation: Id, boot: Id, generation: nat, at: Millis)

  // ---- leases ---------------------------------------------------------------------------------

  datatype Proof = Proof(
    deployment: Id, instance: Id, incarnation: Id, boot: Id, generation: nat, lease: Id, epoch: nat, token: nat)

  datatype LeaseStatus = Active | Expired | Revoked

  datatype Reason = Ttl | IncarnationReplaced | Rekeyed | Stated(text: nat)

  datatype HostState = Uninstalled | PendingInstall | Installed | PendingRenew | PendingRevoke
                     | HostRevoked | RestartInvalidated
  {
    /** States a restart invalidates. */
    predicate Live() {
      PendingInstall? || Installed? || PendingRenew? || PendingRevoke?
    }
  }

  datatype Ack = Ack(message: Id, at: Millis)

  datatype Pending = Pending(sequence: nat, expiresAt: Millis)

  /** Host-side half of a lease. */
  datatype Host = Host(
    state: HostState, fence: Option<FenceRef>, installation: Option<Id>, digest: Option<nat>,
    generation: nat, renewSequence: nat, ack: Option<Ack>, pending: Option<Pending>)

  const NoHost: Host := Host(Uninstalled, None, None, None, 0, 0, None, None)

  datatype Lease = Lease(
    id: Id, deployment: Id, instance: Id, incarnation: Id, boot: Id, generation: nat, epoch: nat, token: nat,
    issuedAt: Millis, expiresAt: Millis, ttl: nat, renewalInterval: nat, lastRenew: nat,
    caller: Id, session: Id, status: LeaseStatus, reason: Option<Reason>, host: Host)
  {
    predicate ProvedBy(p: Proof) {
      deployment == p.deployment && instance == p.instance && incarnation == p.incarnation && boot == p.boot
      && generation == p.generation && epoch == p.epoch
    }

    predicate IssuedUnder(b: Boot) {
      deployment == b.deployment && instance == b.instance && incarnation == b.incarnation && boot == b.id
      && generation == b.generation
    }
  }

  datatype LeaseRequest = LeaseRequest(
    deployment: Id, instance: Id, incarnation: Id, boot: Id, generation: nat, fence: FenceRef,
    caller: Id, session: Id, now: Millis, ttl: nat, renewalInterval: nat)

  function Later(a: Millis, b: Millis): Millis {
    if a > b then a else b
  }

  // ---- operations -----------------------------------------------------------------------------

  datatype OpState = IntentRecorded | MayHaveBeenDispatched | Accepted | Settled | Rejected | Unknown | Reconciled {
    predicate Unresolved() {
      IntentRecorded? || MayHaveBeenDispatched? || Accepted? || Unknown?
    }

    /** How far an operation has come; the three terminal states rank highest. */
    function Rank(): nat {
      match this
      case IntentRecorded => 0
      case MayHaveBeenDispatched => 1
      case Accepted => 2
      case Unknown => 3
      case _ => 4
    }
  }

  /**
   An operation may only advance: a rejection must come before acceptance, an undispatched intent has
   nothing to accept, settle or reconcile, and an unknown outcome can only be reconciled.
   */
  predicate ValidTransition(from: OpState, to: OpState): (r: bool)
    ensures r <==> from == to
                   || (from.Rank() < to.Rank()
                       && (to.Rejected? ==> from.IntentRecorded? || from.MayHaveBeenDispatched?)
                       && (from.IntentRecorded? ==> to.MayHaveBeenDispatched? || to.Rejected? || to.Unknown?)
                       && (from.Unknown? ==> to.Reconciled?))
  {
    from == to
    || match (from, to)
       case (IntentRecorded, MayHaveBeenDispatched) => true
       case (IntentRecorded, Rejected) => true
       case (IntentRecorded, Unknown) => true
       case (MayHaveBeenDispatched, Accepted) => true
       case (MayHaveBeenDispatched, Settled) => true
       case (MayHaveBeenDispatched, Rejected) => true
       case (MayHaveBeenDispatched, Unknown) => true
       case (MayHaveBeenDispatched, Reconciled) => true
       case (Accepted, Settled) => true
       case (Accepted, Unknown) => true
       case (Accepted, Reconciled) => true
       case (Unknown, Reconciled) => true
       case _ => false
  }

  datatype Uncertainty = TransportLost | Timeout | GatewayCrash | HostCrash | ReceiptMissing | AuthorityRotated

  datatype Witness = Witness(
    id: Id, operation: Id, payload: nat, boot: Id, incarnation: Id, fence: Id, source: nat, state: Id,
    generation: nat, effect: nat, observedAt: Millis)

  datatype OpKey = OpKey(instance: Id, operation: Id)

  datatype Intent = Intent(
    operation: Id, deployment: Id, instance: Id, incarnation: Id, boot: Id, generation: nat, lease: Id, epoch: nat,
    schema: nat, canonical: nat, payload: nat, expectedState: Id, expectedGeneration: nat, catalog: nat, now: Millis)
  {
    function Key(): OpKey {
      OpKey(instance, operation)
    }

    /** Everything but the clock reading agrees. */
    predicate Same(other: Intent) {
      this.(now := 0) == other.(now := 0)
    }

    predicate For(p: Proof) {
      deployment == p.deployment && instance == p.instance && incarnation == p.incarnation && boot == p.boot
      && generation == p.generation && lease == p.lease && epoch == p.epoch
    }
  }

  datatype Op = Op(
    intent: Intent, state: OpState, status: Option<nat>, body: Option<seq<nat>>, evidence: Option<Witness>,
    uncertainty: Option<Uncertainty>, updatedAt: Millis)
  {
    /** The witness speaks of this operation and of a later game state. */
    predicate Bound(w: Witness) {
      w.operation == intent.operation && w.payload == intent.payload && w.boot == intent.boot
      && w.incarnation == intent.incarnation && w.generation > intent.expectedGeneration
    }
  }

  datatype Archived = Archived(op: Op, at: Millis)

  // ---- tickets --------------------------------------------------------------------------------

  datatype TicketState = Issued | Admitted | Executing | WitnessRecorded | TicketSettled | TicketRejected | TicketUnknown {
    function Rank(): nat {
      match this
      case Issued => 0
      case Admitted => 1
      case Executing => 2
      case WitnessRecorded => 3
      case _ => 4
    }

    predicate Open() {
      Rank() < 4
    }
  }

  /** A ticket may only advance, and is not rejected any more once its witness is recorded. */
  predicate ValidTicketTransition(from: TicketState, to: TicketState): (r: bool)
    ensures r <==> from.Rank() < to.Rank() && (from.WitnessRecorded? ==> !to.TicketRejected?)
  {
    match from
    case Issued => !to.Issued?
    case Admitted => !to.Issued? && !to.Admitted?
    case Executing => to.Rank() > 2
    case WitnessRecorded => to.TicketSettled? || to.TicketUnknown?
    case _ => false
  }

  datatype Ticket = Ticket(
    id: Id, instance: Id, operation: Id, payload: nat, boot: Id, incarnation: Id, epoch: nat, fence: Id,
    state: TicketState, issuedAt: Millis, expiresAt: Millis)
  {
    function Key(): OpKey {
      OpKey(instance, operation)
    }

    /** Same ticket up to its state. */
    predicate Same(other: Ticket) {
      this.(state := Issued) == other.(state := Issued)
    }

    predicate Fits(op: Op) {
      op.intent.payload == payload && op.intent.boot == boot && op.intent.incarnation == incarnation
      && op.intent.epoch == epoch
    }
  }

  // ---- continuation owners --------------------------------------------------------------------

  datatype Owner = Owner(
    deployment: Id, instance: Id, incarnation: Id, boot: Id, generation: nat, fence: FenceRef,
    lease: Id, epoch: nat, session: Id, expiresAt: Millis)

  datatype OwnerState = Available | Absent | OwnerExpired | OwnerRevoked | OwnerUnknown

  datatype Claim = Claim(operation: Id, owner: Owner, at: Millis)
}
