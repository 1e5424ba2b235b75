/**
 Values handled by the process-lifecycle coordinator: requests, durable operation
 records, ownership rows, process identities and generation keys.
 */
module LifecycleTypes {
  import opened Outcomes

  type InstanceId = nat
  type OperationId = nat
  type ProfileId = nat
  type Handle = nat
  type Epoch = nat

  datatype LeaseProof = LeaseProof(instance: InstanceId, caller: nat, session: nat, lease: nat, epoch: nat)

  datatype StopMode = Graceful | Force

  /** Approved launch profile: what a started process must look like. */
  datatype Profile = Profile(id: ProfileId, executable: nat, userData: nat, maxDescendants: nat)

  datatype ProcessIdentity = ProcessIdentity(
    instance: InstanceId, handle: Handle, pid: nat, birth: nat,
    executable: Option<nat>, userData: Option<nat>)
  {
    predicate Matches(expected: InstanceId, profile: Profile) {
      handle != 0 && pid != 0 && birth != 0 && instance == expected
      && executable == Some(profile.executable) && userData == Some(profile.userData)
    }
  }

  datatype Descendant = Descendant(instance: InstanceId, pid: nat, birth: nat, executable: nat, userData: nat) {
    predicate Matches(expected: InstanceId, profile: Profile) {
      pid != 0 && birth != 0 && instance == expected
      && executable == profile.executable && userData == profile.userData
    }
  }

  /** The observed tree is no larger than the profile allows and wholly inside its scope. */
  predicate InScope(tree: seq<Descendant>, expected: InstanceId, profile: Profile) {
    |tree| <= profile.maxDescendants
    && forall i :: 0 <= i < |tree| ==> tree[i].Matches(expected, profile)
  }

  datatype ProcessState = Running | Exited

  datatype Fault = Unavailable | StartRejected | InspectionFailed | StopFailed | StopTimedOut
                 | ProfileRequired | ProfileNotApproved | FaultIdentityMismatch | DescendantOutOfScope

  datatype StartError = Unsupported | StartFault(fault: Fault)

  datatype Recovery = Found(identity: ProcessIdentity) | Indeterminate

  datatype Action = LaunchNew(profile: ProfileId)
                  | AttachExisting(identity: ProcessIdentity)
                  | Stop(mode: StopMode)
                  | Restart(profile: ProfileId)

  datatype OpState = IntentRecorded | Starting | Started | Attached | Stopping | Restarting
                   | Stopped | Failed | Blocked | Rejected | Unknown
  {
    /** Still to be acted on. */
    predicate Active(): (r: bool)
      ensures r <==> IntentRecorded? || Starting? || Started? || Attached? || Stopping? || Restarting? || Blocked? || Unknown?
    {
      !Stopped? && !Failed? && !Rejected?
    }
  }

  datatype Failure = InstanceBusy | UnownedAttach | IdentityMismatch | ForeignDescendant | ProcessFailure(fault: Fault)

  datatype StoreError = Database | Serialization | NotFound | Conflict

  datatype LifecycleError =
    | LeaseNotBound | FenceRejected | WrongLease | StaleAuthorityEpoch | AuthorityExhausted
    | CapacityExceeded | BusyInstance | NamespaceBusy | InstanceNotFound | OperationConflict
    | OperationNotFound | NotOwnedAttach | MismatchedIdentity | ForeignTree
    | ProcessError(fault: Fault) | ProfileNotFound | NoProfileCapacity | StoreFailed(cause: StoreError)

  function FailureError(failure: Failure): LifecycleError {
    match failure
    case InstanceBusy => BusyInstance
    case UnownedAttach => NotOwnedAttach
    case IdentityMismatch => MismatchedIdentity
    case ForeignDescendant => ForeignTree
    case ProcessFailure(fault) => ProcessError(fault)
  }

  /** Durable write-ahead record of one lifecycle request. */
  datatype Operation = Operation(
    id: OperationId, instance: InstanceId, lease: LeaseProof, sequence: nat,
    requestEpoch: Epoch, authorityEpoch: Epoch, action: Action,
    state: OpState, process: Option<ProcessIdentity>, failure: Option<Failure>)
  {
    function Moved(next: OpState, identity: Option<ProcessIdentity>, why: Option<Failure>): Operation {
      this.(state := next, process := identity, failure := why)
    }

    /** A restart that has taken its new authority epoch. */
    predicate Rotated() {
      authorityEpoch != requestEpoch
    }

    /** Each working state belongs to the actions that pass through it. */
    predicate Fits() {
      match state
      case Starting => action.LaunchNew?
      case Started => action.LaunchNew? || action.Restart?
      case Attached => action.AttachExisting?
      case Stopping => action.Stop?
      case Restarting => action.Restart?
      case _ => true
    }

    /** The fields a record keeps from its insertion on. */
    predicate SameRequest(other: Operation) {
      id == other.id && instance == other.instance && lease == other.lease && sequence == other.sequence
      && requestEpoch == other.requestEpoch && action == other.action
    }
  }

  datatype Key = Key(instance: InstanceId, operation: OperationId)

  function KeyOf(op: Operation): Key {
    Key(op.instance, op.id)
  }

  /** Authoritative owner row; its presence reserves capacity for the instance. */
  datatype Ownership = Ownership(
    instance: InstanceId, operation: OperationId, sequence: nat, profile: ProfileId,
    process: Option<ProcessIdentity>)

  datatype Request = Request(id: OperationId, lease: LeaseProof, epoch: Epoch, action: Action) {
    function Instance(): InstanceId {
      lease.instance
    }
  }

  datatype LifecycleState = StateStarting | StateStopping | StateStopped | StateFailed | StateUnknown

  function LifecycleStateOf(state: OpState): LifecycleState {
    match state
    case IntentRecorded | Starting | Restarting | Started | Attached => StateStarting
    case Stopping => StateStopping
    case Stopped => StateStopped
    case Failed | Blocked | Rejected => StateFailed
    case Unknown => StateUnknown
  }

  datatype Response = Response(
    id: OperationId, instance: InstanceId, lifecycle: LifecycleState, state: OpState,
    process: Option<ProcessIdentity>, epoch: Epoch, failure: Option<Failure>)

  function Respond(op: Operation, lifecycle: LifecycleState): Response {
    Response(op.id, op.instance, lifecycle, op.state, op.process, op.authorityEpoch, op.failure)
  }

  function Max(a: nat, b: nat): nat {
    if a > b then a else b
  }

  // ---- ordering -------------------------------------------------------------------------

  /** Ordering key: unsequenced legacy rows first, by caller id; then server sequence. */
  datatype Order = Order(sequenced: bool, major: nat, minor: nat) {
    predicate AtLeast(other: Order) {
      if sequenced != other.sequenced then sequenced
      else if major != other.major then major > other.major
      else minor >= other.minor
    }
  }

  function OrderOf(sequence: nat, id: OperationId): Order {
    if sequence == 0 then Order(false, id, 0) else Order(true, sequence, id)
  }

  function OperationOrder(op: Operation): Order {
    OrderOf(op.sequence, op.id)
  }

  function OwnerOrder(row: Ownership): Order {
    OrderOf(row.sequence, row.operation)
  }

  // ---- generation keys ------------------------------------------------------------------

  datatype GenerationKind = LaunchGeneration | RestartReplacement

  /** Identity of one authorised process-creation attempt. */
  datatype Generation = Generation(
    instance: InstanceId, operation: OperationId, sequence: nat,
    requestEpoch: Epoch, authorityEpoch: Epoch, profile: ProfileId, kind: GenerationKind)

  function GenerationFor(op: Operation, profile: Profile, kind: GenerationKind): Option<Generation> {
    var shape :=
      match (kind, op.action)
      case (LaunchGeneration, LaunchNew(p)) => p == profile.id && (op.state.Starting? || op.state.Unknown?)
      case (RestartReplacement, Restart(p)) =>
        p == profile.id && (op.state.Restarting? || op.state.Unknown?) && op.Rotated()
      case _ => false;
    if op.sequence == 0 || !shape then None
    else Some(Generation(op.instance, op.id, op.sequence, op.requestEpoch, op.authorityEpoch, profile.id, kind))
  }

  /** Fence checked before a replacement is looked up during restart recovery. */
  predicate PermitsRestartRecovery(op: Operation, current: Epoch) {
    op.sequence != 0 && op.authorityEpoch == current && op.Rotated()
  }
}
