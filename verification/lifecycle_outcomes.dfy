/**
 How a lifecycle call ends, as a function of what the process port answered: for every sequence of
 answers, which calls are made next, what the record becomes and what the caller is told. The
 coordinator (module `Lifecycle`) proves that it ends this way whenever the store did not fail.
 */
module LifecycleOutcomes {
  import opened Outcomes
  import opened LifecycleTypes
  import opened LifecycleLog

  /** The process-port calls of a history, in order. */
  function Ports(log: seq<Entry>): seq<PortCall> {
    if log == [] then []
    else
      var last := log[|log| - 1];
      Ports(log[..|log| - 1]) + if last.Called? then [last.port] else []
  }

  lemma PortsOne(e: Entry)
    ensures Ports([e]) == if e.Called? then [e.port] else []
  {
    assert [e][..0] == [];
  }

  lemma {:induction false} PortsTogether(a: seq<Entry>, b: seq<Entry>)
    ensures Ports(a + b) == Ports(a) + Ports(b)
  {
    if b == [] {
      assert a + b == a;
    } else {
      assert (a + b)[..|a + b| - 1] == a + b[..|b| - 1];
      PortsTogether(a, b[..|b| - 1]);
    }
  }

  /** The calls of two stretches of a history, one after the other. */
  lemma InTurn(first: seq<Entry>, second: seq<Entry>, third: seq<Entry>)
    requires first <= second <= third
    ensures Ports(third[|first|..]) == Ports(second[|first|..]) + Ports(third[|second|..])
    ensures first == second ==> Ports(second[|first|..]) == []
    ensures second == third ==> Ports(third[|second|..]) == []
    ensures Ports(second[|first|..]) == [] ==> Ports(third[|first|..]) == Ports(third[|second|..])
    ensures Ports(third[|second|..]) == [] ==> Ports(third[|first|..]) == Ports(second[|first|..])
  {
    assert third[|first|..] == second[|first|..] + third[|second|..];
    PortsTogether(second[|first|..], third[|second|..]);
  }

  lemma TwoHeads(call: PortCall, rest: seq<PortCall>)
    requires rest != []
    ensures ([call] + rest)[1] == rest[0] && ([call] + rest)[2..] == rest[1..]
  {
  }

  // ---- what the tables say ------------------------------------------------------------------------

  /** A record of the instance with a process, active, under the bound lease. */
  predicate BearsIn(t: Tables, leases: map<InstanceId, LeaseProof>, i: InstanceId, k: Key) {
    k in t.records && k.instance == i && t.records[k].process.Some? && t.records[k].state.Active()
    && t.records[k].instance in leases && leases[t.records[k].instance] == t.records[k].lease
  }

  /**
   The operation an instance's process is authorised by, leaving out one operation: the owner if there
   is an owner row; otherwise the newest record, or, if that is the one left out, the newest other one.
   */
  ghost predicate AuthorizesIn(t: Tables, leases: map<InstanceId, LeaseProof>, i: InstanceId, excluded: Option<OperationId>, k: Key) {
    BearsIn(t, leases, i, k) && Some(k.operation) != excluded
    && (if i in t.ownership then k.operation == t.ownership[i].operation
        else Newest(t.records, k)
             || (excluded.Some? && Newest(t.records, Key(i, excluded.value))
                 && forall j :: BearsIn(t, leases, i, j) && Some(j.operation) != excluded ==>
                      t.records[j].sequence <= t.records[k].sequence))
  }

  /** The operation that authorises the process of an instance apart from `op`, and the profile it is held to. */
  ghost predicate Prior(cfg: Config, t: Tables, leases: map<InstanceId, LeaseProof>, op: Operation,
                        previous: Option<Operation>, profile: Option<Profile>)
  {
    && (previous.Some? <==> exists k :: AuthorizesIn(t, leases, op.instance, Some(op.id), k))
    && (previous.Some? ==> KeyOf(previous.value) in t.records && t.records[KeyOf(previous.value)] == previous.value
                           && AuthorizesIn(t, leases, op.instance, Some(op.id), KeyOf(previous.value)))
    && (profile.Some? <==> previous.Some? && exists p :: Governs(cfg, t, previous.value, p))
    && (profile.Some? ==> Governs(cfg, t, previous.value, profile.value))
  }

  /** The profile the tables give an operation, if any. */
  ghost predicate HeldBy(cfg: Config, t: Tables, op: Operation, profile: Option<Profile>) {
    (profile.Some? <==> exists p :: Governs(cfg, t, op, p)) && (profile.Some? ==> Governs(cfg, t, op, profile.value))
  }

  // ---- what the caller is told --------------------------------------------------------------------

  /** The lifecycle state that stands for the state of a record. */
  predicate Shows(lifecycle: LifecycleState, state: OpState) {
    match lifecycle
    case StateStarting => state.IntentRecorded? || state.Starting? || state.Restarting? || state.Started? || state.Attached?
    case StateStopping => state.Stopping?
    case StateStopped => state.Stopped?
    case StateFailed => state.Failed? || state.Blocked? || state.Rejected?
    case StateUnknown => state.Unknown?
  }

  /** The error that stands for a failure. */
  function ErrorFor(failure: Failure): LifecycleError {
    match failure
    case InstanceBusy => BusyInstance
    case UnownedAttach => NotOwnedAttach
    case IdentityMismatch => MismatchedIdentity
    case ForeignDescendant => ForeignTree
    case ProcessFailure(fault) => ProcessError(fault)
  }

  /** A complete identity of this instance, of the executable and user data of the profile. */
  predicate Belongs(identity: ProcessIdentity, instance: InstanceId, profile: Profile) {
    identity.handle != 0 && identity.pid != 0 && identity.birth != 0 && identity.instance == instance
    && identity.executable == Some(profile.executable) && identity.userData == Some(profile.userData)
  }

  /** No more descendants than the profile allows, each complete and of its instance, executable and user data. */
  predicate Within(tree: seq<Descendant>, instance: InstanceId, profile: Profile) {
    |tree| <= profile.maxDescendants
    && forall i :: 0 <= i < |tree| ==>
         tree[i].pid != 0 && tree[i].birth != 0 && tree[i].instance == instance
         && tree[i].executable == profile.executable && tree[i].userData == profile.userData
  }

  /** The record is left in this state, with this process and failure, and the caller is told so. */
  predicate Told(op: Operation, state: OpState, process: Option<ProcessIdentity>, failure: Option<Failure>,
                 lifecycle: LifecycleState, after: Operation, r: Result<Response, LifecycleError>)
  {
    after == op.(state := state, process := process, failure := failure)
    && r == Ok(Response(op.id, op.instance, lifecycle, state, process, op.authorityEpoch, failure))
  }

  /** The record is left in this state with the failure as the reason, and the call is an error. */
  predicate Barred(op: Operation, state: OpState, process: Option<ProcessIdentity>, failure: Failure,
                   after: Operation, r: Result<Response, LifecycleError>)
  {
    after == op.(state := state, process := process, failure := Some(failure)) && r == Err(ErrorFor(failure))
  }

  /** A process fault blocks; anything else rejects. */
  function Verdict(failure: Failure): OpState {
    if failure.ProcessFailure? then Blocked else Rejected
  }

  // ---- observing ----------------------------------------------------------------------------------

  /** Verification: the same identity, running, inside its profile with its whole tree; stops at the first failure. */
  ghost predicate Checked(calls: seq<PortCall>, identity: ProcessIdentity, profile: Profile, v: Result<Unit, Failure>) {
    calls != [] && calls[0].IdentityCall? && calls[0].handle == identity.handle
    && match calls[0].seen
       case Err(f) => |calls| == 1 && v == Err(ProcessFailure(f))
       case Ok(actual) =>
         if actual != identity || !Belongs(identity, identity.instance, profile)
         then |calls| == 1 && v == Err(IdentityMismatch)
         else CheckedTree(calls[1..], identity, profile, v)
  }

  ghost predicate CheckedTree(calls: seq<PortCall>, identity: ProcessIdentity, profile: Profile, v: Result<Unit, Failure>) {
    calls != [] && calls[0].InspectCall? && calls[0].handle == identity.handle
    && match calls[0].state
       case Err(f) => |calls| == 1 && v == Err(ProcessFailure(f))
       case Ok(Exited) => |calls| == 1 && v == Err(ProcessFailure(InspectionFailed))
       case Ok(Running) =>
         |calls| == 2 && calls[1].DescendantsCall? && calls[1].handle == identity.handle
         && match calls[1].tree
            case Err(f) => v == Err(ProcessFailure(f))
            case Ok(tree) => if Within(tree, identity.instance, profile) then v.Ok? else v == Err(ForeignDescendant)
  }

  /** Verification that first compares the identity with its profile, before any call. */
  ghost predicate Vetted(calls: seq<PortCall>, identity: ProcessIdentity, profile: Profile, v: Result<Unit, LifecycleError>) {
    if !Belongs(identity, identity.instance, profile) then calls == [] && v == Err(MismatchedIdentity)
    else match v
         case Ok(_) => Checked(calls, identity, profile, Ok(Unit))
         case Err(MismatchedIdentity) => Checked(calls, identity, profile, Err(IdentityMismatch))
         case Err(ForeignTree) => Checked(calls, identity, profile, Err(ForeignDescendant))
         case Err(ProcessError(f)) => Checked(calls, identity, profile, Err(ProcessFailure(f)))
         case Err(_) => false
  }

  /** No check fails because the instance is busy or the process unowned. */
  lemma CheckFailed(calls: seq<PortCall>, identity: ProcessIdentity, profile: Profile, failure: Failure)
    requires Checked(calls, identity, profile, Err(failure))
    ensures failure.IdentityMismatch? || failure.ForeignDescendant? || failure.ProcessFailure?
  {
  }

  /** Confirming an exit: the same identity, exited, without descendants. */
  ghost predicate ExitChecked(calls: seq<PortCall>, identity: ProcessIdentity, gone: bool) {
    calls != [] && calls[0].IdentityCall? && calls[0].handle == identity.handle
    && if calls[0].seen != Ok(identity) then |calls| == 1 && !gone
       else |calls| >= 2 && calls[1].InspectCall? && calls[1].handle == identity.handle
            && if calls[1].state != Ok(Exited) then |calls| == 2 && !gone
               else |calls| == 3 && calls[2].DescendantsCall? && calls[2].handle == identity.handle
                    && gone == (calls[2].tree == Ok([]))
  }

  // ---- launching ----------------------------------------------------------------------------------

  /** The generation an operation is authorised to create. */
  function OwnGeneration(op: Operation): Generation
    requires NamesProfile(op.action)
  {
    Generation(op.instance, op.id, op.sequence, op.requestEpoch, op.authorityEpoch, op.action.profile,
               if op.action.LaunchNew? then LaunchGeneration else RestartReplacement)
  }

  /** The operation is at a point where it has a generation: sequenced, launching or rotated, or unknown since. */
  predicate HasGeneration(op: Operation, profile: Profile) {
    op.sequence != 0
    && match op.action
       case LaunchNew(p) => p == profile.id && (op.state.Starting? || op.state.Unknown?)
       case Restart(p) => p == profile.id && (op.state.Restarting? || op.state.Unknown?) && op.authorityEpoch != op.requestEpoch
       case _ => false
  }

  /** What the port knows of the generation of an operation, if it was asked. */
  ghost predicate LookedUp(cfg: Config, calls: seq<PortCall>, op: Operation, found: Option<ProcessIdentity>) {
    if NamesProfile(op.action) && op.action.profile in cfg.profiles && HasGeneration(op, cfg.profiles[op.action.profile])
    then |calls| == 1 && calls[0].RecoverCall? && calls[0].generation == OwnGeneration(op)
         && found == match calls[0].recovered
                     case Ok(Found(identity)) => if identity.instance == op.instance then Some(identity) else None
                     case _ => None
    else calls == [] && found == None
  }

  /** A fault of a start, or of an observation: refusals fail, other faults may hide a child and leave it unknown. */
  ghost predicate AfterFault(cfg: Config, calls: seq<PortCall>, op: Operation, fault: Fault, after: Operation,
                             r: Result<Response, LifecycleError>)
  {
    if op.process.Some? then calls == [] && Barred(op, Blocked, op.process, ProcessFailure(fault), after, r)
    else if fault.StartRejected? || fault.ProfileRequired? || fault.ProfileNotApproved?
    then calls == [] && Barred(op, Failed, None, ProcessFailure(fault), after, r)
    else exists found :: LookedUp(cfg, calls, op, found) && Barred(op, Unknown, found, ProcessFailure(fault), after, r)
  }

  /** What was started did not verify: it is stopped by force and kept on record unless it is gone. */
  ghost predicate StartUndone(calls: seq<PortCall>, op: Operation, identity: ProcessIdentity, failure: Failure,
                              after: Operation, r: Result<Response, LifecycleError>)
  {
    calls != [] && calls[0].StopCall? && calls[0].handle == identity.handle && calls[0].mode == Force
    && match calls[0].stopped
       case Err(f) => |calls| == 1 && Barred(op, Blocked, Some(identity), ProcessFailure(f), after, r)
       case Ok(_) => TreeUndone(calls[1..], op, identity, failure, after, r)
  }

  ghost predicate TreeUndone(calls: seq<PortCall>, op: Operation, identity: ProcessIdentity, failure: Failure,
                             after: Operation, r: Result<Response, LifecycleError>)
  {
    |calls| == 1 && calls[0].DescendantsCall? && calls[0].handle == identity.handle
    && match calls[0].tree
       case Err(f) => Barred(op, Blocked, Some(identity), ProcessFailure(f), after, r)
       case Ok(tree) => if tree != [] then Barred(op, Blocked, Some(identity), ForeignDescendant, after, r)
                        else Barred(op, Verdict(failure), Some(identity), failure, after, r)
  }

  lemma UndoneByStop(stop: PortCall, rest: seq<PortCall>, op: Operation, identity: ProcessIdentity, failure: Failure,
                     after: Operation, r: Result<Response, LifecycleError>)
    requires stop.StopCall? && stop.handle == identity.handle && stop.mode == Force
    requires match stop.stopped
             case Err(f) => rest == [] && Barred(op, Blocked, Some(identity), ProcessFailure(f), after, r)
             case Ok(_) => TreeUndone(rest, op, identity, failure, after, r)
    ensures StartUndone([stop] + rest, op, identity, failure, after, r)
  {
    assert ([stop] + rest)[1..] == rest;
  }

  /** The start returned an identity: it verifies and the operation is started, or it is undone. */
  ghost predicate StartReturned(calls: seq<PortCall>, op: Operation, identity: ProcessIdentity, profile: Profile,
                                after: Operation, r: Result<Response, LifecycleError>)
  {
    if !Belongs(identity, op.instance, profile) then StartUndone(calls, op, identity, IdentityMismatch, after, r)
    else exists n, v :: 0 <= n <= |calls| && Checked(calls[..n], identity, profile, v)
                        && match v
                           case Ok(_) => n == |calls| && Told(op, Started, Some(identity), None, StateStarting, after, r)
                           case Err(f) => StartUndone(calls[n..], op, identity, f, after, r)
  }

  lemma VerifiedStart(calls: seq<PortCall>, op: Operation, identity: ProcessIdentity, profile: Profile, after: Operation,
                      r: Result<Response, LifecycleError>)
    requires Belongs(identity, op.instance, profile) && Checked(calls, identity, profile, Ok(Unit))
    requires Told(op, Started, Some(identity), None, StateStarting, after, r)
    ensures StartReturned(calls, op, identity, profile, after, r)
  {
    assert calls[..|calls|] == calls;
  }

  lemma UnverifiedStart(checks: seq<PortCall>, rest: seq<PortCall>, op: Operation, identity: ProcessIdentity,
                        profile: Profile, failure: Failure, after: Operation, r: Result<Response, LifecycleError>)
    requires Belongs(identity, op.instance, profile) && Checked(checks, identity, profile, Err(failure))
    requires StartUndone(rest, op, identity, failure, after, r)
    ensures StartReturned(checks + rest, op, identity, profile, after, r)
  {
    var calls, n := checks + rest, |checks|;
    assert calls[..n] == checks && calls[n..] == rest;
  }

  /** The generation of the operation is started, exactly once, and the outcome follows the answer. */
  ghost predicate Launched(cfg: Config, calls: seq<PortCall>, op: Operation, profile: Profile, after: Operation,
                           r: Result<Response, LifecycleError>)
  {
    NamesProfile(op.action) && calls != [] && calls[0].StartCall? && calls[0].generation == OwnGeneration(op)
    && calls[0].instance == op.instance && calls[0].profile == op.action.profile
    && match calls[0].started
       case Ok(identity) => StartReturned(calls[1..], op, identity, profile, after, r)
       case Err(Unsupported) => AfterFault(cfg, calls[1..], op, ProfileRequired, after, r)
       case Err(StartFault(fault)) => AfterFault(cfg, calls[1..], op, fault, after, r)
  }

  lemma LaunchedBy(cfg: Config, start: PortCall, rest: seq<PortCall>, op: Operation, profile: Profile, after: Operation,
                   r: Result<Response, LifecycleError>)
    requires NamesProfile(op.action) && start.StartCall? && start.generation == OwnGeneration(op)
    requires start.instance == op.instance && start.profile == op.action.profile
    requires match start.started
             case Ok(identity) => StartReturned(rest, op, identity, profile, after, r)
             case Err(Unsupported) => AfterFault(cfg, rest, op, ProfileRequired, after, r)
             case Err(StartFault(fault)) => AfterFault(cfg, rest, op, fault, after, r)
    ensures Launched(cfg, [start] + rest, op, profile, after, r)
  {
    hide StartReturned, AfterFault;
    assert ([start] + rest)[1..] == rest;
  }

  // ---- stopping -----------------------------------------------------------------------------------

  /** The observed process is stopped in the requested mode; only a childless stop ends the operation. */
  ghost predicate Halted(calls: seq<PortCall>, op: Operation, identity: ProcessIdentity, mode: StopMode, after: Operation,
                         r: Result<Response, LifecycleError>)
  {
    calls != [] && calls[0].StopCall? && calls[0].handle == identity.handle && calls[0].mode == mode
    && match calls[0].stopped
       case Err(f) => |calls| == 1 && Barred(op, Blocked, op.process, ProcessFailure(f), after, r)
       case Ok(_) => HaltConfirmed(calls[1..], op, identity, after, r)
  }

  ghost predicate HaltConfirmed(calls: seq<PortCall>, op: Operation, identity: ProcessIdentity, after: Operation,
                                r: Result<Response, LifecycleError>)
  {
    |calls| == 1 && calls[0].DescendantsCall? && calls[0].handle == identity.handle
    && match calls[0].tree
       case Err(f) => Barred(op, Blocked, op.process, ProcessFailure(f), after, r)
       case Ok(tree) => if tree != [] then Barred(op, Blocked, op.process, ForeignDescendant, after, r)
                        else Told(op, Stopped, None, None, StateStopped, after, r)
  }

  lemma HaltedBy(stop: PortCall, rest: seq<PortCall>, op: Operation, identity: ProcessIdentity, mode: StopMode,
                 after: Operation, r: Result<Response, LifecycleError>)
    requires stop.StopCall? && stop.handle == identity.handle && stop.mode == mode
    requires match stop.stopped
             case Err(f) => rest == [] && Barred(op, Blocked, op.process, ProcessFailure(f), after, r)
             case Ok(_) => HaltConfirmed(rest, op, identity, after, r)
    ensures Halted([stop] + rest, op, identity, mode, after, r)
  {
    assert ([stop] + rest)[1..] == rest;
  }

  lemma VettedHalt(checks: seq<PortCall>, rest: seq<PortCall>, op: Operation, identity: ProcessIdentity, profile: Profile,
                   mode: StopMode, after: Operation, r: Result<Response, LifecycleError>)
    requires Vetted(checks, identity, profile, Ok(Unit)) && Halted(rest, op, identity, mode, after, r)
    ensures VettedThenHalted(checks + rest, op, identity, profile, mode, after, r)
  {
    hide Vetted, Halted;
    var calls, n := checks + rest, |checks|;
    assert calls[..n] == checks && calls[n..] == rest;
  }

  lemma UnvettedHalt(checks: seq<PortCall>, error: LifecycleError, op: Operation, identity: ProcessIdentity, profile: Profile,
                     mode: StopMode, after: Operation, r: Result<Response, LifecycleError>)
    requires Vetted(checks, identity, profile, Err(error)) && BarredBy(op, error, after, r)
    ensures VettedThenHalted(checks, op, identity, profile, mode, after, r)
  {
    hide Vetted, Halted, BarredBy;
    assert checks[..|checks|] == checks;
  }

  lemma VettingError(calls: seq<PortCall>, identity: ProcessIdentity, profile: Profile, error: LifecycleError)
    requires Vetted(calls, identity, profile, Err(error))
    ensures error.ForeignTree? || error.MismatchedIdentity? || error.ProcessError?
  {
  }

  /** An attachment is kept once the process verifies, and blocked otherwise. */
  ghost predicate AttachSettled(calls: seq<PortCall>, op: Operation, identity: ProcessIdentity, profile: Profile,
                                after: Operation, r: Result<Response, LifecycleError>)
  {
    exists v :: Vetted(calls, identity, profile, v)
                && match v
                   case Ok(_) => Told(op, Attached, Some(identity), None, StateStarting, after, r)
                   case Err(e) => BarredBy(op, e, after, r)
  }

  /** Attaching: rejected without an authorised process, or if that is another one; otherwise verified and kept. */
  ghost predicate AttachOutcome(calls: seq<PortCall>, op: Operation, identity: ProcessIdentity, previous: Option<Operation>,
                                profile: Option<Profile>, before: Operation, after: Operation,
                                r: Result<Response, LifecycleError>)
  {
    if previous.None? then calls == [] && Barred(op, Rejected, op.process, UnownedAttach, after, r)
    else if previous.value.process != Some(identity) then calls == [] && Barred(op, Rejected, op.process, IdentityMismatch, after, r)
    else if profile.None? then calls == [] && after == before && r.Err?
    else AttachSettled(calls, op.(state := Attached, process := Some(identity), failure := None), identity, profile.value, after, r)
  }

  /** Stopping: rejected without an authorised process; otherwise its process is verified and stopped. */
  ghost predicate StopOutcome(calls: seq<PortCall>, op: Operation, mode: StopMode, previous: Option<Operation>,
                              profile: Option<Profile>, before: Operation, after: Operation,
                              r: Result<Response, LifecycleError>)
  {
    if previous.None? then calls == [] && Barred(op, Rejected, op.process, InstanceBusy, after, r)
    else if profile.None? || previous.value.process.None? then calls == [] && after == before && r.Err?
    else VettedThenHalted(calls, op.(state := Stopping, process := previous.value.process, failure := None),
                          previous.value.process.value, profile.value, mode, after, r)
  }

  /** Verify first; what does not verify is blocked with its process. */
  ghost predicate VettedThenHalted(calls: seq<PortCall>, op: Operation, identity: ProcessIdentity, profile: Profile,
                                   mode: StopMode, after: Operation, r: Result<Response, LifecycleError>)
  {
    exists n, v :: 0 <= n <= |calls| && Vetted(calls[..n], identity, profile, v)
                   && match v
                      case Ok(_) => Halted(calls[n..], op, identity, mode, after, r)
                      case Err(e) => n == |calls| && BarredBy(op, e, after, r)
  }

  /** Blocked, with the failed verification as the reason. */
  predicate BarredBy(op: Operation, error: LifecycleError, after: Operation, r: Result<Response, LifecycleError>) {
    match error
    case ForeignTree => Barred(op, Blocked, op.process, ForeignDescendant, after, r)
    case MismatchedIdentity => Barred(op, Blocked, op.process, IdentityMismatch, after, r)
    case ProcessError(f) => Barred(op, Blocked, op.process, ProcessFailure(f), after, r)
    case _ => false
  }

  /** Resuming a stop: what has exited is confirmed, what runs is verified and stopped, what is unclear stays unknown. */
  ghost predicate StopResumed(calls: seq<PortCall>, op: Operation, identity: ProcessIdentity, profile: Profile,
                              mode: StopMode, after: Operation, r: Result<Response, LifecycleError>)
  {
    calls != [] && calls[0].IdentityCall? && calls[0].handle == identity.handle
    && match calls[0].seen
       case Err(f) => |calls| == 1 && Told(op, Unknown, Some(identity), Some(ProcessFailure(f)), StateUnknown, after, r)
       case Ok(actual) =>
         if actual != identity || !Belongs(identity, identity.instance, profile)
         then |calls| == 1 && Told(op, Blocked, Some(identity), Some(IdentityMismatch), StateUnknown, after, r)
         else |calls| >= 2 && calls[1].InspectCall? && calls[1].handle == identity.handle
              && match calls[1].state
                 case Err(f) => |calls| == 2 && Told(op, Unknown, Some(identity), Some(ProcessFailure(f)), StateUnknown, after, r)
                 case Ok(Exited) => ExitConfirmed(calls[2..], op, identity, after, r)
                 case Ok(Running) => VettedThenHalted(calls[2..], op, identity, profile, mode, after, r)
  }

  ghost predicate ExitConfirmed(calls: seq<PortCall>, op: Operation, identity: ProcessIdentity, after: Operation,
                                r: Result<Response, LifecycleError>)
  {
    |calls| == 1 && calls[0].DescendantsCall? && calls[0].handle == identity.handle
    && match calls[0].tree
       case Err(f) => Told(op, Unknown, Some(identity), Some(ProcessFailure(f)), StateUnknown, after, r)
       case Ok(tree) => if tree != [] then Told(op, Blocked, Some(identity), Some(ForeignDescendant), StateFailed, after, r)
                        else Told(op, Stopped, None, None, StateStopped, after, r)
  }

  // ---- restarting -----------------------------------------------------------------------------------

  /** The replacement is launched under the operation's own profile; under any other its outcome is unknown. */
  ghost predicate Relaunched(cfg: Config, calls: seq<PortCall>, op: Operation, profile: Profile, after: Operation,
                           r: Result<Response, LifecycleError>)
  {
    if op.action.Restart? && op.action.profile == profile.id then Launched(cfg, calls, op, profile, after, r)
    else calls == [] && Told(op, Unknown, None, None, StateUnknown, after, r)
  }

  /** The old process ended: once nothing of its tree is left its slot is emptied and the replacement launched. */
  ghost predicate GoneReplaced(cfg: Config, calls: seq<PortCall>, op: Operation, identity: ProcessIdentity, profile: Profile,
                               after: Operation, r: Result<Response, LifecycleError>)
  {
    calls != [] && calls[0].DescendantsCall? && calls[0].handle == identity.handle
    && match calls[0].tree
       case Err(f) => AfterFault(cfg, calls[1..], op, f, after, r)
       case Ok(tree) =>
         if tree != [] then |calls| == 1 && Barred(op, Blocked, op.process, ForeignDescendant, after, r)
         else Relaunched(cfg, calls[1..], op.(state := Restarting, process := None, failure := None), profile, after, r)
  }

  /** The old process runs: it is verified and stopped by force, then replaced. */
  ghost predicate StoppedReplaced(cfg: Config, calls: seq<PortCall>, op: Operation, identity: ProcessIdentity, profile: Profile,
                                  after: Operation, r: Result<Response, LifecycleError>)
  {
    exists n, v :: 0 <= n <= |calls| && Vetted(calls[..n], identity, profile, v)
                   && match v
                      case Err(e) => n == |calls| && BarredBy(op, e, after, r)
                      case Ok(_) =>
                        n < |calls| && calls[n].StopCall? && calls[n].handle == identity.handle && calls[n].mode == Force
                        && match calls[n].stopped
                           case Err(f) => n + 1 == |calls| && Barred(op, Blocked, op.process, ProcessFailure(f), after, r)
                           case Ok(_) => GoneReplaced(cfg, calls[n + 1..], op, identity, profile, after, r)
  }

  /** Finishing a restart whose rotated epoch is durable. */
  ghost predicate Restarted(cfg: Config, calls: seq<PortCall>, op: Operation, profile: Profile, governing: Option<Profile>,
                            after: Operation, r: Result<Response, LifecycleError>)
  {
    if op.process.None? then calls == [] && after == op && r == Err(MismatchedIdentity)
    else
      var identity := op.process.value;
      if !Belongs(identity, op.instance, profile) then CleanedUp(calls, op, identity, governing, after, r)
      else
        calls != [] && calls[0].IdentityCall? && calls[0].handle == identity.handle
        && match calls[0].seen
           case Err(f) => AfterFault(cfg, calls[1..], op, f, after, r)
           case Ok(actual) =>
             if actual != identity then |calls| == 1 && Barred(op, Blocked, op.process, IdentityMismatch, after, r)
             else |calls| >= 2 && calls[1].InspectCall? && calls[1].handle == identity.handle
                  && match calls[1].state
                     case Err(f) => AfterFault(cfg, calls[2..], op, f, after, r)
                     case Ok(Running) => StoppedReplaced(cfg, calls[2..], op, identity, profile, after, r)
                     case Ok(Exited) => GoneReplaced(cfg, calls[2..], op, identity, profile, after, r)
  }

  lemma VettedReplace(cfg: Config, checks: seq<PortCall>, stop: PortCall, rest: seq<PortCall>, op: Operation,
                      identity: ProcessIdentity, profile: Profile, after: Operation, r: Result<Response, LifecycleError>)
    requires Vetted(checks, identity, profile, Ok(Unit))
    requires stop.StopCall? && stop.handle == identity.handle && stop.mode == Force
    requires match stop.stopped
             case Err(f) => rest == [] && Barred(op, Blocked, op.process, ProcessFailure(f), after, r)
             case Ok(_) => GoneReplaced(cfg, rest, op, identity, profile, after, r)
    ensures StoppedReplaced(cfg, checks + ([stop] + rest), op, identity, profile, after, r)
  {
    hide Vetted, GoneReplaced, Barred;
    var calls, n := checks + ([stop] + rest), |checks|;
    assert calls[..n] == checks && calls[n] == stop && calls[n + 1..] == rest;
  }

  lemma UnvettedReplace(cfg: Config, checks: seq<PortCall>, error: LifecycleError, op: Operation, identity: ProcessIdentity,
                        profile: Profile, after: Operation, r: Result<Response, LifecycleError>)
    requires Vetted(checks, identity, profile, Err(error)) && BarredBy(op, error, after, r)
    ensures StoppedReplaced(cfg, checks, op, identity, profile, after, r)
  {
    hide Vetted, GoneReplaced, BarredBy;
    assert checks[..|checks|] == checks;
  }

  /** The epoch a restart acts under: its rotated one, taken once. */
  function RotatedEpoch(op: Operation): Epoch {
    if op.authorityEpoch != op.requestEpoch then op.authorityEpoch else op.authorityEpoch + 1
  }

  /** Why an epoch cannot be rotated: it is not the current one, or the counter is used up. */
  predicate RotationRefused(op: Operation, current: Epoch, error: LifecycleError) {
    (op.authorityEpoch != current && error == StaleAuthorityEpoch)
    || (op.authorityEpoch == current && op.authorityEpoch == op.requestEpoch && current >= 0xFFFF_FFFF_FFFF_FFFF
        && error == AuthorityExhausted)
  }

  /** The old process is verified before anything else; then the epoch is rotated and the process replaced. */
  ghost predicate RestartOutcome(cfg: Config, calls: seq<PortCall>, op: Operation, identity: ProcessIdentity, profile: Profile,
                                 current: Epoch, after: Operation, r: Result<Response, LifecycleError>)
  {
    exists n, v :: 0 <= n <= |calls| && Vetted(calls[..n], identity, profile, v)
                   && match v
                      case Err(e) => n == |calls| && BarredBy(op, e, after, r)
                      case Ok(_) => RotatedThenRestarted(cfg, calls[n..], op, identity, profile, current, after, r)
  }

  ghost predicate RotatedThenRestarted(cfg: Config, calls: seq<PortCall>, op: Operation, identity: ProcessIdentity,
                                       profile: Profile, current: Epoch, after: Operation, r: Result<Response, LifecycleError>)
  {
    (calls == [] && after == op && r.Err? && RotationRefused(op, current, r.error))
    || (op.authorityEpoch == current
        && exists governing ::
             Restarted(cfg, calls, op.(state := Restarting, process := Some(identity), authorityEpoch := RotatedEpoch(op)),
                       profile, governing, after, r))
  }

  lemma VettedRestart(cfg: Config, checks: seq<PortCall>, rest: seq<PortCall>, op: Operation, identity: ProcessIdentity,
                      profile: Profile, current: Epoch, after: Operation, r: Result<Response, LifecycleError>)
    requires Vetted(checks, identity, profile, Ok(Unit))
    requires RotatedThenRestarted(cfg, rest, op, identity, profile, current, after, r)
    ensures RestartOutcome(cfg, checks + rest, op, identity, profile, current, after, r)
  {
    hide Vetted, RotatedThenRestarted;
    var calls, n := checks + rest, |checks|;
    assert calls[..n] == checks && calls[n..] == rest;
  }

  lemma UnvettedRestart(cfg: Config, checks: seq<PortCall>, error: LifecycleError, op: Operation, identity: ProcessIdentity,
                        profile: Profile, current: Epoch, after: Operation, r: Result<Response, LifecycleError>)
    requires Vetted(checks, identity, profile, Err(error)) && BarredBy(op, error, after, r)
    ensures RestartOutcome(cfg, checks, op, identity, profile, current, after, r)
  {
    hide Vetted, BarredBy, RotatedThenRestarted;
    assert checks[..|checks|] == checks;
  }

  /** A restart requested now: its profile must be that of the process it replaces. */
  ghost predicate RestartRequested(cfg: Config, calls: seq<PortCall>, op: Operation, profileId: ProfileId,
                                   previous: Option<Operation>, profile: Option<Profile>, current: Epoch, before: Operation,
                                   after: Operation, r: Result<Response, LifecycleError>)
  {
    if previous.None? then calls == [] && Barred(op, Rejected, op.process, IdentityMismatch, after, r)
    else if profileId !in cfg.profiles || profile.None? || previous.value.process.None?
    then calls == [] && after == before && r.Err?
    else if cfg.profiles[profileId] != profile.value
    then calls == [] && Barred(op, Rejected, previous.value.process, IdentityMismatch, after, r)
    else RestartOutcome(cfg, calls, op.(state := Restarting, process := previous.value.process, failure := None),
                        previous.value.process.value, profile.value, current, after, r)
  }

  // ---- recovering -----------------------------------------------------------------------------------

  /** Cleaning up a retained identity that does not fit its profile: stopped only if seen again, in scope. */
  ghost predicate CleanedUp(calls: seq<PortCall>, op: Operation, identity: ProcessIdentity, profile: Option<Profile>,
                            after: Operation, r: Result<Response, LifecycleError>)
  {
    calls != [] && calls[0].IdentityCall? && calls[0].handle == identity.handle
    && match calls[0].seen
       case Err(f) => |calls| == 1 && Told(op, Unknown, Some(identity), Some(ProcessFailure(f)), StateUnknown, after, r)
       case Ok(actual) =>
         if actual != identity then |calls| == 1 && Barred(op, Blocked, Some(identity), IdentityMismatch, after, r)
         else if profile.None? then |calls| == 1 && r.Err?
         else CleanedInScope(calls[1..], op, identity, profile.value, after, r)
  }

  ghost predicate CleanedInScope(calls: seq<PortCall>, op: Operation, identity: ProcessIdentity, profile: Profile,
                                 after: Operation, r: Result<Response, LifecycleError>)
  {
    calls != [] && calls[0].DescendantsCall? && calls[0].handle == identity.handle
    && match calls[0].tree
       case Err(f) => |calls| == 1 && Barred(op, Blocked, op.process, ProcessFailure(f), after, r)
       case Ok(tree) =>
         if !Within(tree, op.instance, profile)
         then |calls| == 1 && Barred(op, Blocked, op.process, ForeignDescendant, after, r)
         else CleanedEnded(calls[1..], op, identity, after, r)
  }

  ghost predicate CleanedEnded(calls: seq<PortCall>, op: Operation, identity: ProcessIdentity, after: Operation,
                               r: Result<Response, LifecycleError>)
  {
    calls != [] && calls[0].InspectCall? && calls[0].handle == identity.handle
    && match calls[0].state
       case Err(f) => |calls| == 1 && Told(op, Unknown, Some(identity), Some(ProcessFailure(f)), StateUnknown, after, r)
       case Ok(Exited) => CleanupConfirmed(calls[1..], op, identity, after, r)
       case Ok(Running) =>
         |calls| >= 2 && calls[1].StopCall? && calls[1].handle == identity.handle && calls[1].mode == Force
         && match calls[1].stopped
            case Err(f) => |calls| == 2 && Barred(op, Blocked, op.process, ProcessFailure(f), after, r)
            case Ok(_) => CleanupConfirmed(calls[2..], op, identity, after, r)
  }

  ghost predicate CleanupConfirmed(calls: seq<PortCall>, op: Operation, identity: ProcessIdentity, after: Operation,
                                   r: Result<Response, LifecycleError>)
  {
    |calls| == 1 && calls[0].DescendantsCall? && calls[0].handle == identity.handle
    && match calls[0].tree
       case Err(f) => Barred(op, Blocked, op.process, ProcessFailure(f), after, r)
       case Ok(tree) => if tree != [] then Barred(op, Blocked, op.process, ForeignDescendant, after, r)
                        else Told(op, Failed, None, Some(IdentityMismatch), StateFailed, after, r)
  }

  /** A looked-up identity: started once it verifies, otherwise kept and blocked. */
  ghost predicate Recovered(calls: seq<PortCall>, op: Operation, identity: ProcessIdentity, profile: Profile, after: Operation,
                            r: Result<Response, LifecycleError>)
  {
    if !Belongs(identity, op.instance, profile)
    then calls == [] && Barred(op, Blocked, Some(identity), IdentityMismatch, after, r)
    else match r
         case Ok(_) => Checked(calls, identity, profile, Ok(Unit)) && Told(op, Started, Some(identity), None, StateStarting, after, r)
         case Err(_) => exists f :: Checked(calls, identity, profile, Err(f)) && Barred(op, Blocked, Some(identity), f, after, r)
  }

  /** Nothing is started again: the generation of the operation is looked up, and the outcome follows the answer. */
  ghost predicate LookedUpAgain(calls: seq<PortCall>, op: Operation, profile: Profile, after: Operation,
                                r: Result<Response, LifecycleError>)
  {
    if !HasGeneration(op, profile) then calls == [] && Told(op, Unknown, None, None, StateUnknown, after, r)
    else
      calls != [] && calls[0].RecoverCall? && calls[0].generation == OwnGeneration(op)
      && match calls[0].recovered
         case Ok(Found(identity)) => Recovered(calls[1..], op, identity, profile, after, r)
         case Ok(Indeterminate) => |calls| == 1 && Told(op, Unknown, None, None, StateUnknown, after, r)
         case Err(f) => |calls| == 1 && Told(op, Unknown, None, Some(ProcessFailure(f)), StateUnknown, after, r)
  }

  /** Resuming a launch: its process is verified or cleaned up; without one its generation is looked up. */
  ghost predicate LaunchResumed(calls: seq<PortCall>, op: Operation, profile: Profile, after: Operation,
                                r: Result<Response, LifecycleError>)
  {
    if op.process.None? then LookedUpAgain(calls, op, profile, after, r)
    else if !Belongs(op.process.value, op.instance, profile) then CleanedUp(calls, op, op.process.value, Some(profile), after, r)
    else RecordVerified(calls, op, op.process.value, profile, after, r)
  }

  /** Resuming a restart: without a process its replacement is looked up, with one the replacement is finished. */
  ghost predicate RestartResumed(cfg: Config, calls: seq<PortCall>, op: Operation, profile: Option<Profile>, current: Epoch,
                                 after: Operation, r: Result<Response, LifecycleError>)
  {
    if op.process.None?
    then if op.authorityEpoch == op.requestEpoch || op.authorityEpoch != current
         then calls == [] && Told(op, Unknown, None, None, StateUnknown, after, r)
         else if profile.None? then calls == [] && after == op && r.Err?
         else LookedUpAgain(calls, op, profile.value, after, r)
    else if profile.None? then calls == [] && after == op && r.Err?
    else (calls == [] && after == op && r.Err? && RotationRefused(op, current, r.error))
         || (op.authorityEpoch == current
             && var ready := op.(state := if op.authorityEpoch == op.requestEpoch then Restarting else op.state,
                                 authorityEpoch := RotatedEpoch(op));
                exists governing :: Restarted(cfg, calls, ready, profile.value, governing, after, r))
  }

  /** Resuming a restart that was only recorded: the process to replace must still fit, then it is rotated and resumed. */
  ghost predicate RestartIntentResumed(cfg: Config, calls: seq<PortCall>, op: Operation, profileId: ProfileId,
                                       previous: Option<Operation>, profile: Option<Profile>, own: bool, current: Epoch,
                                       before: Operation, after: Operation, r: Result<Response, LifecycleError>)
  {
    if previous.None? then calls == [] && Barred(op, Rejected, op.process, IdentityMismatch, after, r)
    else if profileId !in cfg.profiles || profile.None? || previous.value.process.None?
    then calls == [] && after == before && r.Err?
    else if cfg.profiles[profileId] != profile.value || !Belongs(previous.value.process.value, op.instance, profile.value)
    then calls == [] && Barred(op, Rejected, op.process, IdentityMismatch, after, r)
    else RotatedThenResumed(cfg, calls, op, previous.value.process.value, own, current, before, after, r)
  }

  /** `own` says that the operation could take the owner row, which then names its own profile. */
  ghost predicate RotatedThenResumed(cfg: Config, calls: seq<PortCall>, op: Operation, identity: ProcessIdentity, own: bool,
                                     current: Epoch, before: Operation, after: Operation, r: Result<Response, LifecycleError>)
  {
    NamesProfile(op.action)
    && ((calls == [] && after == before && r.Err? && RotationRefused(op, current, r.error))
        || (op.authorityEpoch == current
            && var begun := op.(state := Restarting, process := Some(identity), authorityEpoch := RotatedEpoch(op));
               exists profile ::
                 RestartResumed(cfg, calls, begun, profile, RotatedEpoch(op), after, r)
                 && (own && op.action.profile in cfg.profiles ==> profile == Some(cfg.profiles[op.action.profile]))))
  }

  /** Resuming a stop that was only recorded. */
  ghost predicate StopIntentResumed(cfg: Config, t: Tables, calls: seq<PortCall>, op: Operation, previous: Option<Operation>,
                                    profile: Option<Profile>, after: Operation, r: Result<Response, LifecycleError>)
  {
    if previous.None? then calls == [] && Barred(op, Rejected, op.process, InstanceBusy, after, r)
    else if profile.None? || previous.value.process.None?
    then calls == [] && KeyOf(op) in t.records && after == t.records[KeyOf(op)] && r.Err?
    else var next := op.(state := Stopping, process := previous.value.process);
         StoppingResumed(cfg, t.(records := t.records[KeyOf(op) := next]), calls, next, after, r)
  }

  ghost predicate StoppingResumed(cfg: Config, t: Tables, calls: seq<PortCall>, op: Operation, after: Operation,
                                  r: Result<Response, LifecycleError>)
  {
    op.action.Stop?
    && if op.process.None? then calls == [] && Told(op, Unknown, None, None, StateUnknown, after, r)
       else exists profile ::
              HeldBy(cfg, t, op, profile)
              && if profile.None? then calls == [] && r.Err? && after == op
                 else StopResumed(calls, op, op.process.value, profile.value, op.action.mode, after, r)
  }

  /** A record that names a process: kept once it verifies; only a confirmed exit releases it. */
  ghost predicate RecordVerified(calls: seq<PortCall>, op: Operation, identity: ProcessIdentity, profile: Profile,
                                 after: Operation, r: Result<Response, LifecycleError>)
  {
    exists n, v :: 0 <= n <= |calls| && Checked(calls[..n], identity, profile, v)
                   && match v
                      case Ok(_) => n == |calls| && Kept(op, identity, after, r)
                      case Err(f) => Doubted(calls[n..], op, identity, f, after, r)
  }

  lemma KeptRecord(checks: seq<PortCall>, op: Operation, identity: ProcessIdentity, profile: Profile, after: Operation,
                   r: Result<Response, LifecycleError>)
    requires Checked(checks, identity, profile, Ok(Unit)) && Kept(op, identity, after, r)
    ensures RecordVerified(checks, op, identity, profile, after, r)
  {
    hide Checked, Kept;
    assert checks[..|checks|] == checks;
  }

  lemma DoubtedRecord(checks: seq<PortCall>, rest: seq<PortCall>, op: Operation, identity: ProcessIdentity, profile: Profile,
                      failure: Failure, after: Operation, r: Result<Response, LifecycleError>)
    requires Checked(checks, identity, profile, Err(failure)) && Doubted(rest, op, identity, failure, after, r)
    ensures RecordVerified(checks + rest, op, identity, profile, after, r)
  {
    hide Checked, Doubted;
    var calls, n := checks + rest, |checks|;
    assert calls[..n] == checks && calls[n..] == rest;
  }

  predicate Kept(op: Operation, identity: ProcessIdentity, after: Operation, r: Result<Response, LifecycleError>) {
    if op.state.Unknown? then Told(op, Started, Some(identity), None, StateStarting, after, r)
    else after == op && r.Ok? && Shows(r.value.lifecycle, op.state)
         && r.value == Response(op.id, op.instance, r.value.lifecycle, op.state, op.process, op.authorityEpoch, op.failure)
  }

  ghost predicate Doubted(calls: seq<PortCall>, op: Operation, identity: ProcessIdentity, failure: Failure, after: Operation,
                          r: Result<Response, LifecycleError>)
  {
    if failure == ProcessFailure(InspectionFailed)
    then exists gone :: ExitChecked(calls, identity, gone)
                        && Barred(op, if gone then Failed else Unknown, Some(identity), failure, after, r)
    else calls == [] && Barred(op, Blocked, Some(identity), failure, after, r)
  }

  // ---- whole operations -----------------------------------------------------------------------------

  /** Nothing is done, and the record is reported as it is. */
  predicate AsItIs(op: Operation, after: Operation, r: Result<Response, LifecycleError>) {
    after == op && r.Ok? && Shows(r.value.lifecycle, op.state)
    && r.value == Response(op.id, op.instance, r.value.lifecycle, op.state, op.process, op.authorityEpoch, op.failure)
  }

  ghost predicate VerifiedOutcome(calls: seq<PortCall>, op: Operation, profile: Option<Profile>, after: Operation,
                                  r: Result<Response, LifecycleError>)
  {
    if op.process.None? then calls == [] && after == op && r == Err(MismatchedIdentity)
    else if profile.None? then calls == [] && after == op && r.Err?
    else RecordVerified(calls, op, op.process.value, profile.value, after, r)
  }

  /** A request just recorded: how its execution ends. */
  ghost predicate Executed(cfg: Config, t: Tables, leases: map<InstanceId, LeaseProof>, current: Epoch, calls: seq<PortCall>,
                           op: Operation, after: Operation, r: Result<Response, LifecycleError>)
  {
    match op.action
    case LaunchNew(p) =>
      p in cfg.profiles
      && Launched(cfg, calls, op.(state := Starting, process := None, failure := None), cfg.profiles[p], after, r)
    case AttachExisting(identity) =>
      exists previous, profile :: Prior(cfg, t, leases, op, previous, profile)
                                  && AttachOutcome(calls, op, identity, previous, profile, op, after, r)
    case Stop(mode) =>
      exists previous, profile :: Prior(cfg, t, leases, op, previous, profile)
                                  && StopOutcome(calls, op, mode, previous, profile, op, after, r)
    case Restart(p) =>
      exists previous, profile :: Prior(cfg, t, leases, op, previous, profile)
                                  && RestartRequested(cfg, calls, op, p, previous, profile, current, op, after, r)
  }

  /** A retained current operation: how resuming it ends. */
  ghost predicate Reconciled(cfg: Config, t: Tables, leases: map<InstanceId, LeaseProof>, own: bool, current: Epoch,
                             calls: seq<PortCall>, op: Operation, after: Operation, r: Result<Response, LifecycleError>)
  {
    match op.action
    case LaunchNew(_) =>
      if op.state.Blocked? && op.process.None? then calls == [] && AsItIs(op, after, r)
      else exists profile ::
             HeldBy(cfg, t, op, profile)
             && if op.state.Started? then VerifiedOutcome(calls, op, profile, after, r)
                else if profile.None? then calls == [] && after == op && r.Err?
                else LaunchResumed(calls, op, profile.value, after, r)
    case AttachExisting(identity) =>
      if op.state.Attached?
      then exists profile :: HeldBy(cfg, t, op, profile) && VerifiedOutcome(calls, op, profile, after, r)
      else if op.state.Blocked? then calls == [] && AsItIs(op, after, r)
      else exists previous, profile :: Prior(cfg, t, leases, op, previous, profile)
                                       && AttachOutcome(calls, op, identity, previous, profile, op, after, r)
    case Stop(_) =>
      if op.state.IntentRecorded?
      then exists previous, profile :: Prior(cfg, t, leases, op, previous, profile)
                                       && StopIntentResumed(cfg, t, calls, op, previous, profile, after, r)
      else if !op.state.Stopping? && op.process.None? then calls == [] && AsItIs(op, after, r)
      else StoppingResumed(cfg, t, calls, op, after, r)
    case Restart(p) =>
      if op.state.IntentRecorded?
      then exists previous, profile ::
             Prior(cfg, t, leases, op, previous, profile)
             && RestartIntentResumed(cfg, calls, op, p, previous, profile, own, current, op, after, r)
      else exists profile ::
             HeldBy(cfg, t, op, profile)
             && if op.state.Started? then VerifiedOutcome(calls, op, profile, after, r)
                else RestartResumed(cfg, calls, op, profile, current, after, r)
  }
}
