/**
 The in-memory gateway control plane: instance records with leases and process handles, and what
 holds over whole runs of it for every clock, process port, readiness probe and transport.
 */
module ControlPlane {
  import opened Outcomes

  type InstanceId = nat
  type Handle = nat
  type Tick = nat

  datatype Config = Config(capacity: nat, leaseMillis: nat, maxBody: nat, maxResponse: nat)

  datatype Lease = Lease(instance: InstanceId, caller: nat, session: nat, id: nat, epoch: nat, expiresAt: Tick) {
    function Proof(): Proof {
      LeaseProof(instance, caller, session, id, epoch)
    }
  }

  datatype Proof = LeaseProof(instance: InstanceId, caller: nat, session: nat, lease: nat, epoch: nat)

  datatype FenceFailure = Missing | WrongInstance | WrongCaller | WrongSession | WrongLease | StaleEpoch | FenceExpired

  /** The complete lease identity and deadline check. */
  function EvaluateFence(current: Option<Lease>, target: InstanceId, p: Proof, now: Tick): (r: Result<Unit, FenceFailure>)
    ensures r.Ok? <==> p.instance == target && current.Some? && now < current.value.expiresAt
                       && p.caller == current.value.caller && p.session == current.value.session
                       && p.lease == current.value.id && p.epoch == current.value.epoch
    ensures r == Err(FenceExpired) <==> p.instance == target && current.Some? && current.value.expiresAt <= now
    ensures r == Err(Missing) <==> p.instance == target && current.None?
    ensures r == Err(WrongInstance) <==> p.instance != target
  {
    if p.instance != target then Err(WrongInstance)
    else if current.None? then Err(Missing)
    else if current.value.expiresAt <= now then Err(FenceExpired)
    else if current.value.caller != p.caller then Err(WrongCaller)
    else if current.value.session != p.session then Err(WrongSession)
    else if current.value.id != p.lease then Err(WrongLease)
    else if current.value.epoch != p.epoch then Err(StaleEpoch)
    else Ok(Unit)
  }

  datatype State = Created | Starting | Ready | Busy | Degraded | Stopping | Stopped | Failed | Unknown | Expired {
    predicate Terminal() {
      Stopped? || Failed? || Expired?
    }

    predicate AcceptsForwarding() {
      Ready? || Busy?
    }
  }

  datatype Record = Record(caller: nat, session: nat, state: State, process: Option<Handle>, lease: Option<Lease>) {
    /** Move to a state; a terminal one gives up the lease. */
    function Marked(next: State): Record {
      this.(state := next, lease := if next.Terminal() then None else lease)
    }
  }

  /** Nothing is left to end: terminal and without a process. */
  predicate Settled(record: Record) {
    record.state.Terminal() && record.process.None?
  }

  datatype ProcessFault = Unavailable | Other(code: nat)
  datatype ProcessState = Running | Exited
  datatype Readiness = ProbeStarting | ProbeReady | ProbeDegraded

  datatype Error =
    | AdmissionClosed | CapacityExceeded | IdentityExhausted | InstanceNotFound | IdentityMismatch
    | InvalidState(state: State) | FenceRefused(failure: FenceFailure)
    | ProcessStart(fault: ProcessFault) | ProcessStop(fault: ProcessFault) | ProcessInspection(fault: ProcessFault)
    | ProcessCrashed | ReadinessFault(code: nat) | TransportFault(code: nat)
    | BodyTooLarge | ResponseTooLarge

  datatype StopMode = Graceful | Force

  /** A call to the clock, the process port, the readiness probe or the transport, with its answer. */
  datatype Answer =
    | Ticked(now: Tick)
    | StartTried(instance: InstanceId, started: Result<Handle, ProcessFault>)
    | StopTried(handle: Handle, mode: StopMode, ended: Result<Unit, ProcessFault>)
    | Inspected(handle: Handle, seen: Result<ProcessState, ProcessFault>)
    | Probed(instance: InstanceId, handle: Handle, readiness: Result<Readiness, nat>)
    | Sent(instance: InstanceId, handle: Handle, body: nat, response: Result<nat, nat>)

  /** The instant so many milliseconds later, saturating at the largest 64-bit tick. */
  function After(now: Tick, millis: nat): Tick {
    if now + millis > 0xFFFF_FFFF_FFFF_FFFF then 0xFFFF_FFFF_FFFF_FFFF else now + millis
  }

  // ---- what each call does, by the answers it got -----------------------------------------------

  /**
   An instance was ended: without a process it is simply marked; a process is stopped first, and
   leaves the record if that worked, or stays on a failed record if it did not.
   */
  ghost predicate EndedBy(before: Record, after: Record, done: State, mode: StopMode, calls: seq<Answer>) {
    match before.process
    case None => after == before.(state := done, lease := None)
    case Some(h) =>
      (after == before.(process := None, state := done, lease := None) && StopTried(h, mode, Ok(Unit)) in calls)
      || (after == before.(state := Failed, lease := None) && exists f :: StopTried(h, mode, Err(f)) in calls)
  }

  /** One instance was ended, with one stop attempt exactly if it held a process; the rest is as it was. */
  ghost predicate Ended(before: map<InstanceId, Record>, after: map<InstanceId, Record>, i: InstanceId, done: State,
                        mode: StopMode, calls: seq<Answer>, r: Result<Unit, ProcessFault>)
  {
    i in before && i in after && after == before[i := after[i]] && EndedBy(before[i], after[i], done, mode, calls)
    && match before[i].process
       case None => calls == [] && r.Ok?
       case Some(h) => calls == [StopTried(h, mode, r)]
  }

  /** Exactly the holder of an unexpired lease passes; a lease found overdue ends its instance. */
  ghost predicate FenceOutcome(before: map<InstanceId, Record>, after: map<InstanceId, Record>, target: InstanceId,
                               p: Proof, calls: seq<Answer>, r: Result<Unit, Error>)
  {
    if target !in before then calls == [] && after == before && r == Err(InstanceNotFound)
    else
      calls != [] && calls[0].Ticked?
      && var lease := before[target].lease;
         if p.instance == target && lease.Some? && lease.value.expiresAt <= calls[0].now
         then r == Err(FenceRefused(FenceExpired)) && exists e :: Ended(before, after, target, Expired, Force, calls[1..], e)
         else after == before && |calls| == 1
              && (r.Ok? <==> p.instance == target && lease.Some? && p.caller == lease.value.caller
                             && p.session == lease.value.session && p.lease == lease.value.id && p.epoch == lease.value.epoch)
              && (r.Err? ==> r.error.FenceRefused? && (lease.None? && p.instance == target ==> r.error.failure == Missing))
  }

  /** What inspecting the process of an unexpired instance leads to. */
  ghost predicate Observed(before: map<InstanceId, Record>, after: map<InstanceId, Record>, i: InstanceId, h: Handle,
                           calls: seq<Answer>, r: Result<State, Error>)
    requires i in before
  {
    var record := before[i];
    calls != [] && calls[0].Inspected? && calls[0].handle == h
    && match calls[0].seen
       case Err(f) => |calls| == 1 && after == before[i := record.(state := Degraded)] && r == Err(ProcessInspection(f))
       case Ok(Exited) =>
         |calls| == 1 && after == before[i := record.(state := Failed, lease := None)] && r == Err(ProcessCrashed)
       case Ok(Running) =>
         |calls| == 2 && calls[1].Probed? && calls[1].instance == i && calls[1].handle == h
         && match calls[1].readiness
            case Ok(ProbeStarting) => after == before[i := record.(state := Starting)] && r == Ok(Starting)
            case Ok(ProbeReady) => after == before[i := record.(state := Ready)] && r == Ok(Ready)
            case Ok(ProbeDegraded) => after == before[i := record.(state := Degraded)] && r == Ok(Degraded)
            case Err(f) => after == before[i := record.(state := Degraded)] && r == Err(ReadinessFault(f))
  }

  /** What reconciling a live instance does, case by case of what it saw. */
  ghost predicate Reconciled(before: map<InstanceId, Record>, after: map<InstanceId, Record>, i: InstanceId,
                             calls: seq<Answer>, r: Result<State, Error>)
    requires i in before && before[i].lease.Some?
  {
    calls != [] && calls[0].Ticked?
    && var record := before[i];
       if record.lease.value.expiresAt <= calls[0].now
       then exists e :: Ended(before, after, i, Expired, Force, calls[1..], e)
                        && r == match e case Ok(_) => Ok(Expired) case Err(f) => Err(ProcessStop(f))
       else if record.process.None?
       then |calls| == 1 && after == before[i := record.(state := Failed, lease := None)]
            && r == Err(ProcessInspection(Unavailable))
       else Observed(before, after, i, record.process.value, calls[1..], r)
  }

  /** What forwarding through an accepted proof does, case by case of what the transport answered. */
  ghost predicate Forwarded(before: map<InstanceId, Record>, after: map<InstanceId, Record>, i: InstanceId, limit: nat,
                            body: nat, calls: seq<Answer>, r: Result<nat, Error>)
    requires i in before
  {
    var record := before[i];
    if !record.state.Ready? && !record.state.Busy?
    then calls == [] && after == before && r == Err(InvalidState(record.state))
    else if record.process.None?
    then calls == [] && after == before[i := record.(state := Degraded)] && r == Err(ProcessInspection(Unavailable))
    else |calls| == 1 && calls[0].Sent? && calls[0].instance == i && calls[0].handle == record.process.value
         && calls[0].body == body
         && match calls[0].response
            case Err(f) => after == before[i := record.(state := Degraded)] && r == Err(TransportFault(f))
            case Ok(size) => if size <= limit then after == before[i := record.(state := Ready)] && r == Ok(size)
                             else after == before[i := record.(state := Degraded)] && r == Err(ResponseTooLarge)
  }

  /** Everything a run can observe of the control plane and of its use of the process port. */
  datatype Plane = Plane(
    instances: map<InstanceId, Record>, nextInstance: nat, nextLease: nat, admitting: bool,
    started: set<Handle>, stopped: set<Handle>)

  /** Every handle a start returned is held by exactly one record, or was stopped. */
  ghost predicate HandlesConserved(p: Plane) {
    && p.stopped <= p.started
    && (forall h :: h in p.started && h !in p.stopped ==>
          exists i :: i in p.instances && p.instances[i].process == Some(h))
    && (forall i :: i in p.instances && p.instances[i].process.Some? ==>
          p.instances[i].process.value in p.started && p.instances[i].process.value !in p.stopped)
    && (forall i, j :: (i in p.instances && j in p.instances && p.instances[i].process.Some?
                        && p.instances[i].process == p.instances[j].process) ==> i == j)
  }

  ghost predicate LeasesFit(p: Plane) {
    forall i :: i in p.instances ==>
      (p.instances[i].lease.Some? <==> !p.instances[i].state.Terminal())
      && (p.instances[i].lease.Some? ==> p.instances[i].lease.value.instance == i && p.instances[i].lease.value.id < p.nextLease)
  }

  ghost predicate Consistent(cfg: Config, p: Plane) {
    && HandlesConserved(p) && LeasesFit(p)
    && (forall i :: i in p.instances ==> i < p.nextInstance)
    && |p.instances| <= cfg.capacity
  }

  /** The id was handed out, and its instance is terminal or gone. */
  predicate Dead(p: Plane, i: InstanceId) {
    i < p.nextInstance && (i in p.instances ==> p.instances[i].state.Terminal())
  }

  /** What every call keeps. */
  ghost predicate Evolves(before: Plane, after: Plane) {
    && before.nextInstance <= after.nextInstance && before.nextLease <= after.nextLease
    && (!before.admitting ==> !after.admitting && after.nextInstance == before.nextInstance)
    && before.started <= after.started && before.stopped <= after.stopped
    && (forall i :: Dead(before, i) ==> Dead(after, i))
    && (forall i :: i < before.nextInstance && i !in before.instances ==> i !in after.instances)
  }

  lemma EvolvesOn(a: Plane, b: Plane, c: Plane)
    requires Evolves(a, b) && Evolves(b, c)
    ensures Evolves(a, c)
  {
  }

  ghost predicate Run(cfg: Config, history: seq<Plane>) {
    && history != []
    && (forall n :: 0 <= n < |history| ==> Consistent(cfg, history[n]))
    && (forall n :: 0 <= n < |history| - 1 ==> Evolves(history[n], history[n + 1]))
  }

  lemma {:induction false} RunEvolves(cfg: Config, history: seq<Plane>, a: nat, b: nat)
    requires Run(cfg, history) && a <= b < |history|
    ensures Evolves(history[a], history[b])
    decreases b
  {
    hide Consistent, Evolves;
    if a < b {
      RunEvolves(cfg, history, a, b - 1);
      EvolvesOn(history[a], history[b - 1], history[b]);
    } else {
      EvolvesSelf(history[a]);
    }
  }

  lemma EvolvesSelf(p: Plane)
    ensures Evolves(p, p)
  {
  }

  /** Once an instance is terminal or removed it stays so: no later point of the run has a lease for its id. */
  lemma DeadInstancesStayDead(cfg: Config, history: seq<Plane>, a: nat, b: nat, i: InstanceId)
    requires Run(cfg, history) && a <= b < |history| && Dead(history[a], i)
    ensures Dead(history[b], i)
    ensures i in history[b].instances ==> history[b].instances[i].lease.None?
  {
    RunEvolves(cfg, history, a, b);
  }

  /** After a point with admission closed and every record terminal, that never changes. */
  lemma ShutdownIsFinal(cfg: Config, history: seq<Plane>, a: nat, b: nat)
    requires Run(cfg, history) && a <= b < |history| && !history[a].admitting
    requires forall i :: i in history[a].instances ==> history[a].instances[i].state.Terminal()
    ensures !history[b].admitting && forall i :: i in history[b].instances ==> history[b].instances[i].state.Terminal()
  {
    RunEvolves(cfg, history, a, b);
    forall i | i in history[b].instances
      ensures history[b].instances[i].state.Terminal()
    {
      assert Dead(history[a], i);
    }
  }

  /** A stopped handle is held by no record ever after. */
  lemma StoppedHandlesAreReleased(cfg: Config, history: seq<Plane>, a: nat, b: nat, h: Handle)
    requires Run(cfg, history) && a <= b < |history| && h in history[a].stopped
    ensures forall i :: i in history[b].instances ==> history[b].instances[i].process != Some(h)
  {
    RunEvolves(cfg, history, a, b);
  }

  function With(p: Plane, i: InstanceId, record: Record): Plane {
    p.(instances := p.instances[i := record])
  }

  /** Handles stay conserved when a record changes anything but its handle. */
  lemma HandleKept(p: Plane, i: InstanceId, record: Record)
    requires HandlesConserved(p) && i in p.instances && record.process == p.instances[i].process
    ensures HandlesConserved(With(p, i, record))
  {
    var q := With(p, i, record);
    forall h | h in q.started && h !in q.stopped
      ensures exists j :: j in q.instances && q.instances[j].process == Some(h)
    {
      var j :| j in p.instances && p.instances[j].process == Some(h);
      assert q.instances[j].process == Some(h);
    }
  }

  /** Handles stay conserved when a stopped handle leaves its record. */
  lemma HandleStopped(p: Plane, i: InstanceId, record: Record)
    requires HandlesConserved(p) && i in p.instances && p.instances[i].process.Some? && record.process.None?
    ensures HandlesConserved(With(p, i, record).(stopped := p.stopped + {p.instances[i].process.value}))
  {
    var q := With(p, i, record).(stopped := p.stopped + {p.instances[i].process.value});
    forall h | h in q.started && h !in q.stopped
      ensures exists j :: j in q.instances && q.instances[j].process == Some(h)
    {
      var j :| j in p.instances && p.instances[j].process == Some(h);
      assert q.instances[j].process == Some(h);
    }
  }

  /** Replacing a record by one that is no more alive keeps everything else. */
  lemma ReplaceKeeps(cfg: Config, p: Plane, i: InstanceId, record: Record)
    requires LeasesFit(p) && i in p.instances && |p.instances| <= cfg.capacity
    requires forall j :: j in p.instances ==> j < p.nextInstance
    requires record.lease.Some? <==> !record.state.Terminal()
    requires record.lease.Some? ==> record.lease.value.instance == i && record.lease.value.id < p.nextLease
    requires p.instances[i].state.Terminal() ==> record.state.Terminal()
    ensures LeasesFit(With(p, i, record)) && |With(p, i, record).instances| <= cfg.capacity
    ensures forall j :: j in With(p, i, record).instances ==> j < p.nextInstance
    ensures Evolves(p, With(p, i, record))
  {
    var q := With(p, i, record);
    assert q.instances.Keys == p.instances.Keys;
    assert |q.instances.Keys| == |p.instances.Keys|;
  }

  /** Ending a record whose process was stopped keeps everything. */
  lemma StopKeeps(cfg: Config, p: Plane, i: InstanceId, record: Record)
    requires Consistent(cfg, p) && i in p.instances && p.instances[i].process.Some? && record.process.None?
    requires record.lease.None? && record.state.Terminal()
    ensures var q := With(p, i, record).(stopped := p.stopped + {p.instances[i].process.value});
            Consistent(cfg, q) && Evolves(p, q)
  {
    var q := With(p, i, record).(stopped := p.stopped + {p.instances[i].process.value});
    HandleStopped(p, i, record);
    hide HandlesConserved;
    assert q.instances.Keys == p.instances.Keys;
    assert |q.instances.Keys| == |p.instances.Keys|;
  }

  class Gateway {
    const config: Config
    var instances: map<InstanceId, Record>
    var nextInstance: nat
    var nextLease: nat
    var admitting: bool
    /** Handles are handed out by the process port, each once. */
    var nextHandle: Handle
    ghost var started: set<Handle>
    ghost var stopped: set<Handle>
    ghost var history: seq<Plane>
    /** Every call to a port, with its answer. */
    ghost var answers: seq<Answer>

    ghost function Now(): Plane
      reads this`instances, this`nextInstance, this`nextLease, this`admitting, this`started, this`stopped
    {
      Plane(instances, nextInstance, nextLease, admitting, started, stopped)
    }

    /** Consistent, at any point inside a call. */
    ghost predicate Sound()
      reads this`instances, this`nextInstance, this`nextLease, this`admitting, this`started, this`stopped, this`nextHandle
    {
      Consistent(config, Now()) && forall h :: h in started ==> h < nextHandle
    }

    ghost predicate Valid()
      reads this
    {
      Sound() && Run(config, history) && history[|history| - 1] == Now()
    }

    constructor (config: Config)
      ensures Valid() && this.config == config && admitting && instances == map[] && history == [Now()]
    {
      this.config := config;
      instances, nextInstance, nextLease, admitting, nextHandle := map[], 1, 1, true, 1;
      started, stopped, answers := {}, {}, [];
      history := [Plane(map[], 1, 1, true, {}, {})];
    }

    /** The end of a call: note the new state. */
    ghost method Close()
      requires Sound() && Run(config, history) && Evolves(history[|history| - 1], Now())
      modifies this`history
      ensures Valid() && history == old(history) + [Now()]
    {
      hide Consistent, Evolves;
      history := history + [Now()];
    }

    /** A call that ended consistently: its outcome was added to the history. */
    twostate predicate Called()
      reads this
    {
      Valid() && old(history) <= history && old(answers) <= answers
    }

    /** The port calls made since. */
    twostate function Asked(): seq<Answer>
      reads this
    {
      if |old(answers)| <= |answers| then answers[|old(answers)|..] else []
    }

    method Clock() returns (now: Tick)
      modifies this`answers
      ensures answers == old(answers) + [Ticked(now)]
    {
      now := *;
      answers := answers + [Ticked(now)];
    }

    method PortStart(i: InstanceId) returns (r: Result<Handle, ProcessFault>)
      requires forall h :: h in started ==> h < nextHandle
      modifies this`answers, this`nextHandle
      ensures answers == old(answers) + [StartTried(i, r)]
      ensures r.Ok? ==> r.value !in started && r.value < nextHandle
      ensures forall h :: h in started ==> h < nextHandle
    {
      var failed: Option<ProcessFault> := *;
      if failed.Some? {
        r := Err(failed.value);
      } else {
        r := Ok(nextHandle);
        nextHandle := nextHandle + 1;
      }
      answers := answers + [StartTried(i, r)];
    }

    /** A stop attempt on a held handle. */
    method PortStop(i: InstanceId, h: Handle, mode: StopMode) returns (r: Result<Unit, ProcessFault>)
      requires i in instances && instances[i].process == Some(h)
      modifies this`answers
      ensures answers == old(answers) + [StopTried(h, mode, r)] && (r.Ok? ==> r == Ok(Unit))
    {
      var failed: Option<ProcessFault> := *;
      r := if failed.Some? then Err(failed.value) else Ok(Unit);
      answers := answers + [StopTried(h, mode, r)];
    }

    method PortInspect(h: Handle) returns (r: Result<ProcessState, ProcessFault>)
      modifies this`answers
      ensures answers == old(answers) + [Inspected(h, r)]
    {
      r := *;
      answers := answers + [Inspected(h, r)];
    }

    method PortProbe(i: InstanceId, h: Handle) returns (r: Result<Readiness, nat>)
      modifies this`answers
      ensures answers == old(answers) + [Probed(i, h, r)]
    {
      r := *;
      answers := answers + [Probed(i, h, r)];
    }

    method PortForward(i: InstanceId, h: Handle, body: nat) returns (r: Result<nat, nat>)
      modifies this`answers
      ensures answers == old(answers) + [Sent(i, h, body, r)]
    {
      r := *;
      answers := answers + [Sent(i, h, body, r)];
    }

    /** Stop the record's process, if any, and mark the record by the outcome. */
    method StopAndMark(i: InstanceId, done: State, mode: StopMode) returns (r: Result<Unit, ProcessFault>)
      requires Sound() && i in instances && done.Terminal()
      modifies this`instances, this`stopped, this`answers
      ensures Sound() && Evolves(old(Now()), Now())
      ensures old(answers) <= answers && Ended(old(instances), instances, i, done, mode, Asked(), r) && (r.Ok? ==> r == Ok(Unit))
      ensures stopped == if r.Ok? && old(instances)[i].process.Some? then old(stopped) + {old(instances)[i].process.value}
                         else old(stopped)
    {
      hide HandlesConserved, LeasesFit, Evolves;
      var record := instances[i];
      if record.process.Some? {
        r := PortStop(i, record.process.value, mode);
        assert Asked() == [StopTried(record.process.value, mode, r)] && StopTried(record.process.value, mode, r) in Asked();
        if r.Err? {
          Replace(i, record.Marked(Failed));
          assert r == Err(r.error);
          return;
        }
        assert r == Ok(Unit);
        var ended := record.(process := None).Marked(done);
        StopKeeps(config, Now(), i, ended);
        stopped := stopped + {record.process.value};
        instances := instances[i := ended];
      } else {
        Replace(i, record.Marked(done));
        r := Ok(Unit);
      }
    }

    /** Replace a record by one with the same handle that is no more alive. */
    method Replace(i: InstanceId, record: Record)
      requires Sound() && i in instances && record.process == instances[i].process
      requires record.lease.Some? <==> !record.state.Terminal()
      requires record.lease.Some? ==> record.lease.value.instance == i && record.lease.value.id < nextLease
      requires instances[i].state.Terminal() ==> record.state.Terminal()
      modifies this`instances
      ensures Sound() && Evolves(old(Now()), Now()) && instances == old(instances)[i := record]
    {
      hide HandlesConserved, LeasesFit, Evolves;
      HandleKept(Now(), i, record);
      ReplaceKeeps(config, Now(), i, record);
      instances := instances[i := record];
    }

    /** Move a live record to another live state. */
    method Mark(i: InstanceId, next: State)
      requires Sound() && i in instances && (instances[i].state.Terminal() ==> next.Terminal())
      modifies this`instances
      ensures Sound() && Evolves(old(Now()), Now()) && instances == old(instances)[i := old(instances)[i].Marked(next)]
    {
      LeaseFacts(i);
      hide HandlesConserved, LeasesFit, Evolves;
      Replace(i, instances[i].Marked(next));
    }

    lemma LeaseFacts(i: InstanceId)
      requires Sound() && i in instances
      ensures instances[i].lease.Some? <==> !instances[i].state.Terminal()
      ensures instances[i].lease.Some? ==> instances[i].lease.value.instance == i && instances[i].lease.value.id < nextLease
    {
    }

    /** Check a proof against the target's lease; finding the lease expired ends the instance. */
    method ValidateFence(target: InstanceId, p: Proof) returns (r: Result<Unit, Error>)
      requires Sound()
      modifies this`instances, this`stopped, this`answers
      ensures Sound() && Evolves(old(Now()), Now())
      ensures old(answers) <= answers && FenceOutcome(old(instances), instances, target, p, Asked(), r)
      ensures r.Ok? ==> Now() == old(Now()) && instances[target].lease.Some? && !instances[target].state.Terminal()
      ensures r.Err? && r != Err(FenceRefused(FenceExpired)) ==> Now() == old(Now())
    {
      if target !in instances {
        EvolvesSelf(Now());
        return Err(InstanceNotFound);
      }
      LeaseFacts(target);
      hide Consistent, Evolves, EndedBy;
      EvolvesSelf(Now());
      var now := Clock();
      var decision := EvaluateFence(instances[target].lease, target, p, now);
      if decision == Err(FenceExpired) {
        ghost var read := answers;
        var ended := StopAndMark(target, Expired, Force);
        AfterFirst(old(answers), read, answers);
        assert Ended(old(instances), instances, target, Expired, Force, Asked()[1..], ended);
      }
      return if decision.Ok? then Ok(Unit) else Err(FenceRefused(decision.error));
    }

    // ---- calls --------------------------------------------------------------------------------

    /** Create an instance with its lease, then start its process; a failed start leaves no record. */
    method Allocate(caller: nat, session: nat) returns (r: Result<Lease, Error>)
      requires Valid()
      modifies this
      ensures Called()
      ensures !old(admitting) ==> r == Err(AdmissionClosed)
      ensures old(admitting) && |old(instances)| >= config.capacity ==> r == Err(CapacityExceeded)
      ensures old(admitting) && |old(instances)| < config.capacity
              && (old(nextInstance) >= 0xFFFF_FFFF_FFFF_FFFF || old(nextLease) >= 0xFFFF_FFFF_FFFF_FFFF)
              ==> r == Err(IdentityExhausted)
      ensures if old(admitting) && |old(instances)| < config.capacity && old(nextInstance) < 0xFFFF_FFFF_FFFF_FFFF
                 && old(nextLease) < 0xFFFF_FFFF_FFFF_FFFF
              then |Asked()| == 2 && Asked()[0].Ticked? && Asked()[1].StartTried?
                   && Asked()[1].instance == old(nextInstance)
                   && match Asked()[1].started
                      case Err(f) => r == Err(ProcessStart(f))
                      case Ok(h) =>
                        r == Ok(Lease(old(nextInstance), caller, session, old(nextLease), 1,
                                      After(Asked()[0].now, config.leaseMillis)))
                        && old(nextInstance) !in old(instances)
                        && instances == old(instances)[old(nextInstance) :=
                                                         Record(caller, session, Starting, Some(h), Some(r.value))]
              else Asked() == []
      ensures r.Err? ==> instances == old(instances) && started == old(started)
    {
      hide Consistent, Evolves, Run;
      EvolvesSelf(Now());
      if !admitting {
        Close();
        return Err(AdmissionClosed);
      }
      if |instances| >= config.capacity || nextInstance >= MAX_U64 {
        Close();
        return Err(if |instances| >= config.capacity then CapacityExceeded else IdentityExhausted);
      }
      var id := nextInstance;
      if nextLease >= MAX_U64 {
        Skip(0);
        Close();
        return Err(IdentityExhausted);
      }
      var now := Clock();
      var expires := if now + config.leaseMillis > MAX_U64 then MAX_U64 else now + config.leaseMillis;
      var lease := Lease(id, caller, session, nextLease, 1, expires);
      var process := PortStart(id);
      if process.Err? {
        Skip(1);
        Close();
        return Err(ProcessStart(process.error));
      }
      Admit(Record(caller, session, Starting, Some(process.value), Some(lease)), process.value);
      Close();
      return Ok(lease);
    }

    /** Keep the record of a started process, under the next ids. */
    method Admit(record: Record, handle: Handle)
      requires Sound() && admitting && |instances| < config.capacity && handle !in started && handle < nextHandle
      requires record.process == Some(handle) && !record.state.Terminal() && record.lease.Some?
      requires record.lease.value.instance == nextInstance && record.lease.value.id == nextLease
      modifies this`instances, this`nextInstance, this`nextLease, this`started
      ensures Sound() && Evolves(old(Now()), Now()) && old(nextInstance) !in old(instances)
      ensures instances == old(instances)[old(nextInstance) := record]
    {
      hide HandlesConserved, LeasesFit, Evolves;
      LaunchKeeps(config, Now(), record, handle);
      started := started + {handle};
      instances := instances[nextInstance := record];
      nextInstance, nextLease := nextInstance + 1, nextLease + 1;
    }

    /** Use up ids without keeping a record. */
    method Skip(leases: nat)
      requires Sound() && admitting
      modifies this`nextInstance, this`nextLease
      ensures Sound() && Evolves(old(Now()), Now())
    {
      hide HandlesConserved, LeasesFit, Evolves;
      CounterAdvances(Now(), nextInstance + 1, nextLease + leases);
      nextInstance, nextLease := nextInstance + 1, nextLease + leases;
    }

    /** A refused proof ends the call: nothing but the fence was asked. */
    twostate predicate Refused(target: InstanceId, p: Proof, error: Error)
      reads this
    {
      FenceOutcome(old(instances), instances, target, p, Asked(), Err(error))
    }

    /** The proof passed at the first clock reading of the call. */
    twostate predicate Passed(target: InstanceId, p: Proof)
      reads this
    {
      Asked() != [] && FenceOutcome(old(instances), old(instances), target, p, Asked()[..1], Ok(Unit))
    }

    /** Extend the lease of a proof that still holds it; only the deadline changes. */
    method Renew(p: Proof) returns (r: Result<Lease, Error>)
      requires Valid()
      modifies this
      ensures Called()
      ensures r.Err? ==> Refused(p.instance, p, r.error)
      ensures r.Ok? ==> Passed(p.instance, p) && |Asked()| == 2 && Asked()[1].Ticked? && Renewed(p.instance, r.value)
      ensures old(Dead(Now(), p.instance)) ==> r.Err?
    {
      hide Evolves, Run, HandlesConserved, FenceOutcome;
      r := ValidateAndRenew(p);
      Close();
    }

    /** Only the deadline of the lease moved, to one lease period after the last clock reading. */
    twostate predicate Renewed(i: InstanceId, lease: Lease)
      reads this
    {
      Asked() != [] && Asked()[|Asked()| - 1].Ticked? && i in old(instances) && old(instances)[i].lease.Some?
      && lease == old(instances)[i].lease.value.(expiresAt := After(Asked()[|Asked()| - 1].now, config.leaseMillis))
      && instances == old(instances)[i := old(instances)[i].(lease := Some(lease))]
    }

    method ValidateAndRenew(p: Proof) returns (r: Result<Lease, Error>)
      requires Sound()
      modifies this`instances, this`stopped, this`answers
      ensures Sound() && Evolves(old(Now()), Now()) && old(answers) <= answers
      ensures r.Err? ==> Refused(p.instance, p, r.error)
      ensures r.Ok? ==> Passed(p.instance, p) && |Asked()| == 2 && Asked()[1].Ticked? && Renewed(p.instance, r.value)
                        && !old(instances)[p.instance].state.Terminal()
    {
      hide HandlesConserved, Evolves;
      var fenced := ValidateFence(p.instance, p);
      if fenced.Err? { return Err(fenced.error); }
      LeaseFacts(p.instance);
      assert |Asked()| == 1;
      var now := Clock();
      var expires := if now + config.leaseMillis > MAX_U64 then MAX_U64 else now + config.leaseMillis;
      var record := instances[p.instance];
      var renewed := record.lease.value.(expiresAt := expires);
      Replace(p.instance, record.(lease := Some(renewed)));
      return Ok(renewed);
    }

    /** Stop an instance on behalf of its lease holder. */
    method Release(p: Proof) returns (r: Result<Unit, Error>)
      requires Valid()
      modifies this
      ensures Called()
      ensures r.Ok? ==> Passed(p.instance, p) && Ended(old(instances), instances, p.instance, Stopped, Graceful, Asked()[1..], Ok(Unit))
      ensures r.Err? ==> Refused(p.instance, p, r.error)
                         || (Passed(p.instance, p) && |Asked()| == 1 && instances == old(instances)
                             && old(instances)[p.instance].state == Stopping && r.error == InvalidState(Stopping))
                         || (Passed(p.instance, p) && r.error.ProcessStop?
                             && Ended(old(instances), instances, p.instance, Stopped, Graceful, Asked()[1..], Err(r.error.fault)))
      ensures old(Dead(Now(), p.instance)) ==> r.Err?
    {
      hide Evolves, Run, HandlesConserved, Ended, Consistent;
      var fenced := ValidateFence(p.instance, p);
      if fenced.Err? {
        Close();
        return Err(fenced.error);
      }
      ghost var read := answers;
      AfterFirst(old(answers), read, read);
      var state := instances[p.instance].state;
      if state.Stopping? {
        Close();
        return Err(InvalidState(state));
      }
      r := EndReleased(p.instance);
      AfterFirst(old(answers), read, answers);
      Close();
    }

    method EndReleased(i: InstanceId) returns (r: Result<Unit, Error>)
      requires Sound() && i in instances
      modifies this`instances, this`stopped, this`answers
      ensures Sound() && Evolves(old(Now()), Now()) && old(answers) <= answers
      ensures r.Ok? ==> Ended(old(instances), instances, i, Stopped, Graceful, Asked(), Ok(Unit))
      ensures r.Err? ==> r.error.ProcessStop?
                         && Ended(old(instances), instances, i, Stopped, Graceful, Asked(), Err(r.error.fault))
    {
      hide Evolves, Consistent, Ended;
      var done := StopAndMark(i, Stopped, Graceful);
      return if done.Ok? then Ok(Unit) else Err(ProcessStop(done.error));
    }

    /** Remove a terminal record, stopping what it still holds first. */
    method Cleanup(i: InstanceId, caller: nat, session: nat) returns (r: Result<Unit, Error>)
      requires Valid()
      modifies this
      ensures Called()
      ensures i !in old(instances) ==> r == Err(InstanceNotFound)
      ensures i in old(instances) && (old(instances)[i].caller != caller || old(instances)[i].session != session)
              ==> r == Err(IdentityMismatch)
      ensures if i in old(instances) && old(instances)[i].caller == caller && old(instances)[i].session == session
              then if !old(instances)[i].state.Stopped? && !old(instances)[i].state.Failed? && !old(instances)[i].state.Expired?
                   then r == Err(InvalidState(old(instances)[i].state)) && Asked() == [] && instances == old(instances)
                   else match old(instances)[i].process
                        case None => r.Ok? && Asked() == [] && instances == old(instances) - {i}
                        case Some(h) =>
                          |Asked()| == 1 && Asked()[0].StopTried? && Asked()[0].handle == h && Asked()[0].mode == Force
                          && match Asked()[0].ended
                             case Ok(_) => r.Ok? && instances == old(instances) - {i}
                             case Err(f) =>
                               r == Err(ProcessStop(f))
                               && instances == old(instances)[i := old(instances)[i].(state := Failed, lease := None)]
              else Asked() == [] && instances == old(instances)
    {
      hide Evolves, Run, HandlesConserved, LeasesFit;
      EvolvesSelf(Now());
      if i !in instances || instances[i].caller != caller || instances[i].session != session
         || !instances[i].state.Terminal() {
        Close();
        return Err(if i !in instances then InstanceNotFound
                   else if instances[i].caller != caller || instances[i].session != session then IdentityMismatch
                   else InvalidState(instances[i].state));
      }
      var done := StopAndMark(i, instances[i].state, Force);
      if done.Err? {
        Close();
        return Err(ProcessStop(done.error));
      }
      assert instances - {i} == old(instances) - {i};
      ghost var between := Now();
      RemoveKeeps(config, Now(), i);
      instances := instances - {i};
      EvolvesOn(old(Now()), between, Now());
      Close();
      return Ok(Unit);
    }

    /** Bring a live record in line with its process and readiness; an overdue lease ends it. */
    method Reconcile(i: InstanceId) returns (r: Result<State, Error>)
      requires Valid()
      modifies this
      ensures Called()
      ensures i !in old(instances) ==> r == Err(InstanceNotFound)
      ensures i in old(instances) && old(instances)[i].lease.None? ==> r == Ok(old(instances)[i].state)
      ensures i !in old(instances) || old(instances)[i].state.Stopped? || old(instances)[i].state.Failed?
              || old(instances)[i].state.Expired?
              ==> Asked() == [] && instances == old(instances)
      ensures i in old(instances) && !old(instances)[i].state.Stopped? && !old(instances)[i].state.Failed?
              && !old(instances)[i].state.Expired?
              ==> old(instances)[i].lease.Some? && Reconciled(old(instances), instances, i, Asked(), r)
      ensures r.Ok? ==> i in instances && instances[i].state == r.value
    {
      hide Evolves, Run, HandlesConserved;
      EvolvesSelf(Now());
      if i !in instances || instances[i].state.Terminal() {
        Close();
        return if i !in instances then Err(InstanceNotFound) else Ok(instances[i].state);
      }
      hide Reconciled;
      r := ReconcileLive(i);
      Close();
    }

    method ReconcileLive(i: InstanceId) returns (r: Result<State, Error>)
      requires Sound() && i in instances && !instances[i].state.Terminal()
      modifies this`instances, this`stopped, this`answers
      ensures Sound() && Evolves(old(Now()), Now())
      ensures old(answers) <= answers && old(instances)[i].lease.Some?
              && Reconciled(old(instances), instances, i, Asked(), r)
      ensures r.Ok? ==> i in instances && instances[i].state == r.value
    {
      LeaseFacts(i);
      hide Consistent, Evolves, Ended;
      var now := Clock();
      ghost var read := answers;
      if instances[i].lease.value.expiresAt <= now {
        ghost var ended;
        r, ended := ExpireLive(i);
        AfterFirst(old(answers), read, answers);
        return;
      }
      if instances[i].process.None? {
        Mark(i, Failed);
        return Err(ProcessInspection(Unavailable));
      }
      hide Observed;
      r := ObserveLive(i, instances[i].process.value);
      AfterFirst(old(answers), read, answers);
    }

    /** End an instance whose lease is overdue. */
    method ExpireLive(i: InstanceId) returns (r: Result<State, Error>, ghost ended: Result<Unit, ProcessFault>)
      requires Sound() && i in instances
      modifies this`instances, this`stopped, this`answers
      ensures Sound() && Evolves(old(Now()), Now()) && old(answers) <= answers
      ensures Ended(old(instances), instances, i, Expired, Force, Asked(), ended)
      ensures r == match ended case Ok(_) => Ok(Expired) case Err(f) => Err(ProcessStop(f))
      ensures r.Ok? ==> i in instances && instances[i].state == r.value
    {
      hide Consistent, Evolves;
      var done := StopAndMark(i, Expired, Force);
      return if done.Ok? then Ok(Expired) else Err(ProcessStop(done.error)), done;
    }

    /** Inspect the process and, if it runs, probe its readiness. */
    method ObserveLive(i: InstanceId, h: Handle) returns (r: Result<State, Error>)
      requires Sound() && i in instances && !instances[i].state.Terminal() && instances[i].process == Some(h)
      modifies this`instances, this`answers
      ensures Sound() && Evolves(old(Now()), Now())
      ensures old(answers) <= answers && Observed(old(instances), instances, i, h, Asked(), r)
      ensures r.Ok? ==> i in instances && instances[i].state == r.value
    {
      hide Consistent, Evolves;
      var seen := PortInspect(h);
      match seen
      case Err(fault) =>
        Mark(i, Degraded);
        return Err(ProcessInspection(fault));
      case Ok(Exited) =>
        Mark(i, Failed);
        return Err(ProcessCrashed);
      case Ok(Running) =>
        var probe := PortProbe(i, h);
        var next := if probe == Ok(ProbeStarting) then Starting else if probe == Ok(ProbeReady) then Ready else Degraded;
        Mark(i, next);
        return if probe.Ok? then Ok(next) else Err(ReadinessFault(probe.error));
    }

    /** Forward a bounded request to a ready instance on behalf of its lease holder. */
    method Forward(target: InstanceId, p: Proof, body: nat) returns (r: Result<nat, Error>)
      requires Valid()
      modifies this
      ensures Called()
      ensures if body > config.maxBody then r == Err(BodyTooLarge) && Asked() == [] && instances == old(instances)
              else (r.Err? && Refused(target, p, r.error))
                   || (Passed(target, p) && Forwarded(old(instances), instances, target, config.maxResponse, body, Asked()[1..], r))
      ensures old(Dead(Now(), target)) ==> r.Err?
    {
      hide Evolves, Run, HandlesConserved;
      EvolvesSelf(Now());
      if body > config.maxBody {
        Close();
        return Err(BodyTooLarge);
      }
      var fenced := ValidateFence(target, p);
      if fenced.Err? {
        Close();
        return Err(fenced.error);
      }
      ghost var read := answers;
      AfterFirst(old(answers), read, read);
      label Fenced:
      if !instances[target].state.AcceptsForwarding() {
        Close();
        return Err(InvalidState(instances[target].state));
      }
      hide FenceOutcome;
      r := Deliver(target, body);
      AfterFirst(old(answers), read, answers);
      EvolvesOn(old(Now()), old@Fenced(Now()), Now());
      Close();
    }

    /** Send the request to the process of an instance that accepts it. */
    method Deliver(target: InstanceId, body: nat) returns (r: Result<nat, Error>)
      requires Sound() && target in instances && instances[target].state.AcceptsForwarding()
      modifies this`instances, this`answers
      ensures Sound() && Evolves(old(Now()), Now()) && old(answers) <= answers
      ensures Forwarded(old(instances), instances, target, config.maxResponse, body, Asked(), r)
    {
      hide Consistent, Evolves;
      if instances[target].process.None? {
        Mark(target, Degraded);
        return Err(ProcessInspection(Unavailable));
      }
      Mark(target, Busy);
      var sent := PortForward(target, instances[target].process.value, body);
      var fits := sent.Ok? && sent.value <= config.maxResponse;
      ghost var between := Now();
      Mark(target, if fits then Ready else Degraded);
      EvolvesOn(old(Now()), between, Now());
      return if sent.Err? then Err(TransportFault(sent.error)) else if fits then Ok(sent.value) else Err(ResponseTooLarge);
    }

    method ExpireOne(i: InstanceId) returns (ok: bool)
      requires Sound() && i in instances
      modifies this`instances, this`stopped, this`answers
      ensures Sound() && Evolves(old(Now()), Now()) && old(answers) <= answers
      ensures i in instances && instances == old(instances)[i := instances[i]]
      ensures EndedBy(old(instances)[i], instances[i], Expired, Force, Asked()) && ok == instances[i].state.Expired?
    {
      hide Evolves, Consistent;
      var done := StopAndMark(i, Expired, Force);
      return done.Ok?;
    }

    /** End every instance whose lease is overdue. */
    method ExpireDue() returns (events: seq<(InstanceId, bool)>)
      requires Valid()
      modifies this
      ensures Called() && Asked() != [] && Asked()[0].Ticked?
      ensures instances.Keys == old(instances).Keys
      ensures forall i :: i in instances ==>
                if Overdue(old(instances)[i], Asked()[0].now)
                then EndedBy(old(instances)[i], instances[i], Expired, Force, Asked())
                else instances[i] == old(instances)[i]
      ensures Reports(events, DueAt(old(instances), Asked()[0].now), instances)
    {
      hide Evolves, Run, Sound, Now, EndedBy, Reports;
      var now := Clock();
      ghost var read := answers;
      var due := set i | i in instances && instances[i].lease.Some? && instances[i].lease.value.expiresAt <= now;
      events := ExpireAll(due);
      assert Asked() == [Ticked(now)] + answers[|read|..];
      assert Asked()[0].now == now;
      assert due == DueAt(old(instances), now);
      StillEnded([Ticked(now)], answers[|read|..]);
      Close();
    }

    method ExpireAll(due: set<InstanceId>) returns (events: seq<(InstanceId, bool)>)
      requires Sound() && due <= instances.Keys
      modifies this`instances, this`stopped, this`answers
      ensures Sound() && Evolves(old(Now()), Now()) && old(answers) <= answers && instances.Keys == old(instances).Keys
      ensures forall i :: i in instances && i !in due ==> instances[i] == old(instances)[i]
      ensures forall i :: i in due ==> EndedBy(old(instances)[i], instances[i], Expired, Force, Asked())
      ensures Reports(events, due, instances)
    {
      hide Evolves, Sound, Now, EndedBy;
      events := [];
      var rest := due;
      ghost var calls: seq<Answer> := [];
      EvolvesSelf(Now());
      hide Reports;
      assert Reports([], {}, instances) by { NothingReported(instances); }
      assert due - rest == {};
      while rest != {}
        invariant Sound() && Evolves(old(Now()), Now()) && answers == old(answers) + calls
        invariant rest <= due && instances.Keys == old(instances).Keys && Reports(events, due - rest, instances)
        invariant forall i :: i in instances && (i !in due || i in rest) ==> instances[i] == old(instances)[i]
        invariant forall i :: i in due - rest ==> EndedBy(old(instances)[i], instances[i], Expired, Force, calls)
        decreases rest
      {
        var i :| i in rest;
        ghost var before, asked, held := Now(), answers, instances;
        var ok := ExpireOne(i);
        EvolvesOn(old(Now()), before, Now());
        ghost var mine := answers[|asked|..];
        StillEnded(calls, mine);
        InTurn(old(answers), calls, mine);
        calls := calls + mine;
        ReportsOn(events, due - rest, held, instances, i);
        events := events + [(i, ok)];
        assert due - (rest - {i}) == (due - rest) + {i};
        rest := rest - {i};
      }
      assert due - rest == due;
    }

    /** Close admission and end every instance; what would not stop keeps its handle and is counted as failed. */
    method Shutdown() returns (ended: nat, failed: nat)
      requires Valid()
      modifies this
      ensures Called() && !admitting && instances.Keys == old(instances.Keys)
      ensures forall i :: i in instances ==>
                if old(instances)[i].process.None? && (old(instances)[i].state.Stopped? || old(instances)[i].state.Failed?
                                                       || old(instances)[i].state.Expired?)
                then instances[i] == old(instances)[i]
                else EndedBy(old(instances)[i], instances[i], Stopped, Graceful, Asked())
      ensures failed == |set i | i in instances && instances[i].process.Some?|
      ensures ended + failed == |set i | i in old(instances) && !Settled(old(instances)[i])|
    {
      hide Evolves, Run, Consistent;
      CloseAdmission(config, Now());
      admitting := false;
      ghost var closed := Now();
      ended, failed := EndAll();
      EvolvesOn(old(Now()), closed, Now());
      Close();
    }

    /** End one instance unless nothing is left to end; it keeps its process only if stopping it failed. */
    method EndOne(i: InstanceId) returns (tried: bool, ok: bool)
      requires Sound() && i in instances
      modifies this`instances, this`stopped, this`answers
      ensures Sound() && Evolves(old(Now()), Now()) && old(answers) <= answers
      ensures tried == !Settled(old(instances)[i])
      ensures i in instances && instances == old(instances)[i := instances[i]]
      ensures instances[i].process.Some? <==> tried && !ok
      ensures if tried then EndedBy(old(instances)[i], instances[i], Stopped, Graceful, Asked())
              else instances == old(instances)
    {
      hide Evolves, Consistent;
      EvolvesSelf(Now());
      if Settled(instances[i]) { return false, true; }
      var done := StopAndMark(i, Stopped, Graceful);
      return true, done.Ok?;
    }

    method EndAll() returns (ended: nat, failed: nat)
      requires Sound()
      modifies this`instances, this`stopped, this`answers
      ensures Sound() && Evolves(old(Now()), Now()) && instances.Keys == old(instances.Keys) && old(answers) <= answers
      ensures forall i :: i in instances ==>
                if Settled(old(instances)[i]) then instances[i] == old(instances)[i]
                else EndedBy(old(instances)[i], instances[i], Stopped, Graceful, Asked())
      ensures failed == |set i | i in instances && instances[i].process.Some?|
      ensures ended + failed == |set i | i in old(instances) && !Settled(old(instances)[i])|
    {
      hide Evolves, Consistent, Settled, Sound, Now, EndedBy;
      EvolvesSelf(Now());
      ended, failed := 0, 0;
      var rest := instances.Keys;
      ghost var calls: seq<Answer> := [];
      ghost var handled: set<InstanceId> := {};
      ghost var stuck: set<InstanceId> := {};
      while rest != {}
        invariant Sound() && Evolves(old(Now()), Now()) && answers == old(answers) + calls
        invariant rest <= instances.Keys && instances.Keys == old(instances.Keys)
        invariant forall i :: i in instances && i !in rest ==>
                    if Settled(old(instances)[i]) then instances[i] == old(instances)[i]
                    else EndedBy(old(instances)[i], instances[i], Stopped, Graceful, calls)
        invariant forall i :: i in rest ==> instances[i] == old(instances)[i]
        invariant stuck !! rest && forall i :: i in instances && i !in rest ==> (i in stuck <==> instances[i].process.Some?)
        invariant handled !! rest && handled <= instances.Keys && stuck <= instances.Keys
        invariant forall i :: i in instances && i !in rest ==> (i in handled <==> !Settled(old(instances)[i]))
        invariant failed == |stuck| && ended + failed == |handled|
        decreases rest
      {
        var i :| i in rest;
        rest := rest - {i};
        ghost var before, asked := Now(), answers;
        var tried, ok := EndOne(i);
        EvolvesOn(old(Now()), before, Now());
        ghost var mine := answers[|asked|..];
        StillEnded(calls, mine);
        InTurn(old(answers), calls, mine);
        calls := calls + mine;
        if tried {
          handled := handled + {i};
          if ok {
            ended := ended + 1;
          } else {
            failed := failed + 1;
            stuck := stuck + {i};
          }
        }
      }
      assert stuck == set i | i in instances && instances[i].process.Some?;
      assert handled == set i | i in old(instances) && !Settled(old(instances)[i]);
    }
  }

  /** Calls made one after the other. */
  lemma InTurn(before: seq<Answer>, a: seq<Answer>, b: seq<Answer>)
    ensures before + a + b == before + (a + b)
  {
  }

  predicate Overdue(record: Record, now: Tick) {
    record.lease.Some? && record.lease.value.expiresAt <= now
  }

  function DueAt(instances: map<InstanceId, Record>, now: Tick): set<InstanceId> {
    set i | i in instances && Overdue(instances[i], now)
  }

  /** One event per ended instance, saying whether it expired cleanly. */
  ghost predicate Reports(events: seq<(InstanceId, bool)>, ended: set<InstanceId>, instances: map<InstanceId, Record>) {
    ended <= instances.Keys
    && (forall i :: i in ended ==> (i, instances[i].state.Expired?) in events)
    && (forall n :: 0 <= n < |events| ==> events[n].0 in ended && events[n].1 == instances[events[n].0].state.Expired?)
    && (forall m, n :: 0 <= m < n < |events| ==> events[m].0 != events[n].0)
  }

  lemma NothingReported(instances: map<InstanceId, Record>)
    ensures Reports([], {}, instances)
  {
  }

  lemma ReportsOn(events: seq<(InstanceId, bool)>, ended: set<InstanceId>, before: map<InstanceId, Record>,
                  after: map<InstanceId, Record>, i: InstanceId)
    requires Reports(events, ended, before) && i !in ended && i in after && after == before[i := after[i]]
    ensures Reports(events + [(i, after[i].state.Expired?)], ended + {i}, after)
  {
  }

  /** What was asked after the first call. */
  lemma AfterFirst(first: seq<Answer>, second: seq<Answer>, third: seq<Answer>)
    requires first <= second <= third && |second| == |first| + 1
    ensures third[|first|..][..1] == second[|first|..] && third[|first|..][1..] == third[|second|..]
  {
  }

  /** An instance ended by some calls is ended by all calls around them. */
  lemma StillEnded(earlier: seq<Answer>, mine: seq<Answer>)
    ensures forall a, b, done, mode :: EndedBy(a, b, done, mode, earlier) || EndedBy(a, b, done, mode, mine) ==>
              EndedBy(a, b, done, mode, earlier + mine)
  {
  }

  lemma CounterAdvances(p: Plane, i: nat, l: nat)
    requires LeasesFit(p) && HandlesConserved(p) && p.nextInstance <= i && p.nextLease <= l && p.admitting
    requires forall j :: j in p.instances ==> j < p.nextInstance
    ensures var q := p.(nextInstance := i, nextLease := l); LeasesFit(q) && HandlesConserved(q) && Evolves(p, q)
  {
    var q := p.(nextInstance := i, nextLease := l);
    forall h | h in q.started && h !in q.stopped
      ensures exists j :: j in q.instances && q.instances[j].process == Some(h)
    {
      var j :| j in p.instances && p.instances[j].process == Some(h);
      assert q.instances[j].process == Some(h);
    }
  }

  lemma LaunchKeeps(cfg: Config, p: Plane, record: Record, handle: Handle)
    requires Consistent(cfg, p) && p.admitting && |p.instances| < cfg.capacity && handle !in p.started
    requires record.process == Some(handle) && !record.state.Terminal() && record.lease.Some?
    requires record.lease.value.instance == p.nextInstance && record.lease.value.id == p.nextLease
    ensures var q := Plane(p.instances[p.nextInstance := record], p.nextInstance + 1, p.nextLease + 1, p.admitting,
                           p.started + {handle}, p.stopped);
            Consistent(cfg, q) && Evolves(p, q)
  {
    var q := Plane(p.instances[p.nextInstance := record], p.nextInstance + 1, p.nextLease + 1, p.admitting,
                   p.started + {handle}, p.stopped);
    assert p.nextInstance !in p.instances;
    forall h | h in q.started && h !in q.stopped
      ensures exists j :: j in q.instances && q.instances[j].process == Some(h)
    {
      if h == handle {
        assert q.instances[p.nextInstance].process == Some(h);
      } else {
        var j :| j in p.instances && p.instances[j].process == Some(h);
        assert q.instances[j].process == Some(h);
      }
    }
  }

  lemma RemoveKeeps(cfg: Config, p: Plane, i: InstanceId)
    requires Consistent(cfg, p) && i in p.instances && p.instances[i].process.None? && p.instances[i].state.Terminal()
    ensures var q := p.(instances := p.instances - {i}); Consistent(cfg, q) && Evolves(p, q)
  {
    var q := p.(instances := p.instances - {i});
    forall h | h in q.started && h !in q.stopped
      ensures exists j :: j in q.instances && q.instances[j].process == Some(h)
    {
      var j :| j in p.instances && p.instances[j].process == Some(h);
      assert q.instances[j].process == Some(h);
    }
    assert q.instances.Keys == p.instances.Keys - {i};
  }

  lemma CloseAdmission(cfg: Config, p: Plane)
    requires Consistent(cfg, p)
    ensures Consistent(cfg, p.(admitting := false)) && Evolves(p, p.(admitting := false))
  {
    var q := p.(admitting := false);
    forall h | h in q.started && h !in q.stopped
      ensures exists j :: j in q.instances && q.instances[j].process == Some(h)
    {
      var j :| j in p.instances && p.instances[j].process == Some(h);
      assert q.instances[j].process == Some(h);
    }
  }
}
