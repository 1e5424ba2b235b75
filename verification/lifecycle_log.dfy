/**
 The shared history of a lifecycle journal and the process port, and what every such
 history guarantees.

 A log is the sequence of everything observable that coordinators did: opening the
 journal, beginning an API call, committing a table change, calling the process port.
 `Legal` says that each entry was justified by the entries before it. The coordinator
 (module `Lifecycle`) proves that all its runs are legal, for every port and store
 behaviour; the theorems here follow for every legal log.
 */
module LifecycleLog {
  import opened Outcomes
  import opened LifecycleTypes

  datatype Config = Config(maxProcesses: nat, maxRecords: nat, profileCapacity: nat, profiles: map<ProfileId, Profile>)

  /** The durable tables. */
  datatype Tables = Tables(records: map<Key, Operation>, ownership: map<InstanceId, Ownership>)

  /** One process-port call together with its outcome. */
  datatype PortCall =
    | StartCall(generation: Generation, instance: InstanceId, profile: ProfileId,
                started: Result<ProcessIdentity, StartError>)
    | RecoverCall(generation: Generation, recovered: Result<Recovery, Fault>)
    | IdentityCall(handle: Handle, seen: Result<ProcessIdentity, Fault>)
    | InspectCall(handle: Handle, state: Result<ProcessState, Fault>)
    | DescendantsCall(handle: Handle, tree: Result<seq<Descendant>, Fault>)
    | StopCall(handle: Handle, mode: StopMode, stopped: Result<Unit, Fault>)

  /**
   `token` identifies the coordinator; `call` the API call. A port entry carries `view`,
   the coordinator's cached record of the operation it acts for.
   */
  datatype Entry =
    | Opened(token: nat)
    | Begun(token: nat, call: nat)
    | Inserted(token: nat, call: nat, op: Operation)
    | Updated(token: nat, call: nat, op: Operation)
    | OwnerSet(token: nat, row: Ownership)
    | OwnerCleared(token: nat, instance: InstanceId)
    | Called(token: nat, call: nat, view: Operation, port: PortCall)

  function Commit(t: Tables, e: Entry): Tables {
    match e
    case Inserted(_, _, op) => t.(records := t.records[KeyOf(op) := op])
    case Updated(_, _, op) => t.(records := t.records[KeyOf(op) := op])
    case OwnerSet(_, row) => t.(ownership := t.ownership[row.instance := row])
    case OwnerCleared(_, i) => t.(ownership := t.ownership - {i})
    case _ => t
  }

  /** Durable tables after a log, from an empty store. */
  function Replay(log: seq<Entry>): Tables {
    if log == [] then Tables(map[], map[])
    else Commit(Replay(log[..|log| - 1]), log[|log| - 1])
  }

  /** Token of the coordinator that opened the journal last. */
  function Holder(log: seq<Entry>): Option<nat> {
    if log == [] then None
    else
      var last := log[|log| - 1];
      if last.Opened? then Some(last.token) else Holder(log[..|log| - 1])
  }

  /**
   What a coordinator's cache holds: the durable tables while it holds the journal, and afterwards the
   tables as they were when the next opener fenced it off.
   */
  function ViewOf(log: seq<Entry>, token: nat): Tables {
    if log == [] || Holder(log) == Some(token) then Replay(log) else ViewOf(log[..|log| - 1], token)
  }

  /** Number of process starts issued so far. */
  function Starts(log: seq<Entry>): nat {
    if log == [] then 0
    else
      var last := log[|log| - 1];
      Starts(log[..|log| - 1]) + if last.Called? && last.port.StartCall? then 1 else 0
  }

  lemma StartsAppend(log: seq<Entry>, e: Entry)
    ensures Starts(log + [e]) == Starts(log) + if e.Called? && e.port.StartCall? then 1 else 0
  {
    assert (log + [e])[..|log|] == log;
  }

  // ---- queries over the tables --------------------------------------------------------------

  /** `k` is the newest record of its instance that was not rejected. */
  predicate Newest(records: map<Key, Operation>, k: Key) {
    k in records && !records[k].state.Rejected?
    && forall j :: j in records && j.instance == k.instance && !records[j].state.Rejected?
                   ==> records[j].sequence <= records[k].sequence
  }

  /** Instances holding capacity: an owner row, or a newest record that is still active. */
  function Occupied(t: Tables): set<InstanceId> {
    t.ownership.Keys
    + set k | k in t.records && Newest(t.records, k) && t.records[k].state.Active() :: k.instance
  }

  /** `e` is the authority epoch the durable records give instance `i`: their largest, at least 1. */
  ghost predicate EpochIs(records: map<Key, Operation>, i: InstanceId, e: Epoch) {
    e >= 1
    && (forall k :: k in records && k.instance == i ==> records[k].authorityEpoch <= e)
    && (e == 1 || exists k :: k in records && k.instance == i && records[k].authorityEpoch == e)
  }

  // ---- what justifies an entry --------------------------------------------------------------

  ghost predicate MayInsert(cfg: Config, t: Tables, op: Operation) {
    KeyOf(op) !in t.records
    && |t.records| < cfg.maxRecords
    && op.state == IntentRecorded && op.process == None && op.failure == None
    && op.sequence > 0
    && (forall k :: k in t.records ==> t.records[k].sequence < op.sequence)
    && op.authorityEpoch == op.requestEpoch
    && EpochIs(t.records, op.instance, op.requestEpoch)
    && (if op.action.LaunchNew?
        then op.instance !in Occupied(t) && |Occupied(t)| < cfg.maxProcesses
        else op.instance in Occupied(t))
  }

  /** A restart takes the epoch after its request epoch, which no record holds yet. */
  ghost predicate Rotates(t: Tables, before: Operation, after: Operation) {
    before.action.Restart? && !before.Rotated()
    && after.authorityEpoch == before.requestEpoch + 1
    && EpochIs(t.records, before.instance, before.requestEpoch)
  }

  ghost predicate MayUpdate(t: Tables, op: Operation) {
    KeyOf(op) in t.records
    && var before := t.records[KeyOf(op)];
       before.state.Active() && before.SameRequest(op) && op.Fits()
       && (op.authorityEpoch == before.authorityEpoch || Rotates(t, before, op))
       && (Newest(t.records, KeyOf(op)) || op.state.Rejected?)
  }

  ghost predicate MayOwn(t: Tables, row: Ownership) {
    var k := Key(row.instance, row.operation);
    k in t.records && t.records[k].state.Active() && row.sequence == t.records[k].sequence
    && (if row.instance in t.ownership
        then row.sequence >= t.ownership[row.instance].sequence
        else Newest(t.records, k))
  }

  /** The record is in these tables, active, and newest of its instance. */
  ghost predicate Acts(t: Tables, view: Operation) {
    Newest(t.records, KeyOf(view)) && t.records[KeyOf(view)] == view && view.state.Active()
  }

  /** The port was called with this outcome during this API call. */
  ghost predicate Seen(log: seq<Entry>, call: nat, port: PortCall) {
    exists j :: 0 <= j < |log| && log[j].Called? && log[j].call == call && log[j].port == port
  }

  ghost predicate StartedInCall(log: seq<Entry>, call: nat) {
    exists j :: 0 <= j < |log| && log[j].Called? && log[j].call == call && log[j].port.StartCall?
  }

  ghost predicate InsertedInCall(log: seq<Entry>, call: nat, k: Key) {
    exists j :: 0 <= j < |log| && log[j].Inserted? && log[j].call == call && KeyOf(log[j].op) == k
  }

  /** What is durable, and what has already been done, when a start is issued. */
  ghost predicate WriteAhead(log: seq<Entry>, call: nat, view: Operation, port: PortCall)
    requires port.StartCall?
  {
    var g := port.generation;
    view.process == None
    && view.instance in Replay(log).ownership
    && g.instance == port.instance == view.instance && g.operation == view.id && g.sequence == view.sequence
    && g.requestEpoch == view.requestEpoch && g.authorityEpoch == view.authorityEpoch
    && g.profile == port.profile
    && match view.action
       case LaunchNew(p) =>
         p == g.profile && g.kind == LaunchGeneration && view.state == Starting
         && !StartedInCall(log, call)
         && InsertedInCall(log, call, KeyOf(view))
       case Restart(p) =>
         p == g.profile && g.kind == RestartReplacement && view.state == Restarting
         && view.authorityEpoch == view.requestEpoch + 1
       case _ => false
  }

  // ---- which profile an operation is held to ---------------------------------------------------

  predicate NamesProfile(action: Action) {
    action.LaunchNew? || action.Restart?
  }

  /** A record that supplies the profile of its unowned instance. */
  predicate Supplies(cfg: Config, records: map<Key, Operation>, i: InstanceId, k: Key) {
    k in records && k.instance == i && records[k].process.Some? && records[k].state.Active()
    && NamesProfile(records[k].action) && records[k].action.profile in cfg.profiles
  }

  /**
   `p` is the profile the tables give an operation: the owner row's; without one the action's; without
   that the one of the supplying record with the greatest operation id.
   */
  ghost predicate Governs(cfg: Config, t: Tables, op: Operation, p: Profile) {
    if op.instance in t.ownership
    then t.ownership[op.instance].profile in cfg.profiles && p == cfg.profiles[t.ownership[op.instance].profile]
    else if NamesProfile(op.action) then op.action.profile in cfg.profiles && p == cfg.profiles[op.action.profile]
    else exists k :: Supplies(cfg, t.records, op.instance, k) && p == cfg.profiles[t.records[k].action.profile]
                     && forall j :: Supplies(cfg, t.records, op.instance, j) ==> j.operation <= k.operation
  }

  /** At some point of this API call the coordinator's tables gave the record this profile. */
  ghost predicate Governed(cfg: Config, log: seq<Entry>, token: nat, call: nat, k: Key, p: Profile) {
    exists m :: 0 <= m <= |log| && Begun(token, call) in log[..m]
                && k in ViewOf(log[..m], token).records
                && Governs(cfg, ViewOf(log[..m], token), ViewOf(log[..m], token).records[k], p)
  }

  /** `p` is the operation's own profile, or one this call found for a record of the instance. */
  ghost predicate Pinned(cfg: Config, log: seq<Entry>, token: nat, call: nat, i: InstanceId, action: Action, p: Profile) {
    (NamesProfile(action) && action.profile in cfg.profiles && p == cfg.profiles[action.profile])
    || exists k: Key :: k.instance == i && Governed(cfg, log, token, call, k, p)
  }

  /** The identity fits a pinned profile, and so does its whole tree as seen in this call. */
  ghost predicate InProfile(cfg: Config, log: seq<Entry>, token: nat, call: nat, k: Key, action: Action,
                            identity: ProcessIdentity) {
    exists tree, p ::
      Pinned(cfg, log, token, call, k.instance, action, p) && identity.Matches(identity.instance, p)
      && Seen(log, call, DescendantsCall(identity.handle, Ok(tree))) && InScope(tree, identity.instance, p)
  }

  /** The whole tree, as seen in this call, is inside the profile the tables give the operation itself. */
  ghost predicate InRetainedProfile(cfg: Config, log: seq<Entry>, token: nat, call: nat, k: Key, identity: ProcessIdentity) {
    exists tree, p ::
      Governed(cfg, log, token, call, k, p)
      && Seen(log, call, DescendantsCall(identity.handle, Ok(tree))) && InScope(tree, k.instance, p)
  }

  /** The identity was observed in this call, with its whole tree in the scope and bound of its profile. */
  ghost predicate Observed(cfg: Config, log: seq<Entry>, token: nat, call: nat, k: Key, action: Action,
                           identity: ProcessIdentity) {
    Seen(log, call, IdentityCall(identity.handle, Ok(identity)))
    && (InProfile(cfg, log, token, call, k, action, identity) || InRetainedProfile(cfg, log, token, call, k, identity))
  }

  ghost predicate JustStarted(log: seq<Entry>, call: nat, identity: ProcessIdentity) {
    exists j :: 0 <= j < |log| && log[j].Called? && log[j].call == call
                && log[j].port.StartCall? && log[j].port.started == Ok(identity)
  }

  /** A stop targets a process this call started, or the recorded identity observed afresh. */
  ghost predicate StopFence(cfg: Config, log: seq<Entry>, token: nat, call: nat, view: Operation, handle: Handle) {
    (view.action.Restart? ==> view.authorityEpoch == view.requestEpoch + 1)
    && exists identity: ProcessIdentity ::
         identity.handle == handle
         && (JustStarted(log, call, identity)
             || (view.process == Some(identity) && Observed(cfg, log, token, call, KeyOf(view), view.action, identity)))
  }

  /** The identity was observed in this call, running, itself and its whole tree inside its profile. */
  ghost predicate Verified(cfg: Config, log: seq<Entry>, token: nat, call: nat, k: Key, action: Action,
                           identity: ProcessIdentity) {
    Seen(log, call, IdentityCall(identity.handle, Ok(identity)))
    && Seen(log, call, InspectCall(identity.handle, Ok(Running)))
    && InProfile(cfg, log, token, call, k, action, identity)
  }

  /** The process was stopped, or seen to have exited, in this call. */
  ghost predicate Ended(log: seq<Entry>, call: nat, handle: Handle) {
    Seen(log, call, InspectCall(handle, Ok(Exited)))
    || exists mode :: Seen(log, call, StopCall(handle, mode, Ok(Unit)))
  }

  /** It ended, and nothing of its tree was left, both seen in this call. */
  ghost predicate ConfirmedGone(log: seq<Entry>, call: nat, handle: Handle) {
    Ended(log, call, handle) && Seen(log, call, DescendantsCall(handle, Ok([])))
  }

  /** Start errors that say that nothing was started. */
  predicate Explicit(error: StartError) {
    error.Unsupported? || error.fault.StartRejected? || error.fault.ProfileRequired? || error.fault.ProfileNotApproved?
  }

  /** The operation's start was explicitly refused in this call. */
  ghost predicate RefusedInCall(log: seq<Entry>, call: nat, k: Key) {
    exists j :: 0 <= j < |log| && log[j].Called? && log[j].call == call && log[j].port.StartCall?
                && log[j].port.generation.instance == k.instance && log[j].port.generation.operation == k.operation
                && log[j].port.started.Err? && Explicit(log[j].port.started.error)
  }

  /**
   A record claims a start only for a verified process, lets go of a process only once it is gone, and
   fails without a process only when its start was explicitly refused.
   */
  ghost predicate Grounded(cfg: Config, log: seq<Entry>, token: nat, call: nat, before: Operation, op: Operation) {
    && (op.state.Started? ==> op.process.Some? && Verified(cfg, log, token, call, KeyOf(op), op.action, op.process.value))
    && (before.process.Some? && (op.process.None? || op.state.Stopped? || op.state.Failed?) ==>
          ConfirmedGone(log, call, before.process.value.handle))
    && (op.state.Stopped? ==> before.process.Some?)
    && (op.state.Failed? && before.process.None? ==> RefusedInCall(log, call, KeyOf(op)))
  }

  /** A stop is as forceful as the stop request says; every other operation stops by force. */
  predicate StopAsRequested(view: Operation, mode: StopMode) {
    mode == if view.action.Stop? then view.action.mode else Force
  }

  ghost predicate Permitted(cfg: Config, log: seq<Entry>, e: Entry) {
    var t := Replay(log);
    match e
    case Opened(token) => forall j :: 0 <= j < |log| && log[j].Opened? ==> log[j].token != token
    case Begun(token, call) => forall j :: 0 <= j < |log| && log[j].Begun? ==> log[j].call != call
    case Inserted(token, call, op) =>
      Holder(log) == Some(token) && Begun(token, call) in log && MayInsert(cfg, t, op)
    case Updated(token, call, op) =>
      Holder(log) == Some(token) && MayUpdate(t, op) && Grounded(cfg, log, token, call, t.records[KeyOf(op)], op)
    case OwnerSet(token, row) => Holder(log) == Some(token) && MayOwn(t, row)
    case OwnerCleared(token, i) => Holder(log) == Some(token) && i in t.ownership
    case Called(token, call, view, port) =>
      Begun(token, call) in log
      && Acts(ViewOf(log, token), view)
      && (view.action.Restart? && (port.StartCall? || port.StopCall?)
          ==> EpochIs(ViewOf(log, token).records, view.instance, view.authorityEpoch))
      && (port.StartCall? ==> Holder(log) == Some(token) && WriteAhead(log, call, view, port))
      && (port.StopCall? ==> StopFence(cfg, log, token, call, view, port.handle) && StopAsRequested(view, port.mode))
  }

  lemma UpdatePermitted(cfg: Config, log: seq<Entry>, token: nat, call: nat, op: Operation)
    requires Holder(log) == Some(token) && MayUpdate(Replay(log), op)
    requires Grounded(cfg, log, token, call, Replay(log).records[KeyOf(op)], op)
    ensures Permitted(cfg, log, Updated(token, call, op))
  {
  }

  lemma InsertPermitted(cfg: Config, log: seq<Entry>, token: nat, call: nat, op: Operation)
    requires Holder(log) == Some(token) && Begun(token, call) in log && MayInsert(cfg, Replay(log), op)
    ensures Permitted(cfg, log, Inserted(token, call, op))
  {
  }

  lemma OwnerPermitted(cfg: Config, log: seq<Entry>, token: nat, row: Ownership)
    requires Holder(log) == Some(token) && MayOwn(Replay(log), row)
    ensures Permitted(cfg, log, OwnerSet(token, row))
  {
  }

  ghost predicate Legal(cfg: Config, log: seq<Entry>) {
    log == [] || (Legal(cfg, log[..|log| - 1]) && Permitted(cfg, log[..|log| - 1], log[|log| - 1]))
  }

  // ---- invariant of the durable tables ------------------------------------------------------

  ghost predicate Keyed(t: Tables) {
    forall k :: k in t.records ==> KeyOf(t.records[k]) == k && t.records[k].sequence > 0
  }

  ghost predicate SequencesUnique(t: Tables) {
    forall j, k :: j in t.records && k in t.records && t.records[j].sequence == t.records[k].sequence ==> j == k
  }

  /** An authority epoch is the request epoch, or, for a restart only, the one after it. */
  ghost predicate EpochsBounded(t: Tables) {
    forall k :: k in t.records ==>
      t.records[k].requestEpoch >= 1
      && (t.records[k].Rotated() ==>
            t.records[k].action.Restart? && t.records[k].authorityEpoch == t.records[k].requestEpoch + 1)
  }

  ghost predicate StatesFit(t: Tables) {
    forall k :: k in t.records ==> t.records[k].Fits()
  }

  ghost predicate RotationsUnique(t: Tables) {
    forall j, k :: (j in t.records && k in t.records && j.instance == k.instance
                    && t.records[j].Rotated() && t.records[k].Rotated()
                    && t.records[j].authorityEpoch == t.records[k].authorityEpoch) ==> j == k
  }

  /** An owner row names a record of its instance and carries that record's sequence. */
  ghost predicate OwnersBacked(t: Tables) {
    forall i :: i in t.ownership ==>
      t.ownership[i].instance == i && Key(i, t.ownership[i].operation) in t.records
      && t.ownership[i].sequence == t.records[Key(i, t.ownership[i].operation)].sequence
  }

  ghost predicate Invariant(cfg: Config, t: Tables) {
    Keyed(t) && SequencesUnique(t) && EpochsBounded(t) && RotationsUnique(t) && StatesFit(t) && OwnersBacked(t)
    && |Occupied(t)| <= cfg.maxProcesses
    && |t.records| <= cfg.maxRecords
  }

  /** A record that is newest after a change was newest before it, if nothing newer was dropped. */
  lemma NewestBefore(before: map<Key, Operation>, after: map<Key, Operation>, k: Key)
    requires Newest(after, k) && k in before && before[k] == after[k]
    requires forall j :: j in before && j.instance == k.instance && !before[j].state.Rejected?
               ==> before[j].sequence <= before[k].sequence || (j in after && after[j] == before[j])
    ensures Newest(before, k)
  {
  }

  lemma InsertOccupancy(t: Tables, op: Operation, i: InstanceId)
    requires KeyOf(op) !in t.records && i != op.instance
    requires i in Occupied(t.(records := t.records[KeyOf(op) := op]))
    ensures i in Occupied(t)
  {
    if i !in t.ownership {
      var after := t.records[KeyOf(op) := op];
      var k :| k in after && Newest(after, k) && after[k].state.Active() && k.instance == i;
      NewestBefore(t.records, after, k);
    }
  }

  lemma UpdateOccupancy(t: Tables, op: Operation, i: InstanceId)
    requires MayUpdate(t, op)
    requires i in Occupied(t.(records := t.records[KeyOf(op) := op]))
    ensures i in Occupied(t)
  {
    var key := KeyOf(op);
    if i !in t.ownership && !(i == key.instance && Newest(t.records, key)) {
      var after := t.records[key := op];
      var k :| k in after && Newest(after, k) && after[k].state.Active() && k.instance == i;
      if i == key.instance {
        // The updated record was superseded and is now rejected.
        var newer :| newer in t.records && newer.instance == i && !t.records[newer].state.Rejected?
                     && t.records[newer].sequence > t.records[key].sequence;
        assert after[newer] == t.records[newer];
      }
      NewestBefore(t.records, after, k);
    }
  }

  /** Only inserting a launch makes an unoccupied instance occupied, and only that instance. */
  lemma OccupancyGrowsOnlyByLaunch(cfg: Config, log: seq<Entry>, e: Entry, i: InstanceId)
    requires Permitted(cfg, log, e)
    requires i !in Occupied(Replay(log)) && i in Occupied(Commit(Replay(log), e))
    ensures e.Inserted? && e.op.action.LaunchNew? && e.op.instance == i
  {
    var t := Replay(log);
    match e
    case Inserted(_, _, op) =>
      if i != op.instance {
        InsertOccupancy(t, op, i);
      }
    case Updated(_, _, op) => UpdateOccupancy(t, op, i);
    case OwnerSet(_, row) =>
    case OwnerCleared(_, _) =>
    case _ =>
  }

  lemma StepKeepsCapacity(cfg: Config, log: seq<Entry>, e: Entry)
    requires |Occupied(Replay(log))| <= cfg.maxProcesses && Permitted(cfg, log, e)
    ensures |Occupied(Commit(Replay(log), e))| <= cfg.maxProcesses
  {
    var before, after := Occupied(Replay(log)), Occupied(Commit(Replay(log), e));
    var bound := if e.Inserted? && e.op.action.LaunchNew? then before + {e.op.instance} else before;
    forall i | i in after && i !in before
      ensures i in bound
    {
      OccupancyGrowsOnlyByLaunch(cfg, log, e, i);
    }
    SubsetSize(after, bound);
  }

  lemma StepKeepsRecords(cfg: Config, log: seq<Entry>, e: Entry)
    requires Keyed(Replay(log)) && SequencesUnique(Replay(log)) && EpochsBounded(Replay(log))
    requires StatesFit(Replay(log)) && Permitted(cfg, log, e)
    ensures Keyed(Commit(Replay(log), e)) && SequencesUnique(Commit(Replay(log), e))
    ensures EpochsBounded(Commit(Replay(log), e)) && StatesFit(Commit(Replay(log), e))
  {
  }

  lemma StepKeepsRotations(cfg: Config, log: seq<Entry>, e: Entry)
    requires Keyed(Replay(log)) && EpochsBounded(Replay(log)) && RotationsUnique(Replay(log))
    requires Permitted(cfg, log, e)
    ensures RotationsUnique(Commit(Replay(log), e))
  {
  }

  lemma StepKeepsOwners(cfg: Config, log: seq<Entry>, e: Entry)
    requires Keyed(Replay(log)) && OwnersBacked(Replay(log)) && Permitted(cfg, log, e)
    ensures OwnersBacked(Commit(Replay(log), e))
  {
  }

  lemma StepKeepsInvariant(cfg: Config, log: seq<Entry>, e: Entry)
    requires Invariant(cfg, Replay(log)) && Permitted(cfg, log, e)
    ensures Invariant(cfg, Commit(Replay(log), e))
  {
    StepKeepsCapacity(cfg, log, e);
    StepKeepsRecords(cfg, log, e);
    StepKeepsRotations(cfg, log, e);
    StepKeepsOwners(cfg, log, e);
    if e.Updated? {
      assert Commit(Replay(log), e).records.Keys == Replay(log).records.Keys;
    }
  }

  /** Every legal log leaves tables that satisfy the invariant. */
  lemma {:induction false} LegalKeepsInvariant(cfg: Config, log: seq<Entry>)
    requires Legal(cfg, log)
    ensures Invariant(cfg, Replay(log))
  {
    if log == [] {
      assert Occupied(Replay(log)) == {};
    } else {
      var n := |log| - 1;
      LegalKeepsInvariant(cfg, log[..n]);
      StepKeepsInvariant(cfg, log[..n], log[n]);
    }
  }

  lemma {:induction false} PrefixLegal(cfg: Config, log: seq<Entry>, n: nat)
    requires n <= |log| && Legal(cfg, log)
    ensures Legal(cfg, log[..n])
  {
    if n == |log| {
      assert log[..n] == log;
    } else {
      PrefixLegal(cfg, log[..|log| - 1], n);
      assert log[..|log| - 1][..n] == log[..n];
    }
  }

  /** A legal log grows by a permitted entry into a legal log, whose tables are the committed ones. */
  lemma LegalAppend(cfg: Config, log: seq<Entry>, e: Entry)
    requires Legal(cfg, log) && Permitted(cfg, log, e)
    ensures Legal(cfg, log + [e])
    ensures Replay(log + [e]) == Commit(Replay(log), e)
    ensures Holder(log + [e]) == if e.Opened? then Some(e.token) else Holder(log)
    ensures Invariant(cfg, Replay(log)) && Invariant(cfg, Commit(Replay(log), e))
  {
    assert (log + [e])[..|log|] == log;
    LegalKeepsInvariant(cfg, log);
    StepKeepsInvariant(cfg, log, e);
  }
}
