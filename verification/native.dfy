/**
 The durable generation registry and the native process port over it. A commit may be lost, or take
 effect although its acknowledgment is lost; every controller call may fail or answer anything.
 */
module Native {
  import opened Outcomes
  import opened LifecycleTypes
  import opened NativeLog

  datatype RegistryError = Down | Full | NamespaceTaken | NotStored | Refused

  /** An approved profile bound to an image on this host. */
  datatype NativeProfile = NativeProfile(profile: Profile, digest: nat, image: nat, executable: nat)

  class GenerationRegistry {
    const capacity: nat
    var rows: Rows
    /** Source of fresh unit names. */
    var nextUnit: UnitName
    ghost var log: seq<Entry>
    /** How often a save was refused by its own guards. */
    ghost var refusals: nat
    /** How often the database failed, an acknowledgment was lost, or the host refused an image or directory. */
    ghost var faults: nat

    ghost predicate Valid()
      reads this
    {
      && capacity <= 1024
      && Legal(capacity, log) && Replay(log) == rows
      && (forall k :: k in rows ==> rows[k].unit < nextUnit && rows[k].handle <= |rows|)
    }

    constructor (capacity: nat)
      requires 0 < capacity <= 1024
      ensures Valid() && this.capacity == capacity && rows == map[] && log == [] && refusals == 0 && faults == 0
    {
      this.capacity := capacity;
      rows, nextUnit, log, refusals, faults := map[], 0, [], 0, 0;
    }

    lemma Sound()
      requires Valid()
      ensures Invariant(capacity, rows)
    {
      LegalKeepsInvariant(capacity, log);
    }

    ghost method Note(e: Entry)
      requires Valid() && !e.Reserved? && !e.Saved? && Permitted(capacity, log, e)
      modifies this`log
      ensures Valid() && log == old(log) + [e]
    {
      hide Permitted, Legal, Replay, Invariant;
      LegalAppend(capacity, log, e);
      log := log + [e];
    }

    /** A statement may fail. */
    method Reached() returns (r: Result<Unit, RegistryError>)
      modifies this`faults
      ensures r.Err? <==> faults > old(faults)
      ensures faults >= old(faults) && (r.Err? ==> r.error.Down?)
    {
      var down: bool := *;
      if down { faults := faults + 1; }
      return if down then Err(Down) else Ok(Unit);
    }

    /** A commit may be lost, or stored without its acknowledgment. */
    method Committed() returns (stored: bool, acknowledged: bool)
      modifies this`faults
      ensures acknowledged ==> stored
      ensures acknowledged <==> faults == old(faults)
      ensures faults >= old(faults)
    {
      stored, acknowledged := *, *;
      acknowledged := acknowledged && stored;
      if !acknowledged { faults := faults + 1; }
    }

    /** Re-read every record after a restart: all decode, units are distinct, capacity fits. */
    method Reopen() returns (r: Result<Unit, RegistryError>)
      requires Valid()
      modifies this`faults
      ensures r.Err? <==> faults > old(faults)
      ensures r.Ok? ==> |rows| <= capacity && forall k :: k in rows ==> rows[k].key == k && WellFormed(rows[k])
    {
      Sound();
      var _ :- Reached();
      if |rows| > capacity { return Err(Full); }
      var rest, units: set<UnitName> := rows.Keys, {};
      while rest != {}
        invariant rest <= rows.Keys
        invariant forall u :: u in units ==> exists k :: k in rows && k !in rest && rows[k].unit == u
        decreases rest
      {
        var k :| k in rest;
        if !WellFormed(rows[k]) || rows[k].key != k || rows[k].unit in units { return Err(Refused); }
        units := units + {rows[k].unit};
        rest := rest - {k};
      }
      return Ok(Unit);
    }

    method ByKey(key: Generation) returns (r: Result<Option<Record>, RegistryError>)
      modifies this`faults
      ensures r.Ok? ==> r.value == if key in rows then Some(rows[key]) else None
      ensures r.Err? <==> faults > old(faults)
      ensures faults >= old(faults) && (r.Err? ==> r.error.Down?)
    {
      var _ :- Reached();
      return Ok(if key in rows then Some(rows[key]) else None);
    }

    method ByHandle(handle: Handle) returns (r: Result<Record, RegistryError>)
      requires Valid()
      modifies this`faults
      ensures faults >= old(faults)
      ensures r.Ok? ==> r.value.handle == handle && r.value.key in rows && rows[r.value.key] == r.value
      ensures r.Err? <==> faults > old(faults) || forall k :: k in rows ==> rows[k].handle != handle
    {
      Sound();
      var _ :- Reached();
      if exists k :: k in rows && rows[k].handle == handle {
        var k :| k in rows && rows[k].handle == handle;
        return Ok(rows[k]);
      }
      return Err(NotStored);
    }

    /** A new record: nothing has happened for it yet, and no other record has its handle or unit. */
    static ghost predicate Fresh(rows: Rows, record: Record, profile: Profile, digest: nat, boot: BootId) {
      record == Record(record.key, |rows| + 1, record.unit, boot, profile, digest, false, false, false, None, None, None)
      && forall k :: k in rows ==> rows[k].handle != record.handle && rows[k].unit != record.unit
    }

    /** The record already kept for a generation, or a new one if its namespace has no open record. */
    method Reserve(key: Generation, profile: Profile, digest: nat, boot: BootId)
      returns (r: Result<(Record, bool), RegistryError>)
      requires Valid()
      modifies this`rows, this`nextUnit, this`log, this`faults
      ensures Valid() && old(log) <= log && faults >= old(faults)
      ensures r.Ok? ==> key in rows && rows[key] == r.value.0 && r.value.1 == (key !in old(rows))
      ensures key in old(rows) ==> rows == old(rows) && log == old(log)
      ensures r.Ok? && r.value.1 ==> rows == old(rows)[key := r.value.0] && log == old(log) + [Reserved(r.value.0)]
                                     && Fresh(old(rows), r.value.0, profile, digest, boot) && r.value.0.key == key
      ensures r.Err? ==> (rows == old(rows) && log == old(log))
                         || (faults > old(faults) && key !in old(rows) && key in rows && rows == old(rows)[key := rows[key]]
                             && log == old(log) + [Reserved(rows[key])]
                             && Fresh(old(rows), rows[key], profile, digest, boot))
      ensures r.Err? <==> faults > old(faults)
                          || (key !in old(rows)
                              && (|old(rows)| >= capacity
                                  || exists k :: k in old(rows) && old(rows)[k].profile.userData == profile.userData
                                                 && !old(rows)[k].absent))
    {
      var found :- ByKey(key);
      if found.Some? { return Ok((found.value, false)); }
      if |rows| >= capacity { return Err(Full); }
      if exists k :: k in rows && rows[k].profile.userData == profile.userData && !rows[k].absent {
        return Err(NamespaceTaken);
      }
      var unit := nextUnit;
      nextUnit := nextUnit + 1;
      var record := Record(key, |rows| + 1, unit, boot, profile, digest, false, false, false, None, None, None);
      var committed, acknowledged := Committed();
      if committed {
        StoreNew(record);
      }
      if !acknowledged { return Err(Down); }
      return Ok((record, true));
    }

    method StoreNew(record: Record)
      requires Valid() && Permitted(capacity, log, Reserved(record)) && record.unit < nextUnit && record.handle <= |rows| + 1
      modifies this`rows, this`log
      ensures Valid() && rows == old(rows)[record.key := record] && log == old(log) + [Reserved(record)]
    {
      hide Permitted, Legal, Replay, Invariant;
      NotStoredYet(record);
      LegalAppend(capacity, log, Reserved(record));
      log := log + [Reserved(record)];
      rows := rows[record.key := record];
    }

    lemma NotStoredYet(record: Record)
      requires Replay(log) == rows && Permitted(capacity, log, Reserved(record))
      ensures record.key !in rows
    {
    }

    /**
     Replace a record by a later version of itself. Versions that change a fixed or write-once field,
     lower a flag or are malformed are refused.
     */
    method Save(record: Record) returns (r: Result<Unit, RegistryError>)
      requires Valid()
      requires record.key in rows && record.absent && !rows[record.key].absent ==> Vacated(log, record.unit)
      modifies this`rows, this`log, this`refusals, this`faults
      ensures Valid() && old(log) <= log && rows.Keys == old(rows.Keys) && faults >= old(faults)
      ensures r.Ok? ==> rows == old(rows)[record.key := record] && log == old(log) + [Saved(record)]
      ensures r.Err? ==> (rows == old(rows) && log == old(log))
                         || (record.key in old(rows) && Grows(old(rows)[record.key], record)
                             && rows == old(rows)[record.key := record] && log == old(log) + [Saved(record)])
      ensures refusals == if r == Err(Refused) then old(refusals) + 1 else old(refusals)
      ensures r == Err(Refused) ==>
                !(record.key in old(rows) && Grows(old(rows)[record.key], record) && WellFormed(record))
      ensures r.Err? <==> faults > old(faults)
                          || !(record.key in old(rows) && Grows(old(rows)[record.key], record) && WellFormed(record))
    {
      var found := ByKey(record.key);
      if found.Err? { return Err(Down); }
      if found.value.None? || !Grows(found.value.value, record) || !WellFormed(record) {
        refusals := refusals + 1;
        return Err(Refused);
      }
      var committed, acknowledged := Committed();
      if committed {
        StoreNext(record);
      }
      return if acknowledged then Ok(Unit) else Err(Down);
    }

    method StoreNext(record: Record)
      requires Valid() && record.key in rows && Grows(rows[record.key], record) && WellFormed(record)
      requires record.absent && !rows[record.key].absent ==> Vacated(log, record.unit)
      modifies this`rows, this`log
      ensures Valid() && rows == old(rows)[record.key := record] && log == old(log) + [Saved(record)]
    {
      hide Legal, Replay, Invariant, Vacated;
      LegalAppend(capacity, log, Saved(record));
      log := log + [Saved(record)];
      rows := rows[record.key := record];
    }
  }

  predicate SameUnit(before: Record, after: Record) {
    after.handle == before.handle && after.unit == before.unit && after.profile == before.profile
  }

  /** What the controller reports fits the record, its binding and what is already known of the unit. */
  predicate Fits(record: Record, binding: NativeProfile, seen: Observation)
    requires seen.Present?
  {
    && seen.invocation != 0 && seen.group.unit == record.unit
    && (record.invocation.Some? ==> record.invocation.value == seen.invocation)
    && (record.group.Some? ==> record.group.value == seen.group)
    && |seen.members| <= binding.profile.maxDescendants + 1
    && (forall i :: 0 <= i < |seen.members| ==>
          seen.members[i].pid != 0 && seen.members[i].birth != 0 && seen.members[i].group == seen.group
          && seen.members[i].image == binding.image && seen.members[i].executable == binding.executable)
    && (record.identity.Some? ==>
          (seen.mainPid == 0 || seen.mainPid == record.identity.value.pid)
          && forall i :: 0 <= i < |seen.members| && seen.members[i].pid == record.identity.value.pid ==>
               seen.members[i].birth == record.identity.value.birth)
  }

  /** The identity is that of the first member with the main pid, if there is one. */
  ghost predicate Identifies(identity: Option<ProcessIdentity>, record: Record, instance: InstanceId, seen: Observation)
    requires seen.Present?
  {
    match identity
    case None => forall i :: 0 <= i < |seen.members| ==> seen.members[i].pid != seen.mainPid
    case Some(id) =>
      exists i :: 0 <= i < |seen.members| && seen.members[i].pid == seen.mainPid
        && (forall j :: 0 <= j < i ==> seen.members[j].pid != seen.mainPid)
        && id == ProcessIdentity(instance, record.handle, seen.members[i].pid, seen.members[i].birth,
                                 Some(record.profile.executable), Some(record.profile.userData))
  }

  function MembersOf(seen: Observation): seq<Member> {
    if seen.Missing? then [] else seen.members
  }

  /** The controller was asked about the unit of the record and answered. */
  ghost predicate Answered(record: Record, calls: seq<Entry>) {
    calls != [] && calls[0].ObserveCalled? && calls[0].unit == record.unit && calls[0].seen.Ok?
  }

  /** The control group was asked for next, and found empty. */
  ghost predicate FoundEmpty(calls: seq<Entry>) {
    |calls| > 1 && calls[1].GroupCalled? && calls[1].empty == Ok(true)
  }

  /** Why an observation of a dispatched record is of no use: the controller failed or contradicts the record. */
  ghost predicate Contradicted(record: Record, binding: NativeProfile, calls: seq<Entry>) {
    calls != [] && calls[0].ObserveCalled? && calls[0].unit == record.unit
    && match calls[0].seen
       case Err(_) => true
       case Ok(Missing) =>
         record.group.None?
         || (|calls| > 1 && calls[1].GroupCalled? && calls[1].group == record.group.value && calls[1].empty != Ok(true))
       case Ok(seen) =>
         !Fits(record, binding, seen) || (record.absent && seen.members != [])
         || (|calls| > 1 && calls[1].GroupCalled? && calls[1].group == seen.group && calls[1].empty.Err?)
  }

  /** The controller was asked to stop the unit, and the outcome is its own if it failed. */
  ghost predicate AskedToStop(calls: seq<Entry>, key: Generation, mode: StopMode, r: Result<Unit, Fault>) {
    exists e :: e in calls && e.StopCalled? && e.key == key && e.mode == mode && (e.stopped.Err? ==> r == e.stopped)
  }

  lemma AskedWithin(earlier: seq<Entry>, later: seq<Entry>, key: Generation, mode: StopMode, r: Result<Unit, Fault>)
    ensures AskedToStop(earlier, key, mode, r) || AskedToStop(later, key, mode, r) ==>
              AskedToStop(earlier + later, key, mode, r)
  {
  }

  /** Neither a start nor a stop was asked for. */
  ghost predicate Quiet(calls: seq<Entry>) {
    forall e :: e in calls ==> !e.StartCalled? && !e.StopCalled?
  }

  /** The unit was asked for at most once, first. */
  ghost predicate AskedOnce(calls: seq<Entry>) {
    forall n :: 0 < n < |calls| ==> !calls[n].ObserveCalled?
  }

  /** Only control groups were asked for and records saved. */
  ghost predicate Bookkeeping(calls: seq<Entry>) {
    forall e :: e in calls ==> e.GroupCalled? || e.Saved?
  }

  /** Two stretches of a history, one after the other. */
  lemma InTurn(first: seq<Entry>, second: seq<Entry>, third: seq<Entry>)
    requires first <= second <= third
    ensures third[|first|..] == second[|first|..] + third[|second|..]
  {
  }

  /** How checking for vacancy and saving the record read. */
  lemma VacancyNoted(first: seq<Entry>, saved: seq<Entry>)
    requires first == [] || (|first| == 1 && first[0].GroupCalled?)
    requires saved == [] || (|saved| == 1 && saved[0].Saved?)
    ensures Bookkeeping(first + saved)
    ensures (first + saved != [] && (first + saved)[0].GroupCalled?) <==> first != []
    ensures first != [] ==> (first + saved)[0] == first[0]
  {
  }

  /** How the calls of an observation read, by the answer and what followed. */
  lemma Assembled(record: Record, binding: NativeProfile, answer: Result<Observation, Fault>, rest: seq<Entry>, calls: seq<Entry>)
    requires calls == [ObserveCalled(record.unit, answer)] + rest && Bookkeeping(rest)
    ensures Quiet(calls) && AskedOnce(calls) && calls[0].ObserveCalled? && calls[0].seen == answer
    ensures answer.Ok? ==> Answered(record, calls)
    ensures answer.Err? ==> Contradicted(record, binding, calls)
    ensures FoundEmpty(calls) <==> rest != [] && rest[0].GroupCalled? && rest[0].empty == Ok(true)
    ensures answer == Ok(Missing) ==>
              (Contradicted(record, binding, calls)
               <==> record.group.None? || (rest != [] && rest[0].GroupCalled? && rest[0].group == record.group.value
                                           && rest[0].empty != Ok(true)))
    ensures answer.Ok? && answer.value.Present? ==>
              (Contradicted(record, binding, calls)
               <==> !Fits(record, binding, answer.value) || (record.absent && answer.value.members != [])
                    || (rest != [] && rest[0].GroupCalled? && rest[0].group == answer.value.group && rest[0].empty.Err?))
  {
    hide Fits;
    assert forall n :: 0 < n < |calls| ==> calls[n] == rest[n - 1] && rest[n - 1] in rest;
    assert rest != [] ==> calls[1] == rest[0];
  }

  /** The descendants are exactly the members other than the main process, in order. */
  ghost predicate Lists(found: seq<Descendant>, members: seq<Member>, identity: ProcessIdentity, profile: Profile) {
    exists from: seq<nat> :: ListsFrom(found, members, identity, profile, from)
  }

  ghost predicate ListsFrom(found: seq<Descendant>, members: seq<Member>, identity: ProcessIdentity, profile: Profile,
                            from: seq<nat>)
  {
    && |from| == |found|
    && (forall i, j :: 0 <= i < j < |from| ==> from[i] < from[j])
    && (forall i :: 0 <= i < |from| ==>
          from[i] < |members| && members[from[i]].pid != identity.pid
          && found[i] == Descendant(identity.instance, members[from[i]].pid, members[from[i]].birth,
                                    profile.executable, profile.userData))
    && (forall n :: 0 <= n < |members| && members[n].pid != identity.pid ==> n in from)
  }

  class NativeProcessPort {
    const registry: GenerationRegistry
    const profiles: map<ProfileId, NativeProfile>
    /** Boot identity of the host, as the service controller reports it. */
    const boot: BootId

    constructor (registry: GenerationRegistry, profiles: map<ProfileId, NativeProfile>, boot: BootId)
      ensures this.registry == registry && this.profiles == profiles && this.boot == boot
    {
      this.registry, this.profiles, this.boot := registry, profiles, boot;
    }

    /** Nothing durable was lost and no save was refused by the registry's own guards. */
    twostate predicate Kept()
      reads registry
    {
      && old(registry.log) <= registry.log && registry.refusals == old(registry.refusals)
      && registry.faults >= old(registry.faults)
      && (forall k :: k in old(registry.rows) ==> k in registry.rows && SameUnit(old(registry.rows)[k], registry.rows[k]))
    }

    /** What was noted since. */
    twostate function Noted(): seq<Entry>
      reads registry
    {
      if |old(registry.log)| <= |registry.log| then registry.log[|old(registry.log)|..] else []
    }

    /** The database or the host failed. */
    twostate predicate Faulted()
      reads registry
    {
      registry.faults > old(registry.faults)
    }

    /** The record is not usable in this boot, or what the controller answered contradicts it. */
    ghost predicate Obstructed(record: Record, calls: seq<Entry>) {
      CheckedRecord(record).Err? || (record.dispatched && Contradicted(record, CheckedRecord(record).value, calls))
    }

    /** The record is the stored one. */
    ghost predicate Loaded(record: Record)
      reads registry
    {
      registry.Valid() && record.key in registry.rows && registry.rows[record.key] == record && WellFormed(record)
    }

    function ProfileOf(profile: Profile): (r: Result<NativeProfile, Fault>)
      ensures r.Ok? ==> r.value.profile == profile
    {
      if profile.id in profiles && profiles[profile.id].profile == profile then Ok(profiles[profile.id])
      else Err(ProfileNotApproved)
    }

    /** A record is acted on only in the boot and under the binding it was reserved with. */
    function CheckedRecord(record: Record): (r: Result<NativeProfile, Fault>)
      ensures r.Ok? <==> record.profile.id in profiles && profiles[record.profile.id].profile == record.profile
                         && record.boot == boot && record.digest == profiles[record.profile.id].digest
      ensures r.Ok? ==> r.value == profiles[record.profile.id]
    {
      var profile :- ProfileOf(record.profile);
      if record.boot != boot || profile.digest != record.digest then Err(FaultIdentityMismatch) else Ok(profile)
    }

    lemma StoredWellFormed(k: Generation)
      requires registry.Valid() && k in registry.rows
      ensures WellFormed(registry.rows[k]) && registry.rows[k].key == k
    {
      registry.Sound();
    }

    /** The stored record of the handle is obstructed. */
    ghost predicate Hindered(rows: Rows, handle: Handle, calls: seq<Entry>) {
      exists k :: k in rows && rows[k].handle == handle && Obstructed(rows[k], calls)
    }

    // ---- observation ----------------------------------------------------------------------------

    method ControllerObserve(record: Record) returns (r: Result<Observation, Fault>)
      requires Loaded(record) && record.dispatched
      modifies registry`log
      ensures Loaded(record) && old(registry.log) <= registry.log
      ensures registry.log == old(registry.log) + [ObserveCalled(record.unit, r)]
    {
      r := *;
      registry.Note(ObserveCalled(record.unit, r));
    }

    method ControllerEmptyGroup(ghost record: Record, group: Group) returns (r: Result<bool, Fault>)
      requires Loaded(record)
      modifies registry`log
      ensures Loaded(record) && old(registry.log) <= registry.log
      ensures registry.log == old(registry.log) + [GroupCalled(group, r)]
    {
      r := *;
      registry.Note(GroupCalled(group, r));
    }

    /** Write the next version of a loaded record. */
    method Persist(record: Record, next: Record) returns (r: Result<Unit, Fault>)
      requires Loaded(record) && Grows(record, next) && WellFormed(next)
      requires next.absent && !record.absent ==> Vacated(registry.log, next.unit)
      modifies registry`rows, registry`log, registry`refusals, registry`faults
      ensures registry.Valid() && Kept()
      ensures r.Err? <==> Faulted()
      ensures Noted() == [] || Noted() == [Saved(next)]
      ensures r.Err? ==> r.error.Unavailable? && (registry.log == old(registry.log) || registry.log == old(registry.log) + [Saved(next)])
      ensures r.Ok? ==> Loaded(next) && registry.log == old(registry.log) + [Saved(next)]
                        && registry.rows == old(registry.rows)[record.key := next]
    {
      hide Legal, Replay, Permitted, Vacated;
      var saved := registry.Save(next);
      if saved.Err? { return Err(Unavailable); }
      return Ok(Unit);
    }

    /**
     Ask the controller about the unit, bind what it reports to the record, and note absence once the
     unit has ended and its control group is empty.
     */
    method Observe(record: Record, instance: InstanceId) returns (r: Result<(Record, seq<Member>), Fault>)
      requires Loaded(record)
      modifies registry`rows, registry`log, registry`refusals, registry`faults
      ensures registry.Valid() && Kept()
      ensures r.Ok? ==> Loaded(r.value.0) && Grows(record, r.value.0)
                        && (r.value.0.identity.Some? ==> r.value.0.identity.value.instance == instance)
      ensures r.Ok? && !record.dispatched ==> r.value == (record, []) && registry.log == old(registry.log)
      ensures r.Ok? && record.dispatched ==>
                Answered(record, Noted())
                && var seen := Noted()[0].seen.value;
                   r.value.1 == MembersOf(seen)
                   && (r.value.0.absent <==> record.absent || FoundEmpty(Noted()))
                   && (record.identity.None? ==> if seen.Missing? then r.value.0.identity.None?
                                                 else Identifies(r.value.0.identity, record, instance, seen))
      ensures r.Ok? && r.value.0.absent ==> r.value.1 == []
      ensures r.Ok? ==> forall i :: 0 <= i < |r.value.1| ==> r.value.1[i].pid != 0 && r.value.1[i].birth != 0
      ensures r.Err? <==> Faulted() || (record.identity.Some? && record.identity.value.instance != instance)
                          || Obstructed(record, Noted())
      ensures Quiet(Noted()) && AskedOnce(Noted())
    {
      GrowsSelf(record);
      hide Legal, Replay, Permitted, Vacated, Grows, Fits, Identifies, WellFormed, Contradicted;
      var profile :- CheckedRecord(record);
      if record.identity.Some? && record.identity.value.instance != instance { return Err(FaultIdentityMismatch); }
      if !record.dispatched { return Ok((record, [])); }
      hide Quiet, AskedOnce, Answered, FoundEmpty;
      r := ObserveUnit(record, instance, profile);
    }

    method ObserveUnit(record: Record, instance: InstanceId, profile: NativeProfile) returns (r: Result<(Record, seq<Member>), Fault>)
      requires Loaded(record) && record.dispatched && profile.profile == record.profile
      requires record.identity.Some? ==> record.identity.value.instance == instance
      modifies registry`rows, registry`log, registry`refusals, registry`faults
      ensures registry.Valid() && Kept() && Quiet(Noted()) && AskedOnce(Noted())
      ensures r.Ok? ==> Loaded(r.value.0) && Grows(record, r.value.0) && Answered(record, Noted())
                        && (r.value.0.identity.Some? ==> r.value.0.identity.value.instance == instance)
                        && (r.value.0.absent ==> r.value.1 == [])
                        && (r.value.0.absent <==> record.absent || FoundEmpty(Noted()))
                        && forall i :: 0 <= i < |r.value.1| ==> r.value.1[i].pid != 0 && r.value.1[i].birth != 0
      ensures r.Ok? ==> var seen := Noted()[0].seen.value;
                        r.value.1 == MembersOf(seen)
                        && (record.identity.None? ==> if seen.Missing? then r.value.0.identity.None?
                                                      else Identifies(r.value.0.identity, record, instance, seen))
      ensures r.Err? <==> Faulted() || Contradicted(record, profile, Noted())
    {
      hide Legal, Replay, Permitted, Vacated, Grows, Fits, Identifies, WellFormed, Contradicted, Quiet, AskedOnce, FoundEmpty;
      hide Bookkeeping;
      ghost var start := registry.log;
      var asked := ControllerObserve(record);
      ghost var first := Noted();
      assert first == [ObserveCalled(record.unit, asked)];
      ghost var answered := registry.log;
      if asked.Err? {
        NothingIsQuiet();
        Assembled(record, profile, asked, [], Noted());
        return Err(asked.error);
      }
      var seen := asked.value;
      match seen
      case Missing =>
        r := NoteMissing(record);
        ghost var rest := registry.log[|answered|..];
        InTurn(start, answered, registry.log);
        Assembled(record, profile, asked, rest, Noted());
      case Present(_, _, _, _, _) =>
        r := ObservePresent(record, instance, profile, seen);
        ghost var rest := registry.log[|answered|..];
        InTurn(start, answered, registry.log);
        Assembled(record, profile, asked, rest, Noted());
    }

    /** Bind a present unit to its record and write the record back. */
    method ObservePresent(record: Record, instance: InstanceId, profile: NativeProfile, seen: Observation)
      returns (r: Result<(Record, seq<Member>), Fault>)
      requires Loaded(record) && record.dispatched && seen.Present? && profile.profile == record.profile
      requires record.identity.Some? ==> record.identity.value.instance == instance
      requires registry.log != [] && registry.log[|registry.log| - 1] == ObserveCalled(record.unit, Ok(seen))
      modifies registry`rows, registry`log, registry`refusals, registry`faults
      ensures registry.Valid() && Kept() && Bookkeeping(Noted())
      ensures r.Ok? ==> Loaded(r.value.0) && Grows(record, r.value.0) && r.value.1 == seen.members
                        && (r.value.0.absent ==> r.value.1 == [])
                        && (if record.identity.Some? then r.value.0.identity == record.identity
                            else Identifies(r.value.0.identity, record, instance, seen))
                        && (r.value.0.identity.Some? ==> r.value.0.identity.value.instance == instance)
                        && (r.value.0.absent <==> record.absent || (Noted() != [] && Noted()[0].GroupCalled?
                                                                    && Noted()[0].empty == Ok(true)))
                        && forall i :: 0 <= i < |seen.members| ==> seen.members[i].pid != 0 && seen.members[i].birth != 0
      ensures r.Err? <==> Faulted() || !Fits(record, profile, seen) || (record.absent && seen.members != [])
                          || (Noted() != [] && Noted()[0].GroupCalled? && Noted()[0].group == seen.group
                              && Noted()[0].empty.Err?)
    {
      hide Legal, Replay, Permitted, Vacated, WellFormed;
      var bound := BindObservation(record, instance, profile, seen);
      if bound.Err? {
        assert Noted() == [];
        return Err(bound.error);
      }
      IdentifiedFor(bound.value.identity, record, instance, seen);
      MembersFit(record, profile, seen);
      hide Fits, Identifies;
      r := NotePresent(record, bound.value, seen);
      if r.Ok? { AbsentGrows(record, bound.value, r.value.0); }
    }

    static lemma IdentifiedFor(identity: Option<ProcessIdentity>, record: Record, instance: InstanceId, seen: Observation)
      requires seen.Present?
      ensures Identifies(identity, record, instance, seen) && identity.Some? ==> identity.value.instance == instance
    {
    }

    static lemma AbsentGrows(record: Record, bound: Record, next: Record)
      requires Grows(record, bound) && next == bound.(absent := next.absent) && (record.absent ==> next.absent)
      ensures Grows(record, next)
    {
    }

    static lemma MembersFit(record: Record, binding: NativeProfile, seen: Observation)
      requires seen.Present? && Fits(record, binding, seen)
      ensures forall i :: 0 <= i < |seen.members| ==> seen.members[i].pid != 0 && seen.members[i].birth != 0
    {
    }

    /** The unit is gone: its last known control group must be empty too. */
    method NoteMissing(record: Record) returns (r: Result<(Record, seq<Member>), Fault>)
      requires Loaded(record) && record.dispatched
      requires registry.log != [] && registry.log[|registry.log| - 1] == ObserveCalled(record.unit, Ok(Missing))
      modifies registry`rows, registry`log, registry`refusals, registry`faults
      ensures registry.Valid() && Kept()
      ensures r.Ok? ==> r.value.1 == [] && r.value.0 == record.(absent := true) && Loaded(r.value.0)
                        && Grows(record, r.value.0)
                        && Noted() == [GroupCalled(record.group.value, Ok(true)), Saved(r.value.0)]
      ensures r.Err? <==> Faulted() || record.group.None?
                          || (Noted() != [] && Noted()[0].GroupCalled? && Noted()[0].group == record.group.value
                              && Noted()[0].empty != Ok(true))
      ensures Bookkeeping(Noted())
    {
      hide Legal, Replay, Permitted;
      if record.group.None? { return Err(InspectionFailed); }
      ghost var before := registry.log;
      var empty :- ControllerEmptyGroup(record, record.group.value);
      if !empty { return Err(InspectionFailed); }
      NowVacated(before, registry.log, record.unit, record.group.value);
      var next := record.(absent := true);
      var _ :- Persist(record, next);
      return Ok((next, []));
    }

    method NotePresent(record: Record, bound: Record, seen: Observation) returns (r: Result<(Record, seq<Member>), Fault>)
      requires Loaded(record) && record.dispatched && Grows(record, bound) && WellFormed(bound) && bound.absent == record.absent
      requires seen.Present? && bound.group == Some(seen.group) && seen.group.unit == record.unit && bound.dispatched
      requires registry.log != [] && registry.log[|registry.log| - 1] == ObserveCalled(record.unit, Ok(seen))
      modifies registry`rows, registry`log, registry`refusals, registry`faults
      ensures registry.Valid() && Kept()
      ensures r.Ok? ==> Loaded(r.value.0) && r.value.1 == seen.members && (r.value.0.absent ==> r.value.1 == [])
                        && r.value.0 == bound.(absent := r.value.0.absent)
                        && (r.value.0.absent <==> record.absent || (Noted() != [] && Noted()[0].GroupCalled?
                                                                    && Noted()[0].empty == Ok(true)))
      ensures r.Err? <==> Faulted() || (record.absent && seen.members != [])
                          || (Noted() != [] && Noted()[0].GroupCalled? && Noted()[0].group == seen.group
                              && Noted()[0].empty.Err?)
      ensures Bookkeeping(Noted())
    {
      hide Legal, Replay, Permitted, WellFormed, Bookkeeping, Vacated, Invariant;
      VacancyNoted([], []);
      if record.absent && seen.members != [] { return Err(FaultIdentityMismatch); }
      ghost var start := registry.log;
      var asked := CheckVacancy(record, bound, seen);
      ghost var first, checked := Noted(), registry.log;
      VacancyNoted(first, []);
      assert first + [] == first;
      if asked.Err? { return Err(asked.error); }
      var saved := Persist(record, asked.value);
      InTurn(start, checked, registry.log);
      VacancyNoted(first, registry.log[|checked|..]);
      return if saved.Err? then Err(saved.error) else Ok((asked.value, seen.members));
    }

    /** A unit that stopped without members is absent once its control group is empty. */
    method CheckVacancy(record: Record, bound: Record, seen: Observation) returns (r: Result<Record, Fault>)
      requires Loaded(record) && Grows(record, bound) && WellFormed(bound) && bound.absent == record.absent
      requires seen.Present? && bound.group == Some(seen.group) && seen.group.unit == record.unit && bound.dispatched
      requires registry.log != [] && registry.log[|registry.log| - 1] == ObserveCalled(record.unit, Ok(seen))
      modifies registry`log
      ensures Loaded(record) && old(registry.log) <= registry.log
      ensures r.Ok? ==> Grows(record, r.value) && WellFormed(r.value) && r.value == bound.(absent := r.value.absent)
                        && (r.value.absent && !record.absent ==> Vacated(registry.log, r.value.unit))
      ensures if seen.members == [] && seen.terminal
              then |Noted()| == 1 && Noted()[0].GroupCalled? && Noted()[0].group == seen.group
                   && match Noted()[0].empty
                      case Err(f) => r == Err(f)
                      case Ok(empty) => r.Ok? && r.value.absent == (record.absent || empty)
              else Noted() == [] && r == Ok(bound)
    {
      hide Legal, Replay, Permitted, WellFormed;
      if seen.members != [] || !seen.terminal { return Ok(bound); }
      ghost var before := registry.log;
      var empty :- ControllerEmptyGroup(record, seen.group);
      if !empty { return Ok(bound); }
      NowVacated(before, registry.log, record.unit, seen.group);
      AbsentFits(record, bound);
      return Ok(bound.(absent := true));
    }

    static lemma AbsentFits(record: Record, bound: Record)
      requires Grows(record, bound) && WellFormed(bound) && bound.group.Some? && bound.dispatched
      ensures Grows(record, bound.(absent := true)) && WellFormed(bound.(absent := true))
    {
    }

    /** What the controller reports must fit what is already known; the rest is filled in. */
    method BindObservation(record: Record, instance: InstanceId, profile: NativeProfile, seen: Observation)
      returns (r: Result<Record, Fault>)
      requires WellFormed(record) && record.dispatched && seen.Present? && profile.profile == record.profile
      requires record.identity.Some? ==> record.identity.value.instance == instance
      ensures r.Ok? <==> Fits(record, profile, seen)
      ensures r.Ok? ==> Grows(record, r.value) && WellFormed(r.value)
                        && r.value == record.(invocation := Some(seen.invocation), group := Some(seen.group),
                                              identity := r.value.identity)
                        && (if record.identity.Some? then r.value.identity == record.identity
                            else Identifies(r.value.identity, record, instance, seen))
    {
      if seen.invocation == 0 || seen.group.unit != record.unit
         || (record.invocation.Some? && record.invocation.value != seen.invocation)
         || (record.group.Some? && record.group.value != seen.group)
         || |seen.members| > profile.profile.maxDescendants + 1 {
        return Err(FaultIdentityMismatch);
      }
      if exists i :: 0 <= i < |seen.members|
                     && var m := seen.members[i];
                        m.pid == 0 || m.birth == 0 || m.group != seen.group || m.image != profile.image
                        || m.executable != profile.executable {
        return Err(FaultIdentityMismatch);
      }
      var next := record.(invocation := Some(seen.invocation), group := Some(seen.group));
      if record.identity.Some? {
        var known := record.identity.value;
        if seen.mainPid != 0 && seen.mainPid != known.pid { return Err(FaultIdentityMismatch); }
        if exists i :: 0 <= i < |seen.members| && seen.members[i].pid == known.pid && seen.members[i].birth != known.birth {
          return Err(FaultIdentityMismatch);
        }
      } else {
        var at := FindMember(seen.members, seen.mainPid);
        if at < |seen.members| {
          var main := seen.members[at];
          next := next.(identity := Some(ProcessIdentity(instance, record.handle, main.pid, main.birth,
                                                         Some(profile.profile.executable), Some(profile.profile.userData))));
        }
      }
      return Ok(next);
    }

    /** Position of the first member with this pid, or the number of members. */
    method FindMember(members: seq<Member>, pid: nat) returns (at: nat)
      ensures at <= |members| && forall i :: 0 <= i < at ==> members[i].pid != pid
      ensures at < |members| ==> members[at].pid == pid
    {
      at := 0;
      while at < |members| && members[at].pid != pid
        invariant at <= |members| && forall i :: 0 <= i < at ==> members[i].pid != pid
      {
        at := at + 1;
      }
    }

    // ---- port calls -------------------------------------------------------------------------------

    /** The request is for this generation and an approved profile. */
    predicate Requested(g: Generation, specProfile: Option<ProfileId>, specInstance: InstanceId, profile: Profile) {
      specProfile == Some(profile.id) && specInstance == g.instance && g.profile == profile.id
      && profile.id in profiles && profiles[profile.id].profile == profile
    }

    /** The registry holds the generation already, or can take it. */
    ghost predicate Admissible(g: Generation, profile: Profile)
      reads registry
    {
      g in registry.rows
      || (|registry.rows| < registry.capacity
          && forall k :: k in registry.rows && registry.rows[k].profile.userData == profile.userData ==> registry.rows[k].absent)
    }

    /**
     Start a generation. Only the call that reserved it starts it, after its dispatch is durable; every
     later call looks the started unit up.
     */
    method StartGeneration(g: Generation, specProfile: Option<ProfileId>, specInstance: InstanceId, profile: Profile)
      returns (r: Result<ProcessIdentity, StartError>)
      requires registry.Valid()
      modifies registry
      ensures registry.Valid() && Kept()
      ensures r.Ok? ==> g in registry.rows && registry.rows[g].identity == Some(r.value) && registry.rows[g].dispatched
                        && r.value.instance == g.instance && r.value.Matches(g.instance, registry.rows[g].profile)
      ensures g in old(registry.rows) ==> Quiet(Noted())
      ensures r.Ok? && g !in old(registry.rows) ==> StartCalled(g, registry.rows[g].unit, Ok(Unit)) in Noted()
      ensures r.Err? && g !in old(registry.rows) ==>
                Faulted() || !Requested(g, specProfile, specInstance, profile) || !old(Admissible(g, profile))
                || exists e :: e in Noted() && e.StartCalled? && e.key == g && (e.started.Err? ==> r.error == StartFault(e.started.error))
      ensures r.Err? && g in old(registry.rows) ==>
                Faulted() || !Requested(g, specProfile, specInstance, profile) || Obstructed(old(registry.rows)[g], Noted())
                || (old(registry.rows)[g].identity.Some? && old(registry.rows)[g].identity.value.instance != g.instance)
                || (g in registry.rows && registry.rows[g].identity.None?)
      ensures !Requested(g, specProfile, specInstance, profile) ==> r.Err? && registry.log == old(registry.log)
    {
      hide Legal, Replay, Permitted, Vacated, Obstructed, Quiet, WellFormed;
      NothingIsQuiet();
      var checked := CheckRequest(g, specProfile, specInstance, profile);
      if checked.Err? {
        assert Noted() == [];
        return Err(checked.error);
      }
      var binding := checked.value;
      var reserved := registry.Reserve(g, profile, binding.digest, boot);
      assert Kept();
      if reserved.Err? {
        assert g in old(registry.rows) ==> Noted() == [];
        return Err(StartFault(Unavailable));
      }
      var record, isNew := reserved.value.0, reserved.value.1;
      StoredWellFormed(g);
      ghost var kept := registry.log;
      if isNew {
        r := StartNew(record, old(registry.log));
        InTurn(old(registry.log), kept, registry.log);
      } else {
        r := LookUp(record);
      }
    }

    static lemma NothingIsQuiet()
      ensures Quiet([]) && Bookkeeping([])
    {
    }

    method CheckRequest(g: Generation, specProfile: Option<ProfileId>, specInstance: InstanceId, profile: Profile)
      returns (r: Result<NativeProfile, StartError>)
      modifies registry`faults
      ensures registry.faults >= old(registry.faults)
      ensures r.Ok? <==> Requested(g, specProfile, specInstance, profile) && !Faulted()
      ensures r.Ok? ==> r.value == profiles[profile.id]
    {
      if specProfile != Some(profile.id) || specInstance != g.instance || g.profile != profile.id { return Err(Unsupported); }
      var binding := ProfileOf(profile);
      if binding.Err? { return Err(StartFault(binding.error)); }
      var imageOk := HostAccepts();
      return if imageOk then Ok(binding.value) else Err(Unsupported);
    }

    /** The host may refuse an image or a user-data directory. */
    method HostAccepts() returns (ok: bool)
      modifies registry`faults
      ensures ok <==> registry.faults == old(registry.faults)
      ensures registry.faults >= old(registry.faults)
    {
      ok := *;
      if !ok { registry.faults := registry.faults + 1; }
    }

    /** Start the generation just reserved. */
    method StartNew(record: Record, ghost before: seq<Entry>) returns (r: Result<ProcessIdentity, StartError>)
      requires Loaded(record) && !record.dispatched && CheckedRecord(record).Ok?
      requires Legal(registry.capacity, before) && record.key !in Replay(before) && registry.log == before + [Reserved(record)]
      modifies registry`rows, registry`log, registry`refusals, registry`faults
      ensures registry.Valid() && Kept()
      ensures r.Ok? ==> record.key in registry.rows && registry.rows[record.key].identity == Some(r.value)
                        && registry.rows[record.key].dispatched && registry.rows[record.key].unit == record.unit
                        && registry.rows[record.key].profile == record.profile
                        && r.value.Matches(record.key.instance, record.profile)
      ensures r.Ok? ==> StartCalled(record.key, record.unit, Ok(Unit)) in Noted()
      ensures r.Err? ==> Faulted() || exists e :: e in Noted() && e.StartCalled? && e.key == record.key
                                         && (e.started.Err? ==> r.error == StartFault(e.started.error))
    {
      hide Legal, Replay, Permitted, Vacated;
      NeverStarted(registry.capacity, before, record);
      var claimed := HostAccepts();
      if !claimed { return Err(StartFault(ProfileNotApproved)); }
      var launched := DispatchAndStart(record);
      if launched.Err? { return Err(StartFault(launched.error)); }
      ghost var noted := Noted();
      ghost var started := registry.log;
      r := LookUp(launched.value);
      InTurn(old(registry.log), started, registry.log);
    }

    /** The identity of a started generation, as far as it can be found. */
    method LookUp(record: Record) returns (r: Result<ProcessIdentity, StartError>)
      requires Loaded(record)
      modifies registry`rows, registry`log, registry`refusals, registry`faults
      ensures registry.Valid() && Kept() && Quiet(Noted())
      ensures record.key in registry.rows && registry.rows[record.key].unit == record.unit
              && registry.rows[record.key].profile == record.profile
      ensures r.Ok? ==> registry.rows[record.key].identity == Some(r.value) && registry.rows[record.key].dispatched
                        && r.value.Matches(record.key.instance, record.profile)
      ensures r.Err? ==> Faulted() || Obstructed(record, Noted())
                         || (record.identity.Some? && record.identity.value.instance != record.key.instance)
                         || registry.rows[record.key].identity.None?
    {
      hide Legal, Replay, Permitted, Vacated;
      var found := Recovered(record, record.key.instance);
      if found.Err? { return Err(StartFault(found.error)); }
      if found.value.Indeterminate? { return Err(StartFault(Unavailable)); }
      return Ok(found.value.identity);
    }

    method DispatchAndStart(record: Record) returns (r: Result<Record, Fault>)
      requires Loaded(record) && !record.dispatched && !StartedBefore(registry.log, record.key)
      modifies registry`rows, registry`log, registry`refusals, registry`faults
      ensures registry.Valid() && Kept()
      ensures r.Ok? ==> r.value == record.(dispatched := true) && Loaded(r.value)
                        && Noted() == [Saved(r.value), StartCalled(record.key, record.unit, Ok(Unit))]
      ensures r.Err? ==> Faulted()
                         || Noted() == [Saved(record.(dispatched := true)), StartCalled(record.key, record.unit, Err(r.error))]
    {
      hide Legal, Replay, Vacated;
      var next := record.(dispatched := true);
      ghost var before := registry.log;
      var saved := registry.Save(next);
      if saved.Err? { return Err(Unavailable); }
      SavingStartsNothing(before, next);
      var failed: Option<Fault> := *;
      var started: Result<Unit, Fault> := if failed.Some? then Err(failed.value) else Ok(Unit);
      registry.Note(StartCalled(next.key, next.unit, started));
      if failed.Some? { return Err(failed.value); }
      return Ok(next);
    }

    method Recovered(record: Record, instance: InstanceId) returns (r: Result<Recovery, Fault>)
      requires Loaded(record)
      modifies registry`rows, registry`log, registry`refusals, registry`faults
      ensures registry.Valid() && Kept() && Quiet(Noted())
      ensures record.key in registry.rows && registry.rows[record.key].unit == record.unit
              && registry.rows[record.key].profile == record.profile
      ensures r.Ok? ==> r.value == match registry.rows[record.key].identity
                                   case Some(identity) => Found(identity)
                                   case None => Indeterminate
      ensures r.Ok? && r.value.Found? ==>
                registry.rows[record.key].dispatched && r.value.identity.Matches(instance, record.profile)
      ensures r.Ok? && record.dispatched ==> Answered(record, Noted())
      ensures r.Err? ==> Faulted() || (record.identity.Some? && record.identity.value.instance != instance)
                         || Obstructed(record, Noted())
    {
      hide Legal, Replay, Permitted, Vacated;
      var _ :- CheckedRecord(record);
      if !record.dispatched { return Ok(Indeterminate); }
      var seen := Observe(record, instance);
      if seen.Err? { return Err(seen.error); }
      return Ok(if seen.value.0.identity.Some? then Found(seen.value.0.identity.value) else Indeterminate);
    }

    method RecoverGeneration(g: Generation, profile: Profile) returns (r: Result<Recovery, Fault>)
      requires registry.Valid()
      modifies registry`rows, registry`log, registry`refusals, registry`faults
      ensures registry.Valid() && Kept() && Quiet(Noted())
      ensures r.Ok? ==> r.value == if g in registry.rows && registry.rows[g].identity.Some?
                                   then Found(registry.rows[g].identity.value) else Indeterminate
      ensures r.Ok? && g in old(registry.rows) && old(registry.rows)[g].dispatched ==>
                Answered(old(registry.rows)[g], Noted())
      ensures r.Ok? && r.value.Found? ==> registry.rows[g].dispatched && r.value.identity.Matches(g.instance, profile)
      ensures r.Err? ==> Faulted() || !(profile.id in profiles && profiles[profile.id].profile == profile)
                         || (g in old(registry.rows)
                             && (old(registry.rows)[g].profile != profile || Obstructed(old(registry.rows)[g], Noted())
                                 || (old(registry.rows)[g].identity.Some?
                                     && old(registry.rows)[g].identity.value.instance != g.instance)))
    {
      hide Legal, Replay, Permitted, Vacated;
      var _ :- ProfileOf(profile);
      var found := registry.ByKey(g);
      if found.Err? { return Err(Unavailable); }
      if found.value.None? { return Ok(Indeterminate); }
      StoredWellFormed(g);
      if found.value.value.profile != profile { return Err(FaultIdentityMismatch); }
      r := Recovered(found.value.value, g.instance);
    }

    /** The handle names no stored record with a known identity. */
    ghost predicate Unidentified(handle: Handle)
      reads registry
    {
      forall k :: k in registry.rows && registry.rows[k].handle == handle ==> registry.rows[k].identity.None?
    }

    /** Load the record of a handle and bring it up to date. */
    method Current(handle: Handle) returns (r: Result<(Record, seq<Member>), Fault>)
      requires registry.Valid()
      modifies registry`rows, registry`log, registry`refusals, registry`faults
      ensures registry.Valid() && Kept()
      ensures (forall k :: k in old(registry.rows) ==> old(registry.rows)[k].handle != handle) ==> r == Err(FaultIdentityMismatch)
      ensures r.Ok? ==> Loaded(r.value.0) && r.value.0.handle == handle && r.value.0.identity.Some?
                        && (r.value.0.absent ==> r.value.1 == [])
                        && r.value.0.key in old(registry.rows) && Grows(old(registry.rows)[r.value.0.key], r.value.0)
                        && old(registry.rows)[r.value.0.key].identity.Some?
      ensures r.Ok? ==> Answered(r.value.0, Noted()) && r.value.1 == MembersOf(Noted()[0].seen.value)
                        && (r.value.0.absent <==> old(registry.rows)[r.value.0.key].absent || FoundEmpty(Noted()))
      ensures r.Ok? ==> forall i :: 0 <= i < |r.value.1| ==> r.value.1[i].pid != 0 && r.value.1[i].birth != 0
      ensures r.Err? <==> Faulted() || old(Unidentified(handle))
                          || Hindered(old(registry.rows), handle, Noted())
      ensures Quiet(Noted()) && AskedOnce(Noted())
    {
      hide Legal, Replay, Permitted, Vacated;
      var loaded := registry.ByHandle(handle);
      if loaded.Err? { return Err(FaultIdentityMismatch); }
      var record := loaded.value;
      StoredWellFormed(record.key);
      HandleIsUnique(handle, record);
      if record.identity.None? { return Err(InspectionFailed); }
      hide Obstructed, Answered, FoundEmpty, Quiet, AskedOnce, Grows, WellFormed;
      label Found:
      r := Observe(record, record.identity.value.instance);
      assert Noted() == registry.log[|old@Found(registry.log)|..];
      AnsweredAlike(record, r, Noted());
    }

    lemma AnsweredAlike(record: Record, r: Result<(Record, seq<Member>), Fault>, calls: seq<Entry>)
      requires r.Ok? ==> Grows(record, r.value.0) && Answered(record, calls)
      ensures r.Ok? ==> Answered(r.value.0, calls)
    {
    }

    method InspectIdentity(handle: Handle) returns (r: Result<ProcessIdentity, Fault>)
      requires registry.Valid()
      modifies registry`rows, registry`log, registry`refusals, registry`faults
      ensures registry.Valid() && Kept()
      ensures r.Ok? ==> exists k :: k in registry.rows && registry.rows[k].handle == handle
                          && registry.rows[k].identity == Some(r.value) && Answered(registry.rows[k], Noted())
      ensures r.Err? <==> Faulted() || old(Unidentified(handle))
                          || Hindered(old(registry.rows), handle, Noted())
    {
      hide Obstructed, Answered, FoundEmpty;
      var seen :- Current(handle);
      assert registry.rows[seen.0.key] == seen.0;
      return Ok(seen.0.identity.value);
    }

    /**
     Running exactly if the stored pid and birth are among the members the controller reported; exited
     exactly if they are not, and members were reported or absence is durable.
     */
    method Inspect(handle: Handle) returns (r: Result<ProcessState, Fault>)
      requires registry.Valid()
      modifies registry`rows, registry`log, registry`refusals, registry`faults
      ensures registry.Valid() && Kept()
      ensures forall k :: k in registry.rows && registry.rows[k].handle == handle && r.Ok? ==>
                Answered(registry.rows[k], Noted()) && registry.rows[k].identity.Some?
                && var members, identity := MembersOf(Noted()[0].seen.value), registry.rows[k].identity.value;
                   (r.value == Running <==> exists i :: 0 <= i < |members| && members[i].pid == identity.pid
                                                        && members[i].birth == identity.birth)
                   && (members == [] ==> registry.rows[k].absent && r.value == Exited)
      ensures r.Ok? ==> exists k :: k in registry.rows && registry.rows[k].handle == handle
      ensures r.Err? <==> Faulted() || old(Unidentified(handle)) || Hindered(old(registry.rows), handle, Noted())
                          || exists k :: k in registry.rows && registry.rows[k].handle == handle && !registry.rows[k].absent
                                         && Answered(registry.rows[k], Noted()) && MembersOf(Noted()[0].seen.value) == []
    {
      hide Obstructed, Answered, FoundEmpty;
      var seen :- Current(handle);
      var record, members := seen.0, seen.1;
      HandleIsUnique(handle, record);
      if members == [] && !record.absent { return Err(InspectionFailed); }
      var identity := record.identity.value;
      if exists i :: 0 <= i < |members| && members[i].pid == identity.pid && members[i].birth == identity.birth {
        return Ok(Running);
      }
      return Ok(Exited);
    }

    lemma HandleIsUnique(handle: Handle, record: Record)
      requires Loaded(record) && record.handle == handle
      ensures forall k :: k in registry.rows && registry.rows[k].handle == handle ==> registry.rows[k] == record
    {
      registry.Sound();
    }

    /** The members the controller reported other than the main process, in order. */
    method Descendants(handle: Handle) returns (r: Result<seq<Descendant>, Fault>)
      requires registry.Valid()
      modifies registry`rows, registry`log, registry`refusals, registry`faults
      ensures registry.Valid() && Kept()
      ensures r.Ok? ==> exists k :: k in registry.rows && registry.rows[k].handle == handle && registry.rows[k].identity.Some?
                          && Answered(registry.rows[k], Noted())
                          && Lists(r.value, MembersOf(Noted()[0].seen.value), registry.rows[k].identity.value, registry.rows[k].profile)
                          && forall i :: 0 <= i < |r.value| ==>
                               r.value[i].Matches(registry.rows[k].identity.value.instance, registry.rows[k].profile)
      ensures r.Err? <==> Faulted() || old(Unidentified(handle)) || Hindered(old(registry.rows), handle, Noted())
                          || exists k :: k in registry.rows && registry.rows[k].handle == handle && !registry.rows[k].absent
                                         && Answered(registry.rows[k], Noted()) && MembersOf(Noted()[0].seen.value) == []
    {
      hide Obstructed, Answered, FoundEmpty;
      var seen :- Current(handle);
      var record, members := seen.0, seen.1;
      HandleIsUnique(handle, record);
      if members == [] && !record.absent { return Err(InspectionFailed); }
      var identity := record.identity.value;
      var found := Others(members, identity, record.profile);
      assert registry.rows[record.key] == record;
      return Ok(found);
    }

    static method Others(members: seq<Member>, identity: ProcessIdentity, profile: Profile) returns (found: seq<Descendant>)
      ensures Lists(found, members, identity, profile)
      ensures (forall n :: 0 <= n < |members| ==> members[n].pid != 0 && members[n].birth != 0) ==>
                forall i :: 0 <= i < |found| ==> found[i].Matches(identity.instance, profile)
    {
      found := [];
      ghost var from: seq<nat> := [];
      for n := 0 to |members|
        invariant ListsFrom(found, members[..n], identity, profile, from)
      {
        assert forall m :: 0 <= m < n ==> members[..n + 1][m] == members[..n][m];
        if members[n].pid != identity.pid {
          found := found + [Descendant(identity.instance, members[n].pid, members[n].birth, profile.executable, profile.userData)];
          from := from + [n];
        }
      }
      assert members[..|members|] == members;
    }

    /** Stop a unit; success means its absence is durable. */
    method Stop(handle: Handle, mode: StopMode) returns (r: Result<Unit, Fault>)
      requires registry.Valid()
      modifies registry`rows, registry`log, registry`refusals, registry`faults
      ensures registry.Valid() && Kept()
      ensures r.Ok? ==> exists k :: k in registry.rows && registry.rows[k].handle == handle && registry.rows[k].absent
                                    && (AskedToStop(Noted(), k, mode, r) || AskedOnce(Noted()))
      ensures r.Err? ==> Faulted() || old(Unidentified(handle)) || Hindered(old(registry.rows), handle, Noted())
                         || exists k :: k in registry.rows && registry.rows[k].handle == handle
                                        && AskedToStop(Noted(), k, mode, r)
    {
      hide Legal, Replay, Permitted, Vacated, Obstructed, Answered, FoundEmpty, Quiet, AskedOnce, Grows, WellFormed, AskedToStop;
      var seen :- Current(handle);
      var record := seen.0;
      if record.absent {
        assert registry.rows[record.key].handle == handle;
        return Ok(Unit);
      }
      // The record was usable when it was loaded, so checking its boot and binding again cannot fail.
      StillUsable(old(registry.rows)[record.key], record, Noted());
      ghost var noted := Noted();
      ghost var loaded := registry.log;
      r := Halt(record, mode);
      InTurn(old(registry.log), loaded, registry.log);
      AskedWithin(noted, registry.log[|loaded|..], record.key, mode, r);
    }

    lemma StillUsable(before: Record, record: Record, calls: seq<Entry>)
      requires Grows(before, record) && !Obstructed(before, calls)
      ensures CheckedRecord(record).Ok?
    {
    }

    /** Record the stop, ask for it, and see whether the unit is gone. */
    method Halt(record: Record, mode: StopMode) returns (r: Result<Unit, Fault>)
      requires Loaded(record) && record.identity.Some? && !record.absent
      modifies registry`rows, registry`log, registry`refusals, registry`faults
      ensures registry.Valid() && Kept()
      ensures record.key in registry.rows && registry.rows[record.key].handle == record.handle
      ensures r.Ok? ==> registry.rows[record.key].absent
      ensures AskedToStop(Noted(), record.key, mode, r) || (r.Err? && Faulted())
    {
      hide Legal, Replay, Permitted, Vacated, Obstructed, Answered, FoundEmpty, Quiet, AskedOnce, WellFormed, Identifies, MembersOf;
      var next := record.(stopping := true);
      StoppingFits(record);
      var _ :- Persist(record, next);
      var asked := ControllerStop(next, mode);
      ghost var noted := Noted();
      assert noted == [Saved(next), StopCalled(record.key, record.unit, mode, asked)];
      assert noted[1] in noted;
      if asked.Err? { return Err(asked.error); }
      ghost var sent := registry.log;
      r := CheckGone(next, record.identity.value.instance);
      InTurn(old(registry.log), sent, registry.log);
      AskedWithin(noted, registry.log[|sent|..], record.key, mode, r);
    }

    method CheckGone(record: Record, instance: InstanceId) returns (r: Result<Unit, Fault>)
      requires Loaded(record)
      modifies registry`rows, registry`log, registry`refusals, registry`faults
      ensures registry.Valid() && Kept()
      ensures r.Ok? ==> record.key in registry.rows && registry.rows[record.key].absent
    {
      var after :- Observe(record, instance);
      return if after.0.absent then Ok(Unit) else Err(StopTimedOut);
    }

    lemma StoppingFits(record: Record)
      requires WellFormed(record) && record.identity.Some?
      ensures WellFormed(record.(stopping := true)) && Grows(record, record.(stopping := true))
    {
    }

    method ControllerStop(record: Record, mode: StopMode) returns (r: Result<Unit, Fault>)
      requires Loaded(record) && record.stopping && record.identity.Some?
      modifies registry`log
      ensures Loaded(record) && old(registry.log) <= registry.log && (r.Ok? ==> r == Ok(Unit))
      ensures registry.log == old(registry.log) + [StopCalled(record.key, record.unit, mode, r)]
    {
      var failed: Option<Fault> := *;
      r := if failed.Some? then Err(failed.value) else Ok(Unit);
      registry.Note(StopCalled(record.key, record.unit, mode, r));
    }
  }

  lemma NowVacated(before: seq<Entry>, after: seq<Entry>, unit: UnitName, group: Group)
    requires before != [] && before[|before| - 1].ObserveCalled? && before[|before| - 1].unit == unit
    requires before[|before| - 1].seen.Ok? && before[|before| - 1].seen.value.Ended()
    requires after == before + [GroupCalled(group, Ok(true))] && group.unit == unit
    ensures Vacated(after, unit)
  {
    var n := |before| - 1;
    assert after[n] == before[n] && after[n + 1] == GroupCalled(group, Ok(true));
  }

  /** A generation that was not stored was never started. */
  lemma NeverStarted(capacity: nat, log: seq<Entry>, record: Record)
    requires Legal(capacity, log) && record.key !in Replay(log)
    ensures !StartedBefore(log + [Reserved(record)], record.key)
  {
    var longer := log + [Reserved(record)];
    assert log[..|log|] == log;
    if StartedBefore(longer, record.key) {
      var i :| 0 <= i < |longer| && longer[i].StartCalled? && longer[i].key == record.key;
      StartsFollowDispatch(capacity, log, i, |log|);
    }
  }

  lemma SavingStartsNothing(log: seq<Entry>, record: Record)
    ensures !StartedBefore(log, record.key) ==> !StartedBefore(log + [Saved(record)], record.key)
  {
    var longer := log + [Saved(record)];
    if StartedBefore(longer, record.key) {
      var i :| 0 <= i < |longer| && longer[i].StartCalled? && longer[i].key == record.key;
      assert log[i] == longer[i];
    }
  }
}
