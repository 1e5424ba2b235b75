/**
 The history of a native generation registry and of the service controller behind it, and what
 every such history guarantees: starts at most once per generation, one live unit per namespace.
 */
module NativeLog {
  import opened Outcomes
  import opened LifecycleTypes

  type UnitName = nat
  type BootId = nat

  const MAX_I64: nat := 0x7FFF_FFFF_FFFF_FFFF

  /** A control group path; its last component is the unit it belongs to. */
  datatype Group = Group(unit: UnitName, parents: nat)

  /** Durable record of one authorised process generation, keyed by the generation itself. */
  datatype Record = Record(
    key: Generation, handle: Handle, unit: UnitName, boot: BootId, profile: Profile, digest: nat,
    dispatched: bool, stopping: bool, absent: bool,
    identity: Option<ProcessIdentity>, invocation: Option<nat>, group: Option<Group>)

  /** What every stored record satisfies. */
  predicate WellFormed(r: Record) {
    && 0 < r.handle <= MAX_I64
    && (r.invocation.Some? ==> r.invocation.value != 0)
    && (r.group.Some? ==> r.group.value.unit == r.unit)
    && (!r.dispatched ==> !r.stopping && !r.absent && r.invocation.None?)
    && (r.invocation.Some? <==> r.group.Some?)
    && (r.stopping ==> r.identity.Some?)
    && (r.absent ==> r.group.Some?)
    && (r.identity.Some? ==> r.invocation.Some?)
    && (r.identity.Some? ==> r.identity.value.handle == r.handle
                             && r.identity.value.Matches(r.identity.value.instance, r.profile))
  }

  /** Fixed fields stay, flags only rise, discovered fields are written once. */
  predicate Grows(before: Record, after: Record) {
    && before.key == after.key && before.handle == after.handle && before.unit == after.unit
    && before.profile == after.profile && before.digest == after.digest && before.boot == after.boot
    && (before.dispatched ==> after.dispatched) && (before.stopping ==> after.stopping) && (before.absent ==> after.absent)
    && (before.identity.Some? ==> after.identity == before.identity)
    && (before.invocation.Some? ==> after.invocation == before.invocation)
    && (before.group.Some? ==> after.group == before.group)
  }

  datatype Member = Member(pid: nat, birth: nat, group: Group, executable: nat, image: nat)

  datatype Observation =
    | Missing
    | Present(invocation: nat, group: Group, mainPid: nat, members: seq<Member>, terminal: bool)
  {
    /** Gone, or stopped without members. */
    predicate Ended() {
      Missing? || (members == [] && terminal)
    }
  }

  type Rows = map<Generation, Record>

  datatype Entry =
    | Reserved(record: Record)
    | Saved(record: Record)
    | StartCalled(key: Generation, unit: UnitName, started: Result<Unit, Fault>)
    | ObserveCalled(unit: UnitName, seen: Result<Observation, Fault>)
    | GroupCalled(group: Group, empty: Result<bool, Fault>)
    | StopCalled(key: Generation, unit: UnitName, mode: StopMode, stopped: Result<Unit, Fault>)

  function Commit(rows: Rows, e: Entry): Rows {
    match e
    case Reserved(r) => rows[r.key := r]
    case Saved(r) => rows[r.key := r]
    case _ => rows
  }

  function Replay(log: seq<Entry>): Rows {
    if log == [] then map[] else Commit(Replay(log[..|log| - 1]), log[|log| - 1])
  }

  /** The unit was observed to have ended, and then its control group to be empty. */
  ghost predicate Vacated(log: seq<Entry>, unit: UnitName) {
    exists i, j :: 0 <= i < j < |log|
      && log[i].ObserveCalled? && log[i].unit == unit && log[i].seen.Ok? && log[i].seen.value.Ended()
      && log[j].GroupCalled? && log[j].group.unit == unit && log[j].empty == Ok(true)
  }

  ghost predicate StartedBefore(log: seq<Entry>, key: Generation) {
    exists i :: 0 <= i < |log| && log[i].StartCalled? && log[i].key == key
  }

  ghost predicate Permitted(capacity: nat, log: seq<Entry>, e: Entry) {
    var rows := Replay(log);
    match e
    case Reserved(r) =>
      r.key !in rows && |rows| < capacity && WellFormed(r) && !r.dispatched
      && (forall k :: k in rows ==> rows[k].handle != r.handle && rows[k].unit != r.unit)
      && (forall k :: k in rows && rows[k].profile.userData == r.profile.userData ==> rows[k].absent)
    case Saved(r) =>
      r.key in rows && Grows(rows[r.key], r) && WellFormed(r)
      && (r.absent && !rows[r.key].absent ==> Vacated(log, r.unit))
    case StartCalled(key, unit, _) =>
      key in rows && rows[key].unit == unit && rows[key].dispatched && !StartedBefore(log, key)
    case ObserveCalled(unit, _) => exists k :: k in rows && rows[k].unit == unit && rows[k].dispatched
    case StopCalled(key, unit, _, _) =>
      key in rows && rows[key].unit == unit && rows[key].stopping && rows[key].identity.Some?
    case _ => true
  }

  ghost predicate Legal(capacity: nat, log: seq<Entry>) {
    log == [] || (Legal(capacity, log[..|log| - 1]) && Permitted(capacity, log[..|log| - 1], log[|log| - 1]))
  }

  // ---- invariant --------------------------------------------------------------------------------

  ghost predicate Invariant(capacity: nat, rows: Rows) {
    && |rows| <= capacity
    && (forall k :: k in rows ==> rows[k].key == k && WellFormed(rows[k]))
    && Distinct(rows) && NamespacesExclusive(rows)
  }

  /** Neither a handle nor a unit is shared by two records. */
  ghost predicate Distinct(rows: Rows) {
    forall j, k :: j in rows && k in rows && (rows[j].handle == rows[k].handle || rows[j].unit == rows[k].unit) ==> j == k
  }

  /** At most one record per user-data namespace is not known to be absent. */
  ghost predicate NamespacesExclusive(rows: Rows) {
    forall j, k :: (j in rows && k in rows && rows[j].profile.userData == rows[k].profile.userData
                    && !rows[j].absent && !rows[k].absent) ==> j == k
  }

  lemma StepKeepsInvariant(capacity: nat, log: seq<Entry>, e: Entry)
    requires Invariant(capacity, Replay(log)) && Permitted(capacity, log, e)
    ensures Invariant(capacity, Commit(Replay(log), e))
  {
    hide WellFormed, Vacated, NamespacesExclusive, Distinct, StartedBefore;
    if e.Saved? {
      assert Commit(Replay(log), e).Keys == Replay(log).Keys;
    }
    StepKeepsDistinct(capacity, log, e);
    StepKeepsNamespaces(capacity, log, e);
  }

  lemma StepKeepsDistinct(capacity: nat, log: seq<Entry>, e: Entry)
    requires Distinct(Replay(log)) && Permitted(capacity, log, e)
    ensures Distinct(Commit(Replay(log), e))
  {
    hide WellFormed, Vacated, StartedBefore;
  }

  lemma StepKeepsNamespaces(capacity: nat, log: seq<Entry>, e: Entry)
    requires NamespacesExclusive(Replay(log)) && Permitted(capacity, log, e)
    ensures NamespacesExclusive(Commit(Replay(log), e))
  {
    hide WellFormed, Vacated, StartedBefore;
  }

  lemma {:induction false} LegalKeepsInvariant(capacity: nat, log: seq<Entry>)
    requires Legal(capacity, log)
    ensures Invariant(capacity, Replay(log))
  {
    if log != [] {
      var n := |log| - 1;
      LegalKeepsInvariant(capacity, log[..n]);
      StepKeepsInvariant(capacity, log[..n], log[n]);
    }
  }

  lemma {:induction false} PrefixLegal(capacity: nat, log: seq<Entry>, n: nat)
    requires n <= |log| && Legal(capacity, log)
    ensures Legal(capacity, log[..n])
  {
    if n == |log| {
      assert log[..n] == log;
    } else {
      PrefixLegal(capacity, log[..|log| - 1], n);
      assert log[..|log| - 1][..n] == log[..n];
    }
  }

  lemma LegalAppend(capacity: nat, log: seq<Entry>, e: Entry)
    requires Legal(capacity, log) && Permitted(capacity, log, e)
    ensures Legal(capacity, log + [e]) && Replay(log + [e]) == Commit(Replay(log), e)
    ensures Invariant(capacity, Replay(log + [e]))
  {
    hide Permitted, Commit, Invariant;
    assert (log + [e])[..|log|] == log;
    LegalKeepsInvariant(capacity, log + [e]);
  }

  lemma StepAt(capacity: nat, log: seq<Entry>, n: nat)
    requires Legal(capacity, log) && n < |log|
    ensures Permitted(capacity, log[..n], log[n]) && Replay(log[..n + 1]) == Commit(Replay(log[..n]), log[n])
    ensures Invariant(capacity, Replay(log[..n]))
  {
    hide Permitted, Commit, Invariant;
    PrefixLegal(capacity, log, n + 1);
    assert log[..n + 1][..n] == log[..n];
    LegalKeepsInvariant(capacity, log[..n]);
  }

  // ---- theorems ---------------------------------------------------------------------------------

  lemma GrowsOn(a: Record, b: Record, c: Record)
    requires Grows(a, b) && Grows(b, c)
    ensures Grows(a, c)
  {
  }

  lemma StepGrows(capacity: nat, log: seq<Entry>, e: Entry, k: Generation)
    requires Permitted(capacity, log, e) && k in Replay(log)
    ensures k in Commit(Replay(log), e) && Grows(Replay(log)[k], Commit(Replay(log), e)[k])
  {
  }

  lemma GrowsSelf(r: Record)
    ensures Grows(r, r)
  {
  }

  lemma {:induction false} RecordsGrowOn(capacity: nat, log: seq<Entry>, a: nat, b: nat, k: Generation)
    requires Legal(capacity, log) && a <= b <= |log| && k in Replay(log[..a])
    ensures k in Replay(log[..b]) && Grows(Replay(log[..a])[k], Replay(log[..b])[k])
    ensures WellFormed(Replay(log[..b])[k])
    decreases b
  {
    hide Permitted, Legal, Replay, Grows, Distinct, NamespacesExclusive, WellFormed;
    if a < b {
      RecordsGrowOn(capacity, log, a, b - 1, k);
      StepAt(capacity, log, b - 1);
      StepKeepsInvariant(capacity, log[..b - 1], log[b - 1]);
      StepGrows(capacity, log[..b - 1], log[b - 1], k);
      GrowsOn(Replay(log[..a])[k], Replay(log[..b - 1])[k], Replay(log[..b])[k]);
    } else {
      PrefixLegal(capacity, log, a);
      LegalKeepsInvariant(capacity, log[..a]);
      GrowsSelf(Replay(log[..a])[k]);
    }
  }

  /**
   Records are never deleted; the generation, its handle, unit, boot, profile and digest are fixed;
   identity, invocation and control group are write-once; flags only rise; and whatever is stored names
   its own unit and handle, has an identity only with a known invocation, and is absent or stopping only
   after it was dispatched.
   */
  lemma RecordsGrow(capacity: nat, log: seq<Entry>, a: nat, b: nat, k: Generation)
    requires Legal(capacity, log) && a <= b <= |log| && k in Replay(log[..a])
    ensures k in Replay(log[..b])
    ensures var before, after := Replay(log[..a])[k], Replay(log[..b])[k];
            && after.key == before.key && after.handle == before.handle && after.unit == before.unit
            && after.boot == before.boot && after.profile == before.profile && after.digest == before.digest
            && (before.dispatched ==> after.dispatched) && (before.stopping ==> after.stopping)
            && (before.absent ==> after.absent)
            && (before.identity.Some? ==> after.identity == before.identity)
            && (before.invocation.Some? ==> after.invocation == before.invocation)
            && (before.group.Some? ==> after.group == before.group)
    ensures var after := Replay(log[..b])[k];
            && after.key == k && after.handle > 0
            && (!after.dispatched ==> !after.stopping && !after.absent && after.invocation.None? && after.identity.None?)
            && (after.group.Some? ==> after.group.value.unit == after.unit && after.invocation.Some?)
            && (after.identity.Some? ==> after.identity.value.handle == after.handle && after.invocation.Some?
                                         && after.identity.value.executable == Some(after.profile.executable)
                                         && after.identity.value.userData == Some(after.profile.userData))
  {
    hide Permitted, Legal, Replay, Distinct, NamespacesExclusive;
    RecordsGrowOn(capacity, log, a, b, k);
    PrefixLegal(capacity, log, b);
    LegalKeepsInvariant(capacity, log[..b]);
  }

  /** Over duplicate calls, lost acknowledgments, failed commits and reopens, a generation is started at most once. */
  lemma StartedAtMostOnce(capacity: nat, log: seq<Entry>, a: nat, b: nat)
    requires Legal(capacity, log) && a < b < |log| && log[a].StartCalled? && log[b].StartCalled?
    ensures log[a].key != log[b].key && log[a].unit != log[b].unit
  {
    StepAt(capacity, log, b);
    StepAt(capacity, log, a);
    assert log[..b][a] == log[a];
    RecordsGrow(capacity, log, a, b, log[a].key);
  }

  /** A start is issued only once the generation's dispatch is durable. */
  lemma StartsFollowDispatch(capacity: nat, log: seq<Entry>, n: nat, m: nat)
    requires Legal(capacity, log) && n <= m <= |log| && n < |log| && log[n].StartCalled?
    ensures log[n].key in Replay(log[..m]) && Replay(log[..m])[log[n].key].dispatched
            && Replay(log[..m])[log[n].key].unit == log[n].unit
  {
    StepAt(capacity, log, n);
    RecordsGrow(capacity, log, n, m, log[n].key);
  }

  lemma OneOpenRecordPerNamespace(capacity: nat, log: seq<Entry>, n: nat)
    requires Legal(capacity, log) && n <= |log|
    ensures NamespacesExclusive(Replay(log[..n]))
  {
    PrefixLegal(capacity, log, n);
    LegalKeepsInvariant(capacity, log[..n]);
  }

  lemma VacatedLater(log: seq<Entry>, n: nat, m: nat, unit: UnitName)
    requires n <= m <= |log| && Vacated(log[..n], unit)
    ensures Vacated(log[..m], unit)
  {
    var i, j :| 0 <= i < j < n
      && log[..n][i].ObserveCalled? && log[..n][i].unit == unit && log[..n][i].seen.Ok? && log[..n][i].seen.value.Ended()
      && log[..n][j].GroupCalled? && log[..n][j].group.unit == unit && log[..n][j].empty == Ok(true);
    assert log[..m][i] == log[..n][i] && log[..m][j] == log[..n][j];
  }

  lemma AbsentStep(capacity: nat, log: seq<Entry>, e: Entry, k: Generation)
    requires Permitted(capacity, log, e) && k in Commit(Replay(log), e) && Commit(Replay(log), e)[k].absent
    ensures (k in Replay(log) && Replay(log)[k].absent && Replay(log)[k].unit == Commit(Replay(log), e)[k].unit)
            || Vacated(log, Commit(Replay(log), e)[k].unit)
  {
    hide Vacated, StartedBefore;
  }

  /** A record marked absent belongs to a unit that was observed ended and empty. */
  lemma {:induction false} AbsentMeansVacated(capacity: nat, log: seq<Entry>, n: nat, k: Generation)
    requires Legal(capacity, log) && n <= |log| && k in Replay(log[..n]) && Replay(log[..n])[k].absent
    ensures Vacated(log[..n], Replay(log[..n])[k].unit)
    decreases n
  {
    hide Permitted, Legal, Invariant, Vacated, Commit;
    if n > 0 {
      StepAt(capacity, log, n - 1);
      AbsentStep(capacity, log[..n - 1], log[n - 1], k);
      if !Vacated(log[..n - 1], Replay(log[..n])[k].unit) {
        AbsentMeansVacated(capacity, log, n - 1, k);
      }
      VacatedLater(log, n - 1, n, Replay(log[..n])[k].unit);
    }
  }

  // ---- live units -------------------------------------------------------------------------------

  /**
   `live[n]` are the units with members at point `n` of the log. The host is free, except that a unit
   has members only after it was started, and a unit once seen ended and empty stays empty.
   */
  ghost predicate Physical(log: seq<Entry>, live: seq<set<UnitName>>) {
    && |live| == |log| + 1
    && (forall n, u :: 0 <= n < |live| && u in live[n] ==>
          (exists m :: 0 <= m < n && log[m].StartCalled? && log[m].unit == u) && !Vacated(log[..n], u))
  }

  /** The namespace a live unit runs in. */
  ghost predicate RunsIn(rows: Rows, unit: UnitName, userData: nat) {
    exists k :: k in rows && rows[k].unit == unit && rows[k].profile.userData == userData
  }

  lemma LiveUnitIsOpen(capacity: nat, log: seq<Entry>, live: seq<set<UnitName>>, n: nat, u: UnitName) returns (k: Generation)
    requires Legal(capacity, log) && Physical(log, live) && n < |live| && u in live[n]
    ensures k in Replay(log[..n]) && Replay(log[..n])[k].unit == u && !Replay(log[..n])[k].absent
  {
    var m :| 0 <= m < n && log[m].StartCalled? && log[m].unit == u;
    k := log[m].key;
    StartsFollowDispatch(capacity, log, m, n);
    if Replay(log[..n])[k].absent {
      AbsentMeansVacated(capacity, log, n, k);
    }
  }

  /** At every point of every run, at most one unit per user-data namespace has live members. */
  lemma OneLiveUnitPerNamespace(capacity: nat, log: seq<Entry>, live: seq<set<UnitName>>, n: nat,
                                u: UnitName, v: UnitName, userData: nat)
    requires Legal(capacity, log) && Physical(log, live) && n < |live| && u in live[n] && v in live[n]
    requires RunsIn(Replay(log[..n]), u, userData) && RunsIn(Replay(log[..n]), v, userData)
    ensures u == v
  {
    var j := LiveUnitIsOpen(capacity, log, live, n, u);
    var k := LiveUnitIsOpen(capacity, log, live, n, v);
    PrefixLegal(capacity, log, n);
    LegalKeepsInvariant(capacity, log[..n]);
  }
}
