/**
 The process-lifecycle coordinator: it launches, attaches, stops, restarts and reconciles processes
 over a journal whose writes may fail and a process port whose calls may fail ambiguously.
 */
module Lifecycle {
  import opened Outcomes
  import opened LifecycleTypes
  import opened LifecycleLog
  import opened LifecycleStore
  import opened LifecycleTheorems
  import opened LifecycleOutcomes

  /** Identities of the owner rows, by instance. */
  function Projection(ownership: map<InstanceId, Ownership>): map<InstanceId, ProcessIdentity> {
    map i | i in ownership && ownership[i].process.Some? :: ownership[i].process.value
  }

  lemma ProjectionSet(ownership: map<InstanceId, Ownership>, row: Ownership)
    ensures Projection(ownership[row.instance := row])
            == if row.process.Some? then Projection(ownership)[row.instance := row.process.value]
               else Projection(ownership) - {row.instance}
  {
  }

  lemma ProjectionClear(ownership: map<InstanceId, Ownership>, i: InstanceId)
    ensures Projection(ownership - {i}) == Projection(ownership) - {i}
  {
  }

  function EpochAt(authority: map<InstanceId, Epoch>, i: InstanceId): Epoch {
    if i in authority then authority[i] else 1
  }

  /** The in-memory epochs are the ones the records give. */
  ghost predicate AuthorityAgrees(authority: map<InstanceId, Epoch>, records: map<Key, Operation>) {
    forall i :: EpochIs(records, i, EpochAt(authority, i))
  }

  lemma SequencedOrder(a: Operation, b: Operation)
    requires a.sequence > 0 && b.sequence > 0
    ensures OperationOrder(a).AtLeast(OperationOrder(b)) ==> a.sequence >= b.sequence
    ensures a.sequence > b.sequence ==> OperationOrder(a).AtLeast(OperationOrder(b))
    ensures a.sequence == b.sequence && a.id == b.id ==> OperationOrder(a).AtLeast(OperationOrder(b))
  {
  }

  /** Replacing a record by one with the same epoch changes no instance's epoch. */
  lemma EpochsUnmoved(authority: map<InstanceId, Epoch>, before: map<Key, Operation>, k: Key, op: Operation)
    requires k in before && before[k].authorityEpoch == op.authorityEpoch && AuthorityAgrees(authority, before)
    ensures AuthorityAgrees(authority, before[k := op])
  {
    var after := before[k := op];
    forall i
      ensures EpochIs(after, i, EpochAt(authority, i))
    {
      var e := EpochAt(authority, i);
      assert EpochIs(before, i, e);
      if e != 1 {
        var j :| j in before && j.instance == i && before[j].authorityEpoch == e;
        assert after[j].authorityEpoch == e;
      }
    }
  }

  /** Spelling out the default epoch changes no instance's epoch. */
  lemma BoundAgrees(authority: map<InstanceId, Epoch>, records: map<Key, Operation>, i: InstanceId)
    requires AuthorityAgrees(authority, records) && i !in authority
    ensures AuthorityAgrees(authority[i := 1], records)
  {
    var bound := authority[i := 1];
    forall j: InstanceId
      ensures EpochIs(records, j, EpochAt(bound, j))
    {
      assert EpochIs(records, j, EpochAt(authority, j));
    }
  }

  /** A rotation moves its own instance's epoch to the rotated one, and no other. */
  lemma EpochRotated(authority: map<InstanceId, Epoch>, before: map<Key, Operation>, k: Key, op: Operation)
    requires k in before && AuthorityAgrees(authority, before)
    requires op.authorityEpoch > EpochAt(authority, k.instance)
    ensures AuthorityAgrees(authority[k.instance := op.authorityEpoch], before[k := op])
  {
    var after := before[k := op];
    var moved := authority[k.instance := op.authorityEpoch];
    forall i
      ensures EpochIs(after, i, EpochAt(moved, i))
    {
      assert EpochIs(before, i, EpochAt(authority, i));
      if i == k.instance {
        assert after[k].authorityEpoch == op.authorityEpoch;
      } else if EpochAt(authority, i) != 1 {
        var j :| j in before && j.instance == i && before[j].authorityEpoch == EpochAt(authority, i);
        assert after[j] == before[j];
      }
    }
  }

  /** A new record carrying its instance's epoch changes no instance's epoch. */
  lemma EpochsInserted(authority: map<InstanceId, Epoch>, before: map<Key, Operation>, k: Key, op: Operation)
    requires k !in before && op.authorityEpoch == EpochAt(authority, k.instance) && AuthorityAgrees(authority, before)
    ensures AuthorityAgrees(authority, before[k := op])
  {
    var after := before[k := op];
    forall i
      ensures EpochIs(after, i, EpochAt(authority, i))
    {
      assert EpochIs(before, i, EpochAt(authority, i));
      if EpochAt(authority, i) != 1 {
        var j :| j in before && j.instance == i && before[j].authorityEpoch == EpochAt(authority, i);
        assert after[j] == before[j];
      }
    }
  }

  /** The tables give an operation at most one profile. */
  lemma OneProfile(cfg: Config, t: Tables, op: Operation, p: Profile, q: Profile)
    requires Governs(cfg, t, op, p) && Governs(cfg, t, op, q)
    ensures p == q
  {
    if op.instance !in t.ownership && !NamesProfile(op.action) {
      var j :| Supplies(cfg, t.records, op.instance, j) && p == cfg.profiles[t.records[j].action.profile]
               && forall l :: Supplies(cfg, t.records, op.instance, l) ==> l.operation <= j.operation;
      var k :| Supplies(cfg, t.records, op.instance, k) && q == cfg.profiles[t.records[k].action.profile]
               && forall l :: Supplies(cfg, t.records, op.instance, l) ==> l.operation <= k.operation;
      assert j == k;
    }
  }

  lemma HeldByOnce(cfg: Config, t: Tables, op: Operation, a: Option<Profile>, b: Option<Profile>)
    requires HeldBy(cfg, t, op, a) && HeldBy(cfg, t, op, b)
    ensures a == b
  {
    hide Governs;
    if a.Some? {
      OneProfile(cfg, t, op, a.value, b.value);
    }
  }

  lemma OnlyHeldBy(cfg: Config, t: Tables, op: Operation, profile: Profile)
    requires Governs(cfg, t, op, profile)
    ensures forall q :: HeldBy(cfg, t, op, q) ==> q == Some(profile)
  {
    hide Governs;
    forall q | HeldBy(cfg, t, op, q)
      ensures q == Some(profile)
    {
      OneProfile(cfg, t, op, profile, q.value);
    }
  }

  class ProcessLifecycle {
    const journal: Journal
    const token: nat
    var leases: map<InstanceId, LeaseProof>
    var authority: map<InstanceId, Epoch>
    var records: map<Key, Operation>
    var ownership: map<InstanceId, Ownership>
    var owned: map<InstanceId, ProcessIdentity>
    var nextSequence: nat
    /** How often the lease fence or the namespace guard refused. */
    ghost var refusals: nat

    constructor Loaded(journal: Journal, token: nat, authority: map<InstanceId, Epoch>, nextSequence: nat)
      ensures this.journal == journal && this.token == token && this.authority == authority
      ensures records == journal.records && ownership == journal.ownership && owned == Projection(ownership)
      ensures this.nextSequence == nextSequence && leases == map[]
    {
      this.journal, this.token, this.authority, this.nextSequence := journal, token, authority, nextSequence;
      records, ownership, leases := journal.records, journal.ownership, map[];
      owned := Projection(journal.ownership);
      refusals := 0;
    }

    function Cache(): Tables
      reads this`records, this`ownership
    {
      Tables(records, ownership)
    }

    /** Everything but the epochs, which a rotation changes one step before the record. */
    ghost predicate Core()
      reads this`records, this`ownership, this`owned, this`nextSequence, journal
    {
      && journal.Valid()
      && token < journal.nextToken && Opened(token) in journal.log
      && Cache() == ViewOf(journal.log, token)
      && (journal.token == Some(token) ==> Cache() == journal.Stored())
      && Invariant(journal.config, Cache())
      && owned == Projection(ownership)
      && (forall k :: k in records ==> records[k].sequence <= nextSequence)
    }

    /**
     While this coordinator holds the journal its cache is the durable tables, afterwards what they were
     then; its owned identities are the projection of the owner rows; its epochs are those of its records.
     */
    ghost predicate Valid()
      reads this, journal
    {
      Core() && AuthorityAgrees(authority, records)
    }

    function CurrentEpoch(i: InstanceId): Epoch
      reads this`authority
    {
      EpochAt(authority, i)
    }

    /** `k` is the operation this call acts for: newest of its instance and active. */
    ghost predicate Holds(c: nat, k: Key)
      reads this, journal
    {
      && Valid()
      && Begun(token, c) in journal.log
      && k in records && Newest(records, k) && records[k].state.Active()
    }

    /** `op` is a next version of the operation this call acts for. */
    ghost predicate Writing(c: nat, op: Operation)
      reads this, journal
    {
      && Holds(c, KeyOf(op))
      && records[KeyOf(op)].SameRequest(op)
      && records[KeyOf(op)].authorityEpoch == op.authorityEpoch
    }

    /** `op` is the operation this call acts for, possibly not yet written, with no process forgotten. */
    ghost predicate Acting(c: nat, op: Operation)
      reads this, journal
    {
      Writing(c, op) && (op.process.None? ==> records[KeyOf(op)].process.None?)
    }

    /** A restart may have effects: its rotated epoch is durable and current. */
    ghost predicate RestartReady(op: Operation)
      reads this
    {
      op.action.Restart? ==>
        op.authorityEpoch == op.requestEpoch + 1 && CurrentEpoch(op.instance) == op.authorityEpoch
    }

    /** The port calls made since, with their answers. */
    twostate function Asked(): seq<PortCall>
      reads journal
    {
      if |old(journal.log)| < |journal.log| then Ports(journal.log[|old(journal.log)|..]) else []
    }

    /** No port call was made. */
    twostate predicate Silent()
      reads journal
    {
      Asked() == []
    }

    /** A write failed or was refused. */
    twostate predicate Faulted()
      reads journal
    {
      journal.faults > old(journal.faults)
    }

    /**
     The history only grew, by at most one start, and a coordinator that lost the journal changed
     nothing durable.
     */
    twostate predicate Grown(c: nat)
      reads this, journal
    {
      && old(journal.log) <= journal.log && Starts(journal.log) <= old(Starts(journal.log)) + 1
      && journal.faults >= old(journal.faults)
      && (Begun(token, c) in old(journal.log) ==> Begun(token, c) in journal.log)
      && (journal.token != Some(token) ==> journal.Stored() == old(journal.Stored()) && Cache() == old(Cache()))
      && leases == old(leases) && journal.token == old(journal.token)
      && journal.nextToken == old(journal.nextToken) && journal.nextCall == old(journal.nextCall)
    }

    /** As before, without any start. */
    twostate predicate Extends(c: nat)
      reads this, journal
    {
      Grown(c) && Starts(journal.log) == old(Starts(journal.log))
    }

    /** The call had no durable or cached effect. */
    twostate predicate Untouched()
      reads this, journal
    {
      && Cache() == old(Cache()) && authority == old(authority)
      && journal.Stored() == old(journal.Stored()) && journal.log == old(journal.log)
    }

    /** This call holds the operation to this profile. */
    ghost predicate HeldTo(c: nat, op: Operation, profile: Profile)
      reads journal
    {
      Pinned(journal.config, journal.log, token, c, op.instance, op.action, profile)
    }

    /** The record the operation is left with. */
    function Now(op: Operation): Operation
      requires KeyOf(op) in records
      reads this`records
    {
      records[KeyOf(op)]
    }

    static predicate StoreBroke(r: Result<Response, LifecycleError>) {
      r.Err? && r.error.StoreFailed?
    }

    /** The response reports the record as it is kept. */
    ghost predicate Reflects(k: Key, response: Response)
      reads this
    {
      k == Key(response.instance, response.id) && k in records && records[k].state == response.state && records[k].process == response.process
      && records[k].authorityEpoch == response.epoch && records[k].failure == response.failure
      && (Shows(response.lifecycle, response.state) || (response.state.Blocked? && response.lifecycle.StateUnknown?))
    }

    /** It reports the record of `op`, whose epoch did not move. */
    ghost predicate Answers(op: Operation, response: Response)
      reads this
    {
      Reflects(KeyOf(op), response) && response.epoch == op.authorityEpoch
    }

    /** How a launch or restart may be answered: its process runs, is unknown, or was cleaned up. */
    static predicate Replaced(response: Response) {
      response.state == Started || response.state == Unknown || response.state == Failed
    }

    predicate Bears(i: InstanceId, k: Key)
      reads this`records, this`ownership, this`leases
    {
      BearsIn(Cache(), leases, i, k)
    }

    ghost predicate Authorizes(i: InstanceId, excluded: Option<OperationId>, k: Key)
      reads this`records, this`ownership, this`leases
    {
      AuthorizesIn(Cache(), leases, i, excluded, k)
    }

    // ---- queries ------------------------------------------------------------------------------

    /** The candidate with the greatest operation order. */
    method Greatest(candidates: set<Key>) returns (best: Key)
      requires Core() && candidates != {} && candidates <= records.Keys
      ensures best in candidates
      ensures forall k :: k in candidates ==> records[k].sequence <= records[best].sequence
    {
      CandidatesSequenced(candidates);
      hide Core, OrderOf;
      best :| best in candidates;
      var rest := candidates - {best};
      while rest != {}
        invariant best in candidates && rest <= candidates
        invariant forall k :: k in candidates - rest ==> records[k].sequence <= records[best].sequence
        decreases rest
      {
        var k :| k in rest;
        SequencedOrder(records[k], records[best]);
        if OperationOrder(records[k]).AtLeast(OperationOrder(records[best])) {
          best := k;
        }
        rest := rest - {k};
      }
    }

    lemma CandidatesSequenced(candidates: set<Key>)
      requires Core() && candidates <= records.Keys
      ensures forall k :: k in candidates ==> records[k].sequence > 0
    {
    }

    method LatestAuthoritative(i: InstanceId) returns (r: Option<Operation>)
      requires Core()
      ensures r.None? <==> !exists k :: k in records && k.instance == i && !records[k].state.Rejected?
      ensures r.Some? ==> r.value.instance == i && Newest(records, KeyOf(r.value)) && records[KeyOf(r.value)] == r.value
    {
      var candidates := set k | k in records && k.instance == i && !records[k].state.Rejected?;
      if candidates == {} {
        assert forall k :: k in records && k.instance == i && !records[k].state.Rejected? ==> k in candidates;
        return None;
      }
      var best := Greatest(candidates);
      return Some(records[best]);
    }

    method LatestRecord(i: InstanceId) returns (r: Option<Operation>)
      requires Core()
      ensures r.None? <==> !exists k :: k in records && k.instance == i
      ensures r.Some? ==> KeyOf(r.value) in records && records[KeyOf(r.value)] == r.value && r.value.instance == i
      ensures r.Some? ==> forall k :: k in records && k.instance == i ==> records[k].sequence <= r.value.sequence
    {
      var candidates := set k | k in records && k.instance == i;
      if candidates == {} {
        assert forall k :: k in records && k.instance == i ==> k in candidates;
        return None;
      }
      var best := Greatest(candidates);
      return Some(records[best]);
    }

    /** Whether a retained active operation is still the newest of its instance that was not rejected. */
    method IsCurrent(op: Operation) returns (current: bool)
      requires Core() && KeyOf(op) in records && records[KeyOf(op)] == op && op.state.Active()
      ensures current <==> Newest(records, KeyOf(op))
    {
      var latest := LatestAuthoritative(op.instance);
      SequencedOrder(op, latest.value);
      current := op.id == latest.value.id && OperationOrder(op).AtLeast(OperationOrder(latest.value));
    }

    predicate LeaseMatches(op: Operation)
      reads this`leases
    {
      op.instance in leases && leases[op.instance] == op.lease
    }

    predicate CanUpdateOwner(op: Operation)
      reads this`ownership
    {
      op.instance in ownership ==> OperationOrder(op).AtLeast(OwnerOrder(ownership[op.instance]))
    }

    /** The operation an instance's process is authorised by, leaving out one operation. */
    method LatestAuthorized(i: InstanceId, excluded: Option<OperationId>) returns (r: Option<Operation>)
      requires Core()
      ensures r.Some? <==> exists k :: Authorizes(i, excluded, k)
      ensures r.Some? ==> KeyOf(r.value) in records && records[KeyOf(r.value)] == r.value
                          && Authorizes(i, excluded, KeyOf(r.value)) && r.value.instance == i && r.value.process.Some?
      ensures r.Some? && excluded.None? ==> i in Occupied(Cache())
      ensures forall k :: Authorizes(i, None, k) && excluded.None? ==> r.Some? && k == KeyOf(r.value)
    {
      if i in ownership {
        OwnerRow(i);
        var k := Key(i, ownership[i].operation);
        StoredFits(k);
        hide Core;
        if Some(k.operation) != excluded && records[k].process.Some? && records[k].state.Active() && LeaseMatches(records[k]) {
          assert Authorizes(i, excluded, k);
          return Some(records[k]);
        }
        return None;
      }
      r := LatestUnowned(i, excluded);
    }

    method LatestUnowned(i: InstanceId, excluded: Option<OperationId>) returns (r: Option<Operation>)
      requires Core() && i !in ownership
      ensures r.Some? <==> exists k :: Authorizes(i, excluded, k)
      ensures r.Some? ==> KeyOf(r.value) in records && records[KeyOf(r.value)] == r.value
                          && Authorizes(i, excluded, KeyOf(r.value)) && r.value.instance == i && r.value.process.Some?
      ensures r.Some? && excluded.None? ==> i in Occupied(Cache())
      ensures forall k :: Authorizes(i, None, k) && excluded.None? ==> r.Some? && k == KeyOf(r.value)
    {
      hide Core;
      var latest := LatestAuthoritative(i);
      if latest.None? { return None; }
      var newest := KeyOf(latest.value);
      OnlyNewest(newest);
      if Some(latest.value.id) != excluded {
        if latest.value.state.Active() && latest.value.process.Some? && LeaseMatches(latest.value) {
          assert Authorizes(i, excluded, newest);
          return latest;
        }
        return None;
      }
      var candidates := set k | k in records && k.instance == i && Some(k.operation) != excluded
                                && LeaseMatches(records[k]) && records[k].process.Some? && records[k].state.Active();
      assert forall k :: k in candidates <==> Bears(i, k) && Some(k.operation) != excluded;
      if candidates == {} { return None; }
      var best := Greatest(candidates);
      StoredFits(best);
      assert Authorizes(i, excluded, best);
      return Some(records[best]);
    }

    method ActiveOperation(i: InstanceId) returns (r: Option<Operation>)
      requires Core()
      ensures r.None? && i !in ownership ==> i !in Occupied(Cache())
      ensures r.Some? ==> i in Occupied(Cache())
    {
      if i in ownership && records[Key(i, ownership[i].operation)].state.Active() {
        return Some(records[Key(i, ownership[i].operation)]);
      }
      var latest := LatestAuthoritative(i);
      if latest.Some? && latest.value.state.Active() { return latest; }
      if i !in ownership && latest.Some? {
        UniqueNewest(i, KeyOf(latest.value));
      }
      return None;
    }

    /** If the newest record of an unowned instance is inactive, the instance is not occupied. */
    lemma UniqueNewest(i: InstanceId, k: Key)
      requires Core() && i !in ownership && k.instance == i && Newest(records, k) && !records[k].state.Active()
      ensures i !in Occupied(Cache())
    {
    }

    /** Number of instances holding capacity. */
    method OccupiedCount() returns (n: nat)
      requires Core()
      ensures n == |Occupied(Cache())|
    {
      var instances := ownership.Keys;
      var pending := set k | k in records :: k.instance;
      while pending != {}
        invariant instances <= Occupied(Cache()) && ownership.Keys <= instances
        invariant forall i :: i in Occupied(Cache()) ==> i in instances || i in pending
        decreases pending
      {
        var i :| i in pending;
        var latest := LatestAuthoritative(i);
        if latest.Some? && latest.value.state.Active() {
          instances := instances + {i};
        } else if latest.Some? && i !in ownership {
          UniqueNewest(i, KeyOf(latest.value));
        }
        pending := pending - {i};
      }
      assert instances == Occupied(Cache());
      n := |instances|;
    }

    function Resolve(id: ProfileId): (r: Result<Profile, LifecycleError>)
      ensures r.Ok? <==> id in journal.config.profiles
      ensures r.Ok? ==> r.value == journal.config.profiles[id] && r.value in journal.config.profiles.Values
      ensures r.Err? ==> r.error.ProfileNotFound?
    {
      if id in journal.config.profiles then Ok(journal.config.profiles[id]) else Err(ProfileNotFound)
    }

    // ---- journal writes: store first, then cache ------------------------------------------------

    method PersistInsert(ghost c: nat, op: Operation) returns (r: Result<Unit, LifecycleError>)
      requires Valid() && Begun(token, c) in journal.log
      requires |records| < journal.config.maxRecords ==> MayInsert(journal.config, Cache(), op)
      requires KeyOf(op) !in records && op.sequence <= nextSequence && op.authorityEpoch == CurrentEpoch(op.instance)
      modifies this`records, journal`records, journal`log, journal`faults
      ensures Valid() && Extends(c) && Silent()
      ensures |old(records)| >= journal.config.maxRecords ==> r == Err(CapacityExceeded) && !Faulted()
      ensures |old(records)| < journal.config.maxRecords ==> (r.Err? <==> Faulted()) && (r.Err? ==> r.error.StoreFailed?)
      ensures r.Err? ==> records == old(records) && journal.log == old(journal.log) && journal.Stored() == old(journal.Stored())
      ensures r.Ok? ==> journal.token == Some(token) && records == old(records)[KeyOf(op) := op]
                        && journal.log == old(journal.log) + [Inserted(token, c, op)]
    {
      hide Permitted, Legal, Replay, Holder, MayInsert, Invariant, AuthorityAgrees, Numbered, Starts, Ports, ViewOf;
      StartsAppend(journal.log, Inserted(token, c, op));
      PortsOne(Inserted(token, c, op));
      ViewAfterCommit(journal.log, Inserted(token, c, op), token);
      if |records| >= journal.config.maxRecords { return Err(CapacityExceeded); }
      if journal.token == Some(token) {
        InsertPermitted(journal.config, journal.log, token, c, op);
      }
      var stored := journal.Insert(token, c, op);
      if stored.Err? { return Err(StoreFailed(stored.error)); }
      EpochsInserted(authority, records, KeyOf(op), op);
      LegalKeepsInvariant(journal.config, journal.log);
      records := records[KeyOf(op) := op];
      return Ok(Unit);
    }

    /** Replace a record by its next version; the epochs stay agreed unless this is a rotation. */
    method PersistUpdate(ghost c: nat, op: Operation) returns (r: Result<Unit, LifecycleError>)
      requires Core() && MayUpdate(Cache(), op)
      requires Grounded(journal.config, journal.log, token, c, records[KeyOf(op)], op)
      modifies this`records, journal`records, journal`log, journal`faults
      ensures Core() && Extends(c) && Silent() && (r.Err? <==> Faulted())
      ensures r.Err? ==> records == old(records) && journal.log == old(journal.log)
      ensures r.Err? ==> r.error.StoreFailed?
      ensures r.Ok? ==> journal.token == Some(token) && records == old(records)[KeyOf(op) := op]
                        && journal.log == old(journal.log) + [Updated(token, c, op)]
      ensures old(AuthorityAgrees(authority, records)) && old(records)[KeyOf(op)].authorityEpoch == op.authorityEpoch
              ==> AuthorityAgrees(authority, records)
      ensures old(Newest(records, KeyOf(op))) && !op.state.Rejected? ==> Newest(records, KeyOf(op))
    {
      hide Permitted, Legal, Replay, Holder, Invariant, AuthorityAgrees, Numbered, Grounded, Starts, Ports, ViewOf;
      StartsAppend(journal.log, Updated(token, c, op));
      PortsOne(Updated(token, c, op));
      ViewAfterCommit(journal.log, Updated(token, c, op), token);
      if journal.token == Some(token) {
        UpdatePermitted(journal.config, journal.log, token, c, op);
      }
      var stored := journal.Update(token, c, op);
      if stored.Err? { return Err(StoreFailed(stored.error)); }
      if AuthorityAgrees(authority, records) && records[KeyOf(op)].authorityEpoch == op.authorityEpoch {
        EpochsUnmoved(authority, records, KeyOf(op), op);
      }
      LegalKeepsInvariant(journal.config, journal.log);
      records := records[KeyOf(op) := op];
      return Ok(Unit);
    }

    /** The store was down, or this coordinator no longer holds it. */
    static predicate WriteRefused(error: LifecycleError) {
      error == StoreFailed(Database) || error == StoreFailed(Conflict)
    }

    method PersistOwnership(ghost c: nat, row: Ownership) returns (r: Result<Unit, LifecycleError>)
      requires Valid()
      requires Key(row.instance, row.operation) in records
      requires row.sequence == records[Key(row.instance, row.operation)].sequence
      requires row.instance in ownership ==> row.sequence >= ownership[row.instance].sequence
      requires row.instance !in ownership ==> Newest(records, Key(row.instance, row.operation))
      modifies this`ownership, this`owned, this`nextSequence, journal`ownership, journal`log, journal`faults
      ensures Valid() && Extends(c) && Silent() && (r.Err? <==> Faulted())
      ensures r.Err? ==> ownership == old(ownership) && journal.log == old(journal.log)
      ensures r.Err? ==> WriteRefused(r.error)
      ensures r.Ok? ==> journal.token == Some(token) && ownership == old(ownership)[row.instance := row]
                        && journal.log == old(journal.log) + [OwnerSet(token, row)]
      ensures nextSequence == if r.Ok? && row.sequence > old(nextSequence) then row.sequence else old(nextSequence)
    {
      hide Permitted, Legal, Replay, Holder, AuthorityAgrees, Numbered, Invariant, Newest, Projection, Starts, Ports, ViewOf;
      StartsAppend(journal.log, OwnerSet(token, row));
      PortsOne(OwnerSet(token, row));
      ViewAfterCommit(journal.log, OwnerSet(token, row), token);
      ProjectionSet(ownership, row);
      if journal.token == Some(token) && journal.AdmitsOwner(row) {
        OwnerPermitted(journal.config, journal.log, token, row);
      }
      var stored := journal.SetOwnership(token, row);
      if stored.Err? { return Err(StoreFailed(stored.error)); }
      LegalKeepsInvariant(journal.config, journal.log);
      nextSequence := Max(nextSequence, row.sequence);
      owned := if row.process.Some? then owned[row.instance := row.process.value] else owned - {row.instance};
      ownership := ownership[row.instance := row];
      return Ok(Unit);
    }

    lemma OwnerRow(i: InstanceId)
      requires Core()
      ensures i in ownership ==> ownership[i].instance == i && Key(i, ownership[i].operation) in records
                                 && ownership[i].sequence == records[Key(i, ownership[i].operation)].sequence
    {
    }

    method ClearOwned(ghost c: nat, i: InstanceId) returns (r: Result<Unit, LifecycleError>)
      requires Valid()
      modifies this`ownership, this`owned, journal`ownership, journal`log, journal`faults
      ensures Valid() && Extends(c) && Silent() && (r.Err? <==> Faulted())
      ensures r.Err? ==> ownership == old(ownership) && journal.log == old(journal.log)
      ensures r.Err? ==> WriteRefused(r.error)
      ensures r.Ok? ==> ownership == old(ownership) - {i}
      ensures journal.log == old(journal.log) || journal.log == old(journal.log) + [OwnerCleared(token, i)]
    {
      hide Starts, Ports, Core, AuthorityAgrees;
      if i !in ownership {
        ForgetIdentity(c, i);
        assert ownership - {i} == ownership;
        return Ok(Unit);
      }
      r := ClearRow(c, i);
    }

    /** Without an owner row there is no identity to forget either. */
    method ForgetIdentity(ghost c: nat, i: InstanceId)
      requires Valid() && i !in ownership
      modifies this`owned
      ensures Valid() && Extends(c) && Silent() && !Faulted()
    {
      hide Permitted, Legal, Replay, Holder, AuthorityAgrees, Numbered, Invariant, Starts, Ports, ViewOf;
      assert owned - {i} == owned;
      owned := owned - {i};
    }

    method ClearRow(ghost c: nat, i: InstanceId) returns (r: Result<Unit, LifecycleError>)
      requires Valid() && i in ownership
      modifies this`ownership, this`owned, journal`ownership, journal`log, journal`faults
      ensures Valid() && Extends(c) && Silent() && (r.Err? <==> Faulted())
      ensures r.Err? ==> ownership == old(ownership) && journal.log == old(journal.log)
      ensures r.Err? ==> WriteRefused(r.error)
      ensures r.Ok? ==> ownership == old(ownership) - {i}
      ensures journal.log == old(journal.log) || journal.log == old(journal.log) + [OwnerCleared(token, i)]
    {
      hide Permitted, Legal, Replay, Holder, AuthorityAgrees, Numbered, Invariant, Projection, Starts, Ports, ViewOf;
      StartsAppend(journal.log, OwnerCleared(token, i));
      PortsOne(OwnerCleared(token, i));
      ViewAfterCommit(journal.log, OwnerCleared(token, i), token);
      OwnerRow(i);
      ProjectionClear(ownership, i);
      var stored := journal.ClearOwnershipIf(token, ownership[i]);
      if stored.Err? { return Err(StoreFailed(stored.error)); }
      LegalKeepsInvariant(journal.config, journal.log);
      ownership, owned := ownership - {i}, owned - {i};
      return Ok(Unit);
    }

    method ClearOwnedFor(ghost c: nat, op: Operation) returns (r: Result<Unit, LifecycleError>)
      requires Valid()
      modifies this`ownership, this`owned, journal`ownership, journal`log, journal`faults
      ensures Valid() && Extends(c) && Silent() && (r.Err? <==> Faulted())
      ensures journal.log == old(journal.log) || journal.log == old(journal.log) + [OwnerCleared(token, op.instance)]
      ensures r.Ok? ==> ownership == if old(CanUpdateOwner(op)) then old(ownership) - {op.instance} else old(ownership)
      ensures r.Err? ==> ownership == old(ownership) && WriteRefused(r.error)
    {
      hide Starts, Ports, Core, AuthorityAgrees;
      if !CanUpdateOwner(op) { return Ok(Unit); }
      r := ClearOwned(c, op.instance);
    }

    /** Reserve the instance for an operation, unless a newer owner already holds it. */
    method ReserveOwnership(ghost c: nat, op: Operation, profile: ProfileId, process: Option<ProcessIdentity>)
      returns (r: Result<Unit, LifecycleError>)
      requires Acting(c, op)
      modifies this`ownership, this`owned, this`nextSequence, journal`ownership, journal`log, journal`faults
      ensures Acting(c, op) && Extends(c) && Silent() && (r.Err? <==> Faulted())
      ensures r.Ok? ==> op.instance in ownership
      ensures r.Ok? ==> ownership == if old(CanUpdateOwner(op))
                                     then old(ownership)[op.instance := Ownership(op.instance, op.id, op.sequence, profile, process)]
                                     else old(ownership)
      ensures r.Err? ==> ownership == old(ownership) && WriteRefused(r.error)
      ensures r.Ok? ==> journal.log == old(journal.log)
                        || journal.log == old(journal.log) + [OwnerSet(token, ownership[op.instance])]
    {
      hide Invariant, AuthorityAgrees, Legal, Replay, Holder, Numbered;
      if op.instance in ownership {
        OwnerRow(op.instance);
        StoredFits(KeyOf(op));
        StoredFits(Key(op.instance, ownership[op.instance].operation));
        SequencedOrder(op, records[Key(op.instance, ownership[op.instance].operation)]);
      }
      if !CanUpdateOwner(op) { return Ok(Unit); }
      r := PersistOwnership(c, Ownership(op.instance, op.id, op.sequence, profile, process));
    }

    /** Record the process known for the current owner, keeping whose row it is. */
    method SetOwnerProcessFor(ghost c: nat, op: Operation, process: Option<ProcessIdentity>)
      returns (r: Result<Unit, LifecycleError>)
      requires Valid()
      modifies this`ownership, this`owned, this`nextSequence, journal`ownership, journal`log, journal`faults
      ensures Valid() && Extends(c) && Silent() && (r.Err? <==> Faulted())
      ensures r.Ok? ==> ownership == if old(CanUpdateOwner(op)) && op.instance in old(ownership)
                                     then old(ownership)[op.instance := old(ownership)[op.instance].(process := process)]
                                     else old(ownership)
      ensures r.Err? ==> ownership == old(ownership) && WriteRefused(r.error)
    {
      hide Starts, Ports, Core, AuthorityAgrees;
      if !CanUpdateOwner(op) || op.instance !in ownership { return Ok(Unit); }
      OwnerRow(op.instance);
      var current := ownership[op.instance];
      r := PersistOwnership(c, current.(process := process));
    }

    // ---- process port -------------------------------------------------------------------------

    /** Note a port call in the shared history. */
    ghost method Note(c: nat, k: Key, port: PortCall)
      requires Holds(c, k)
      requires port.StartCall? ==> journal.token == Some(token) && WriteAhead(journal.log, c, records[k], port)
      requires port.StopCall? ==> StopFence(journal.config, journal.log, token, c, records[k], port.handle)
                                  && StopAsRequested(records[k], port.mode)
      requires port.StartCall? || port.StopCall? ==> RestartReady(records[k])
      modifies journal`log
      ensures Holds(c, k) && Grown(c) && (!port.StartCall? ==> Extends(c))
      ensures journal.log == old(journal.log) + [Called(token, c, records[k], port)]
      ensures Asked() == [port] && !Faulted()
      ensures Starts(journal.log) == old(Starts(journal.log)) + if port.StartCall? then 1 else 0
    {
      hide Invariant, AuthorityAgrees, Legal, Replay, Holder, Numbered, Newest, ViewOf, Starts, Ports;
      NotePermitted(c, k, port);
      StartsAppend(journal.log, Called(token, c, records[k], port));
      PortsOne(Called(token, c, records[k], port));
      ViewAfterCall(journal.log, Called(token, c, records[k], port), token);
      journal.Record(Called(token, c, records[k], port));
    }

    lemma NotePermitted(c: nat, k: Key, port: PortCall)
      requires Holds(c, k)
      requires port.StartCall? ==> journal.token == Some(token) && WriteAhead(journal.log, c, records[k], port)
      requires port.StopCall? ==> StopFence(journal.config, journal.log, token, c, records[k], port.handle)
                                  && StopAsRequested(records[k], port.mode)
      requires port.StartCall? || port.StopCall? ==> RestartReady(records[k])
      ensures Permitted(journal.config, journal.log, Called(token, c, records[k], port))
    {
      hide WriteAhead, StopFence, Legal, Numbered, ViewOf, Replay, Holder, Newest;
      assert KeyOf(records[k]) == k;
      assert EpochIs(records, k.instance, EpochAt(authority, k.instance));
    }

    method PortIdentity(ghost c: nat, k: Key, handle: Handle) returns (r: Result<ProcessIdentity, Fault>)
      requires Holds(c, k)
      modifies journal`log
      ensures Holds(c, k) && Extends(c)
      ensures journal.log == old(journal.log) + [Called(token, c, records[k], IdentityCall(handle, r))]
      ensures Asked() == [IdentityCall(handle, r)] && !Faulted()
    {
      r := *;
      Note(c, k, IdentityCall(handle, r));
    }

    method PortInspect(ghost c: nat, k: Key, handle: Handle) returns (r: Result<ProcessState, Fault>)
      requires Holds(c, k)
      modifies journal`log
      ensures Holds(c, k) && Extends(c)
      ensures journal.log == old(journal.log) + [Called(token, c, records[k], InspectCall(handle, r))]
      ensures Asked() == [InspectCall(handle, r)] && !Faulted()
    {
      r := *;
      Note(c, k, InspectCall(handle, r));
    }

    method PortDescendants(ghost c: nat, k: Key, handle: Handle) returns (r: Result<seq<Descendant>, Fault>)
      requires Holds(c, k)
      modifies journal`log
      ensures Holds(c, k) && Extends(c)
      ensures journal.log == old(journal.log) + [Called(token, c, records[k], DescendantsCall(handle, r))]
      ensures Asked() == [DescendantsCall(handle, r)] && !Faulted()
    {
      r := *;
      Note(c, k, DescendantsCall(handle, r));
    }

    method PortRecover(ghost c: nat, k: Key, generation: Generation) returns (r: Result<Recovery, Fault>)
      requires Holds(c, k)
      modifies journal`log
      ensures Holds(c, k) && Extends(c)
      ensures journal.log == old(journal.log) + [Called(token, c, records[k], RecoverCall(generation, r))]
      ensures Asked() == [RecoverCall(generation, r)] && !Faulted()
    {
      r := *;
      Note(c, k, RecoverCall(generation, r));
    }

    method PortStart(ghost c: nat, k: Key, generation: Generation, instance: InstanceId, profile: ProfileId)
      returns (r: Result<ProcessIdentity, StartError>)
      requires Holds(c, k) && RestartReady(records[k]) && journal.token == Some(token)
      requires WriteAhead(journal.log, c, records[k], StartCall(generation, instance, profile, Err(Unsupported)))
      modifies journal`log
      ensures Holds(c, k) && Grown(c)
      ensures journal.log == old(journal.log) + [Called(token, c, records[k], StartCall(generation, instance, profile, r))]
      ensures Asked() == [StartCall(generation, instance, profile, r)] && !Faulted()
      ensures Starts(journal.log) == old(Starts(journal.log)) + 1
    {
      r := *;
      Note(c, k, StartCall(generation, instance, profile, r));
    }

    method PortStop(ghost c: nat, k: Key, handle: Handle, mode: StopMode) returns (r: Result<Unit, Fault>)
      requires Holds(c, k) && RestartReady(records[k])
      requires StopFence(journal.config, journal.log, token, c, records[k], handle) && StopAsRequested(records[k], mode)
      modifies journal`log
      ensures Holds(c, k) && Extends(c)
      ensures journal.log == old(journal.log) + [Called(token, c, records[k], StopCall(handle, mode, r))]
      ensures Asked() == [StopCall(handle, mode, r)] && !Faulted()
    {
      r := *;
      Note(c, k, StopCall(handle, mode, r));
    }

    // ---- verification -------------------------------------------------------------------------

    /** The recorded identity is running, unchanged, and its tree is inside the profile. */
    method VerifyProcess(ghost c: nat, k: Key, expected: ProcessIdentity, profile: Profile)
      returns (r: Result<Unit, LifecycleError>)
      requires Holds(c, k) && Pinned(journal.config, journal.log, token, c, k.instance, records[k].action, profile)
      modifies journal`log
      ensures Holds(c, k) && Extends(c)
      ensures r.Ok? ==> expected.Matches(expected.instance, profile)
                        && VerifiedIn(journal.log, c, expected, profile)
                        && Verified(journal.config, journal.log, token, c, k, records[k].action, expected)
      ensures Vetted(Asked(), expected, profile, r) && !Faulted()
    {
      hide Starts, Ports, Core, AuthorityAgrees, Newest, Verified, VerifiedIn, Seen, Pinned, Checked;
      if !expected.Matches(expected.instance, profile) { return Err(MismatchedIdentity); }
      var verified := VerifyStartedIdentity(c, k, expected, profile);
      if verified.Err? {
        CheckFailed(Asked(), expected, profile, verified.error);
        return Err(FailureError(verified.error));
      }
      assert verified.value == Unit;
      return Ok(Unit);
    }

    method VerifyStartedIdentity(ghost c: nat, k: Key, expected: ProcessIdentity, profile: Profile)
      returns (r: Result<Unit, Failure>)
      requires Holds(c, k) && Pinned(journal.config, journal.log, token, c, k.instance, records[k].action, profile)
      modifies journal`log
      ensures Holds(c, k) && Extends(c)
      ensures r.Ok? ==> expected.Matches(expected.instance, profile)
                        && VerifiedIn(journal.log, c, expected, profile)
                        && Verified(journal.config, journal.log, token, c, k, records[k].action, expected)
      ensures Checked(Asked(), expected, profile, r) && !Faulted()
    {
      hide Starts, Ports, Core, AuthorityAgrees, Newest, Verified, Seen, Pinned;
      ghost var start := journal.log;
      var actual := PortIdentity(c, k, expected.handle);
      if actual.Err? { return Err(ProcessFailure(actual.error)); }
      if actual.value != expected || !expected.Matches(expected.instance, profile) { return Err(IdentityMismatch); }
      SeenLast(journal.log, c, IdentityCall(expected.handle, Ok(expected)));
      ghost var first := journal.log;
      var state := PortInspect(c, k, expected.handle);
      InTurn(start, first, journal.log);
      if state.Err? { return Err(ProcessFailure(state.error)); }
      if !state.value.Running? { return Err(ProcessFailure(InspectionFailed)); }
      SeenLast(journal.log, c, InspectCall(expected.handle, Ok(Running)));
      ghost var second := journal.log;
      var tree := PortDescendants(c, k, expected.handle);
      InTurn(start, second, journal.log);
      if tree.Err? { return Err(ProcessFailure(tree.error)); }
      if !InScope(tree.value, expected.instance, profile) { return Err(ForeignDescendant); }
      SeenLater(first, journal.log, c, IdentityCall(expected.handle, Ok(expected)));
      SeenLater(second, journal.log, c, InspectCall(expected.handle, Ok(Running)));
      SeenLast(journal.log, c, DescendantsCall(expected.handle, Ok(tree.value)));
      PinnedLater(journal.config, start, journal.log, token, c, k.instance, records[k].action, profile);
      VerifiedBy(journal.config, journal.log, token, c, k, records[k].action, expected, tree.value, profile);
      return Ok(Unit);
    }

    /** Exited, unchanged and childless; a failed observation is not proof of absence. */
    method ConfirmExited(ghost c: nat, k: Key, expected: ProcessIdentity) returns (gone: bool)
      requires Holds(c, k)
      modifies journal`log
      ensures Holds(c, k) && Extends(c)
      ensures gone ==> ConfirmedGone(journal.log, c, expected.handle)
                       && Seen(journal.log, c, IdentityCall(expected.handle, Ok(expected)))
      ensures ExitChecked(Asked(), expected, gone) && !Faulted()
    {
      hide Starts, Ports, Core, AuthorityAgrees, Newest, Seen;
      ghost var start := journal.log;
      var actual := PortIdentity(c, k, expected.handle);
      if actual != Ok(expected) { return false; }
      SeenLast(journal.log, c, IdentityCall(expected.handle, Ok(expected)));
      ghost var first := journal.log;
      var state := PortInspect(c, k, expected.handle);
      InTurn(start, first, journal.log);
      if state != Ok(Exited) { return false; }
      SeenLast(journal.log, c, InspectCall(expected.handle, Ok(Exited)));
      ghost var second := journal.log;
      var tree := PortDescendants(c, k, expected.handle);
      InTurn(start, second, journal.log);
      SeenLater(first, journal.log, c, IdentityCall(expected.handle, Ok(expected)));
      SeenLater(second, journal.log, c, InspectCall(expected.handle, Ok(Exited)));
      SeenLast(journal.log, c, DescendantsCall(expected.handle, tree));
      return tree == Ok([]);
    }

    /** Profile of the owner row if there is one, otherwise the one the operation leads back to. */
    method ProfileForOperation(op: Operation) returns (r: Result<Profile, LifecycleError>)
      ensures r.Ok? <==> exists p :: Governs(journal.config, Cache(), op, p)
      ensures r.Ok? ==> Governs(journal.config, Cache(), op, r.value)
      ensures r.Err? ==> !r.error.StoreFailed?
      ensures HeldBy(journal.config, Cache(), op, if r.Ok? then Some(r.value) else None)
    {
      if op.instance in ownership {
        r := Resolve(ownership[op.instance].profile);
        assert r.Ok? ==> Governs(journal.config, Cache(), op, r.value);
        return;
      }
      if op.action.LaunchNew? || op.action.Restart? {
        r := Resolve(op.action.profile);
        assert r.Ok? ==> Governs(journal.config, Cache(), op, r.value);
        return;
      }
      var candidates := set k | k in records && k.instance == op.instance && records[k].process.Some?
                                && records[k].state.Active()
                                && (records[k].action.LaunchNew? || records[k].action.Restart?)
                                && records[k].action.profile in journal.config.profiles;
      assert forall k :: k in candidates <==> Supplies(journal.config, records, op.instance, k);
      if candidates == {} { return Err(InstanceNotFound); }
      var best :| best in candidates;
      var rest := candidates - {best};
      while rest != {}
        invariant best in candidates && rest <= candidates
        invariant forall k :: k in candidates - rest ==> k.operation <= best.operation
        decreases rest
      {
        var k :| k in rest;
        if k.operation > best.operation { best := k; }
        rest := rest - {k};
      }
      assert Governs(journal.config, Cache(), op, journal.config.profiles[records[best].action.profile]);
      return Resolve(records[best].action.profile);
    }

    /** A profile found for a stored record now is one this call may hold its instance to. */
    lemma FoundNow(c: nat, k: Key, op: Operation, profile: Profile)
      requires Core() && Begun(token, c) in journal.log && k in records
      requires k.instance == op.instance && Governs(journal.config, Cache(), records[k], profile)
      ensures Governed(journal.config, journal.log, token, c, k, profile) && HeldTo(c, op, profile)
    {
      assert journal.log[..|journal.log|] == journal.log;
    }

    lemma StillHeld(start: seq<Entry>, c: nat, op: Operation, profile: Profile)
      requires Pinned(journal.config, start, token, c, op.instance, op.action, profile) && start <= journal.log
      ensures HeldTo(c, op, profile)
    {
      PinnedLater(journal.config, start, journal.log, token, c, op.instance, op.action, profile);
    }

    lemma OwnProfile(c: nat, op: Operation, profile: Profile)
      requires NamesProfile(op.action) && Resolve(op.action.profile) == Ok(profile)
      ensures HeldTo(c, op, profile)
    {
    }

    /** Which profile governs depends on the instance and the action alone. */
    lemma SameProfile(op: Operation, other: Operation, profile: Profile)
      requires op.instance == other.instance && op.action == other.action
      requires Governs(journal.config, Cache(), op, profile)
      ensures Governs(journal.config, Cache(), other, profile)
    {
    }

    /** Profile under which a retained record holds its instance. */
    method ProfileIdForRecord(op: Operation) returns (r: Option<ProfileId>)
      requires Core()
      ensures ProfileIdIs(records, op, r)
    {
      hide Core, Invariant;
      if op.action.LaunchNew? || op.action.Restart? { return Some(op.action.profile); }
      if op.process.None? { return None; }
      var candidates := set k | k in records && k.instance == op.instance && records[k].process == op.process
                                && !records[k].state.Rejected?
                                && (records[k].action.LaunchNew? || records[k].action.Restart?);
      assert forall k :: k in candidates <==> NamesForIn(records, op, k);
      if candidates == {} { return None; }
      var best := Greatest(candidates);
      assert NamesForIn(records, op, best);
      return Some(records[best].action.profile);
    }

    // ---- failures -----------------------------------------------------------------------------

    /** Write the next version of the operation this call acts for. */
    method Persist(ghost c: nat, op: Operation) returns (r: Result<Unit, LifecycleError>)
      requires Writing(c, op) && op.Fits()
      requires Grounded(journal.config, journal.log, token, c, records[KeyOf(op)], op)
      modifies this`records, journal`records, journal`log, journal`faults
      ensures Valid() && Extends(c) && Silent() && (r.Err? <==> Faulted())
      ensures r.Err? ==> records == old(records) && journal.log == old(journal.log)
      ensures r.Err? ==> r.error.StoreFailed?
      ensures r.Ok? ==> journal.token == Some(token) && records == old(records)[KeyOf(op) := op]
                        && journal.log == old(journal.log) + [Updated(token, c, op)]
      ensures r.Ok? && op.state.Active() ==> Acting(c, op)
    {
      hide Starts, Ports, Core, AuthorityAgrees, Newest, Grounded;
      r := PersistUpdate(c, op);
    }

    method GoUnknown(ghost c: nat, op: Operation, process: Option<ProcessIdentity>, failure: Option<Failure>)
      returns (r: Result<Response, LifecycleError>)
      requires Writing(c, op) && (process.None? ==> records[KeyOf(op)].process.None?)
      modifies this`records, journal`records, journal`log, journal`faults
      ensures Silent() && (r.Err? ==> r.error.StoreFailed?) && (Faulted() <==> StoreBroke(r))
      ensures !Faulted() ==> KeyOf(op) in records && Told(op, Unknown, process, failure, StateUnknown, Now(op), r)
      ensures Valid() && Extends(c)
      ensures r.Ok? ==> Answers(op, r.value)
      ensures r.Ok? ==> r.value.state == Unknown && r.value.process == process && r.value.failure == failure
    {
      hide Starts, Ports, Core, AuthorityAgrees, Newest, Verified, ConfirmedGone;
      var next := op.Moved(Unknown, process, failure);
      var _ :- Persist(c, next);
      return Ok(Respond(next, StateUnknown));
    }

    /** Block on a process fault, otherwise reject; a rejected owner gives up its row. Always an error. */
    method BlockOperation(ghost c: nat, op: Operation, failure: Failure) returns (r: Result<Response, LifecycleError>)
      requires Valid() && KeyOf(op) in records && records[KeyOf(op)].state.Active()
      requires records[KeyOf(op)].SameRequest(op) && records[KeyOf(op)].authorityEpoch == op.authorityEpoch
      requires Newest(records, KeyOf(op)) || !failure.ProcessFailure?
      requires op.process.None? ==> records[KeyOf(op)].process.None?
      modifies this`records, this`ownership, this`owned, journal`records, journal`ownership, journal`log, journal`faults
      ensures Silent() && (Faulted() <==> StoreBroke(r))
      ensures !Faulted() ==> KeyOf(op) in records && Barred(op, Verdict(failure), op.process, failure, Now(op), r)
      ensures Valid() && Extends(c) && r.Err?
      ensures !Faulted() ==>
                r.error == FailureError(failure)
                && records == old(records)[KeyOf(op) := op.Moved(if failure.ProcessFailure? then Blocked else Rejected,
                                                                 op.process, Some(failure))]
                && ownership == if !failure.ProcessFailure? && op.instance in old(ownership)
                                   && old(ownership)[op.instance].operation == op.id
                                then old(ownership) - {op.instance} else old(ownership)
    {
      hide Starts, Ports, Core, AuthorityAgrees, Newest, Verified, ConfirmedGone, CanUpdateOwner;
      OwnOwner(op);
      var next := op.Moved(if failure.ProcessFailure? then Blocked else Rejected, op.process, Some(failure));
      var clearOwner := next.state.Rejected? && op.instance in ownership && ownership[op.instance].operation == op.id;
      ghost var start := journal.log;
      var stored := PersistUpdate(c, next);
      if stored.Err? { return Err(stored.error); }
      if clearOwner {
        SameOwner(op, next);
        ghost var written := journal.log;
        var cleared := ClearOwnedFor(c, next);
        InTurn(start, written, journal.log);
        if cleared.Err? { return Err(cleared.error); }
      }
      return Err(FailureError(failure));
    }

    /** An operation may always give up its own owner row. */
    lemma OwnOwner(op: Operation)
      requires Core() && KeyOf(op) in records && records[KeyOf(op)].sequence == op.sequence
      ensures op.instance in ownership && ownership[op.instance].operation == op.id ==> CanUpdateOwner(op)
    {
    }

    lemma SameOwner(op: Operation, other: Operation)
      requires op.instance == other.instance && op.id == other.id && op.sequence == other.sequence
      ensures CanUpdateOwner(op) <==> CanUpdateOwner(other)
    {
    }

    /** Keep an identity-bearing cleanup obligation: owner row first, then the blocked record. Always an error. */
    method BlockCleanup(ghost c: nat, op: Operation, failure: Failure) returns (r: Result<Response, LifecycleError>)
      requires Acting(c, op)
      modifies this`records, this`ownership, this`owned, this`nextSequence, journal`records, journal`ownership, journal`log, journal`faults
      ensures Silent() && (Faulted() <==> StoreBroke(r))
      ensures !Faulted() ==> KeyOf(op) in records && Barred(op, Blocked, op.process, failure, Now(op), r)
      ensures Valid() && Extends(c) && r.Err?
      ensures !Faulted() ==>
                r.error == FailureError(failure)
                && records == old(records)[KeyOf(op) := op.Moved(Blocked, op.process, Some(failure))]
                && (op.instance in old(ownership) && old(CanUpdateOwner(op)) ==>
                      op.instance in ownership && ownership[op.instance].process == op.process)
    {
      hide CanUpdateOwner, Starts, Ports, Core, AuthorityAgrees, Newest, Verified, ConfirmedGone;
      var next := op.Moved(Blocked, op.process, Some(failure));
      SameOwner(op, next);
      ghost var start := journal.log;
      var kept := SetOwnerProcessFor(c, next, next.process);
      if kept.Err? { return Err(kept.error); }
      ghost var written := journal.log;
      var stored := Persist(c, next);
      InTurn(start, written, journal.log);
      if stored.Err? { return Err(stored.error); }
      return Err(FailureError(failure));
    }

    method BlockCleanupError(ghost c: nat, op: Operation, error: LifecycleError) returns (r: Result<Response, LifecycleError>)
      requires Acting(c, op)
      modifies this`records, this`ownership, this`owned, this`nextSequence, journal`records, journal`ownership, journal`log, journal`faults
      ensures Silent() && (error.ForeignTree? || error.MismatchedIdentity? || error.ProcessError? ==> (Faulted() <==> StoreBroke(r)))
      ensures !Faulted() && (error.ForeignTree? || error.MismatchedIdentity? || error.ProcessError?) ==>
                KeyOf(op) in records && BarredBy(op, error, Now(op), r)
      ensures Valid() && Extends(c) && r.Err?
    {
      hide Starts, Ports, Core, AuthorityAgrees, Newest, Verified, ConfirmedGone;
      match error
      case ForeignTree => r := BlockCleanup(c, op, ForeignDescendant);
      case MismatchedIdentity => r := BlockCleanup(c, op, IdentityMismatch);
      case ProcessError(fault) => r := BlockCleanup(c, op, ProcessFailure(fault));
      case _ => return Err(error);
    }

    /**
     A fault while no process is recorded: explicit refusals fail the operation and release it; any
     other fault may hide a started child, so its exact generation is looked up and kept.
     */
    method ProcessFault(ghost c: nat, op: Operation, fault: Fault) returns (r: Result<Response, LifecycleError>)
      requires Acting(c, op)
      requires op.process.None? && Explicit(StartFault(fault)) ==> RefusedInCall(journal.log, c, KeyOf(op))
      modifies this`records, this`ownership, this`owned, this`nextSequence, journal`records, journal`ownership, journal`log, journal`faults
      ensures Faulted() <==> StoreBroke(r)
      ensures !Faulted() ==> KeyOf(op) in records && AfterFault(journal.config, Asked(), op, fault, Now(op), r)
      ensures Valid() && Extends(c) && r.Err?
      ensures !Faulted() ==>
                r.error == ProcessError(fault) && KeyOf(op) in records
                && records[KeyOf(op)].failure == Some(ProcessFailure(fault))
                && records[KeyOf(op)].state == (if op.process.Some? then Blocked
                                                else if Explicit(StartFault(fault)) then Failed else Unknown)
                && (records[KeyOf(op)].state.Failed? && old(CanUpdateOwner(op)) ==> op.instance !in ownership)
    {
      hide LookedUp, CanUpdateOwner, Starts, Ports, Core, AuthorityAgrees, Newest, Verified, ConfirmedGone, RefusedInCall;
      if op.process.Some? {
        r := BlockOperation(c, op, ProcessFailure(fault));
        return;
      }
      ghost var start := journal.log;
      if fault.StartRejected? || fault.ProfileRequired? || fault.ProfileNotApproved? {
        var failed := op.Moved(Failed, None, Some(ProcessFailure(fault)));
        SameOwner(op, failed);
        var released := FailAndRelease(c, failed);
        return Err(if released.Err? then released.error else ProcessError(fault));
      }
      var recovered := RecoverAfterFault(c, op);
      var next := op.Moved(Unknown, recovered, Some(ProcessFailure(fault)));
      ghost var looked := journal.log;
      var stored := KeepUnknown(c, next);
      InTurn(start, looked, journal.log);
      assert !Faulted() ==> LookedUp(journal.config, Asked(), op, recovered);
      return Err(if stored.Err? then stored.error else ProcessError(fault));
    }

    /** Write a refused start, then give up its owner row. */
    method FailAndRelease(ghost c: nat, failed: Operation) returns (r: Result<Unit, LifecycleError>)
      requires Acting(c, failed) && failed.state == Failed && failed.process.None? && RefusedInCall(journal.log, c, KeyOf(failed))
      modifies this`records, this`ownership, this`owned, this`nextSequence, journal`records, journal`ownership, journal`log, journal`faults
      ensures Valid() && Extends(c) && Silent() && (r.Err? <==> Faulted())
      ensures r.Err? ==> r.error.StoreFailed?
      ensures r.Ok? ==> records == old(records)[KeyOf(failed) := failed]
                        && (old(CanUpdateOwner(failed)) ==> failed.instance !in ownership)
    {
      hide CanUpdateOwner, Starts, Ports, Core, AuthorityAgrees, Newest, Verified, ConfirmedGone, RefusedInCall;
      ghost var start := journal.log;
      var _ :- Persist(c, failed);
      ghost var written := journal.log;
      r := ClearOwnedFor(c, failed);
      InTurn(start, written, journal.log);
    }

    /** Write an unknown outcome, then the process it may have. */
    method KeepUnknown(ghost c: nat, next: Operation) returns (r: Result<Unit, LifecycleError>)
      requires Acting(c, next) && next.state == Unknown
      modifies this`records, this`ownership, this`owned, this`nextSequence, journal`records, journal`ownership, journal`log, journal`faults
      ensures Valid() && Extends(c) && Silent() && (r.Err? <==> Faulted())
      ensures r.Err? ==> r.error.StoreFailed?
      ensures r.Ok? ==> records == old(records)[KeyOf(next) := next]
    {
      hide CanUpdateOwner, Starts, Ports, Core, AuthorityAgrees, Newest, Verified, ConfirmedGone;
      ghost var start := journal.log;
      var _ :- Persist(c, next);
      ghost var written := journal.log;
      r := SetOwnerProcessFor(c, next, next.process);
      InTurn(start, written, journal.log);
    }

    method RecoverAfterFault(ghost c: nat, op: Operation) returns (recovered: Option<ProcessIdentity>)
      requires Acting(c, op)
      modifies journal`log
      ensures Acting(c, op) && Extends(c)
      ensures recovered.Some? ==> recovered.value.instance == op.instance
      ensures LookedUp(journal.config, Asked(), op, recovered) && !Faulted()
    {
      hide Starts, Ports, Core, AuthorityAgrees, Newest, Verified, ConfirmedGone;
      if !op.action.LaunchNew? && !op.action.Restart? { return None; }
      var profile := Resolve(op.action.profile);
      if profile.Err? { return None; }
      var kind := if op.action.LaunchNew? then LaunchGeneration else RestartReplacement;
      var generation := GenerationFor(op, profile.value, kind);
      if generation.None? { return None; }
      var found := PortRecover(c, KeyOf(op), generation.value);
      if found.Ok? && found.value.Found? && found.value.identity.instance == op.instance {
        return Some(found.value.identity);
      }
      return None;
    }

    // ---- launch -------------------------------------------------------------------------------

    /** Mark the launch starting, then start its generation once. */
    method ExecuteLaunch(ghost c: nat, op: Operation, profileId: ProfileId) returns (r: Result<Response, LifecycleError>)
      requires Acting(c, op) && op.action == LaunchNew(profileId) && op.instance in ownership && op.process.None?
      requires InsertedInCall(journal.log, c, KeyOf(op)) && !StartedInCall(journal.log, c)
      modifies this`records, this`ownership, this`owned, this`nextSequence, journal`records, journal`ownership, journal`log, journal`faults
      ensures profileId !in journal.config.profiles ==> r == Err(ProfileNotFound) && journal.log == old(journal.log)
      ensures Faulted() <==> StoreBroke(r)
      ensures !Faulted() && profileId in journal.config.profiles ==>
                KeyOf(op) in records && Starts(journal.log) == old(Starts(journal.log)) + 1
                && Launched(journal.config, Asked(), op.(state := Starting, process := None, failure := None),
                            journal.config.profiles[profileId], Now(op), r)
      ensures r.Ok? ==> r.value.state == Started && r.value.process.Some?
                        && JustStarted(journal.log, c, r.value.process.value)
      ensures Valid() && Grown(c)
      ensures r.Ok? ==> Answers(op, r.value)
    {
      hide Starts, Ports, Core, AuthorityAgrees, Newest, InsertedInCall, StartedInCall, JustStarted;
      hide Verified, ConfirmedGone, RefusedInCall, Pinned, Governs, Governed, Launched;
      var profile :- Resolve(profileId);
      var next := op.Moved(Starting, None, None);
      ghost var before := journal.log;
      var _ :- Persist(c, next);
      UpdateKeepsCall(before, Updated(token, c, next), c, KeyOf(op));
      ghost var written := journal.log;
      r := LaunchOnce(c, next, profile);
      InTurn(before, written, journal.log);
      assert Asked() == Ports(journal.log[|written|..]);
    }

    method LaunchOnce(ghost c: nat, next: Operation, profile: Profile) returns (r: Result<Response, LifecycleError>)
      requires Acting(c, next) && records[KeyOf(next)] == next && next.state == Starting && next.process == None
      requires next.action.LaunchNew? && Resolve(next.action.profile) == Ok(profile)
      requires journal.token == Some(token) && next.instance in ownership
      requires InsertedInCall(journal.log, c, KeyOf(next)) && !StartedInCall(journal.log, c)
      modifies this`records, this`ownership, this`owned, this`nextSequence, journal`records, journal`ownership, journal`log, journal`faults
      ensures Faulted() <==> StoreBroke(r)
      ensures !Faulted() ==> KeyOf(next) in records && Launched(journal.config, Asked(), next, profile, Now(next), r)
      ensures Starts(journal.log) == old(Starts(journal.log)) + 1
      ensures r.Ok? ==> r.value.state == Started && r.value.process.Some?
                        && JustStarted(journal.log, c, r.value.process.value)
      ensures Valid() && Grown(c)
      ensures r.Ok? ==> Answers(next, r.value)
    {
      hide Starts, Ports, Core, AuthorityAgrees, Newest, InsertedInCall, StartedInCall, JustStarted, Verified, ConfirmedGone;
      hide RefusedInCall, Pinned, Governs, Governed, StartReturned, AfterFault, Launched;
      // The record is sequenced, starting and under its own profile, so its generation exists.
      LaunchHasGeneration(next, profile);
      var generation := GenerationFor(next, profile, LaunchGeneration);
      DurableOwnership();
      ghost var start := journal.log;
      var started := PortStart(c, KeyOf(next), generation.value, next.instance, next.action.profile);
      ghost var first, call := journal.log, StartCall(generation.value, next.instance, next.action.profile, started);
      RefusedNow(journal.log, c, next);
      match started {
        case Ok(identity) =>
          StartedNow(journal.log, c, identity);
          OwnProfile(c, next, profile);
          r := FinishStart(c, next, identity, profile);
          StartedLater(first, journal.log, c, identity);
        case Err(Unsupported) => r := ProcessFault(c, next, ProfileRequired);
        case Err(StartFault(fault)) => r := ProcessFault(c, next, fault);
      }
      InTurn(start, first, journal.log);
      if !Faulted() {
        LaunchedBy(journal.config, call, Ports(journal.log[|first|..]), next, profile, Now(next), r);
      }
    }

    /** A stored launch that is starting under its own profile has a generation. */
    lemma LaunchHasGeneration(op: Operation, profile: Profile)
      requires Core() && KeyOf(op) in records && records[KeyOf(op)] == op && op.state == Starting
      requires op.action.LaunchNew? && Resolve(op.action.profile) == Ok(profile)
      ensures profile.id == op.action.profile && GenerationFor(op, profile, LaunchGeneration) == Some(OwnGeneration(op))
    {
      StoredFits(KeyOf(op));
    }

    lemma DurableOwnership()
      requires Core() && journal.token == Some(token)
      ensures Replay(journal.log).ownership == ownership
    {
    }

    /** Verify what was started; what does not verify is stopped and retained if it will not go. */
    method FinishStart(ghost c: nat, op: Operation, identity: ProcessIdentity, profile: Profile)
      returns (r: Result<Response, LifecycleError>)
      requires Acting(c, op) && RestartReady(op) && (op.action.LaunchNew? || op.action.Restart?)
      requires JustStarted(journal.log, c, identity) && HeldTo(c, op, profile)
      modifies this`records, this`ownership, this`owned, this`nextSequence, journal`records, journal`ownership, journal`log, journal`faults
      ensures Faulted() <==> StoreBroke(r)
      ensures !Faulted() ==> KeyOf(op) in records && StartReturned(Asked(), op, identity, profile, Now(op), r)
      ensures Valid() && Extends(c)
      ensures r.Ok? ==> Answers(op, r.value)
      ensures r.Ok? ==> r.value.state == Started && r.value.process == Some(identity) && op.instance in ownership
      ensures r.Ok? && old(CanUpdateOwner(op)) ==>
                ownership == old(ownership)[op.instance := Ownership(op.instance, op.id, op.sequence, profile.id, Some(identity))]
    {
      hide CanUpdateOwner, VerifiedIn, Pinned, Starts, Ports, Core, AuthorityAgrees, Newest, JustStarted, Verified, ConfirmedGone;
      hide Checked, StartUndone, Grounded;
      if !identity.Matches(op.instance, profile) {
        r := FinishStartFailure(c, op.Moved(Starting, Some(identity), Some(IdentityMismatch)), identity, IdentityMismatch);
        if !Faulted() {
          UndoneAlike(Asked(), op, op.Moved(Starting, Some(identity), Some(IdentityMismatch)), identity, IdentityMismatch, Now(op), r);
        }
        return;
      }
      ghost var before := journal.log;
      var verified := VerifyStartedIdentity(c, KeyOf(op), identity, profile);
      ghost var checks, seen := Asked(), journal.log;
      StartedLater(before, journal.log, c, identity);
      if verified.Err? {
        var failed := op.Moved(Starting, Some(identity), Some(verified.error));
        r := FinishStartFailure(c, failed, identity, verified.error);
        InTurn(before, seen, journal.log);
        ghost var rest := Ports(journal.log[|seen|..]);
        if !Faulted() {
          UndoneAlike(rest, op, failed, identity, verified.error, Now(op), r);
          UnverifiedStart(checks, rest, op, identity, profile, verified.error, Now(op), r);
        }
        return;
      }
      assert verified.value == Unit;
      r := KeepStarted(c, op, identity, profile);
      InTurn(before, seen, journal.log);
      assert Asked() == checks;
      if !Faulted() {
        VerifiedStart(checks, op, identity, profile, Now(op), r);
      }
    }

    /** Write the verified start, then the owner row. */
    method KeepStarted(ghost c: nat, op: Operation, identity: ProcessIdentity, profile: Profile)
      returns (r: Result<Response, LifecycleError>)
      requires Acting(c, op) && (op.action.LaunchNew? || op.action.Restart?)
      requires Verified(journal.config, journal.log, token, c, KeyOf(op), op.action, identity)
      modifies this`records, this`ownership, this`owned, this`nextSequence, journal`records, journal`ownership, journal`log, journal`faults
      ensures r.Ok? ==> op.instance in ownership && Answers(op, r.value)
                        && KeyOf(op) in records && Told(op, Started, Some(identity), None, StateStarting, Now(op), r)
      ensures Valid() && Extends(c) && Silent() && (Faulted() <==> StoreBroke(r)) && (r.Err? ==> r.error.StoreFailed?)
      ensures r.Ok? && old(CanUpdateOwner(op)) ==>
                ownership == old(ownership)[op.instance := Ownership(op.instance, op.id, op.sequence, profile.id, Some(identity))]
    {
      hide CanUpdateOwner, Starts, Ports, Core, AuthorityAgrees, Newest, Verified, ConfirmedGone;
      ghost var start := journal.log;
      var next := op.Moved(Started, Some(identity), None);
      SameOwner(op, next);
      var _ :- Persist(c, next);
      ghost var written := journal.log;
      var reserved := ReserveOwnership(c, next, profile.id, Some(identity));
      InTurn(start, written, journal.log);
      return if reserved.Err? then Err(reserved.error) else Ok(Respond(next, StateStarting));
    }

    /** Undoing a start depends on what is kept of the operation only through its request and epoch. */
    static lemma UndoneAlike(calls: seq<PortCall>, op: Operation, other: Operation, identity: ProcessIdentity, failure: Failure,
                             after: Operation, r: Result<Response, LifecycleError>)
      requires op == other.(state := op.state, process := op.process, failure := op.failure)
      ensures StartUndone(calls, op, identity, failure, after, r) <==> StartUndone(calls, other, identity, failure, after, r)
    {
    }

    method FinishStartFailure(ghost c: nat, op: Operation, identity: ProcessIdentity, failure: Failure)
      returns (r: Result<Response, LifecycleError>)
      requires Acting(c, op) && RestartReady(op) && op.process == Some(identity) && !op.action.Stop?
      requires JustStarted(journal.log, c, identity)
      modifies this`records, this`ownership, this`owned, this`nextSequence, journal`records, journal`ownership, journal`log, journal`faults
      ensures Faulted() <==> StoreBroke(r)
      ensures !Faulted() ==> KeyOf(op) in records && StartUndone(Asked(), op, identity, failure, Now(op), r)
      ensures Valid() && Extends(c) && r.Err?
    {
      hide Starts, Ports, Core, AuthorityAgrees, Newest, JustStarted, Verified, ConfirmedGone, StartUndone, Barred, CanUpdateOwner;
      hide TreeUndone;
      ghost var start := journal.log;
      var stopped := PortStop(c, KeyOf(op), identity.handle, Force);
      ghost var first := journal.log;
      if stopped.Err? {
        r := BlockCleanup(c, op, ProcessFailure(stopped.error));
      } else {
        r := SettleUndone(c, op, identity, failure);
      }
      InTurn(start, first, journal.log);
      if !Faulted() {
        UndoneByStop(StopCall(identity.handle, Force, stopped), Ports(journal.log[|first|..]), op, identity, failure, Now(op), r);
      }
    }

    /** The undone start was stopped: block or reject it by what is left of its tree. */
    method SettleUndone(ghost c: nat, op: Operation, identity: ProcessIdentity, failure: Failure)
      returns (r: Result<Response, LifecycleError>)
      requires Acting(c, op) && op.process == Some(identity)
      modifies this`records, this`ownership, this`owned, this`nextSequence, journal`records, journal`ownership, journal`log, journal`faults
      ensures Faulted() <==> StoreBroke(r)
      ensures !Faulted() ==> KeyOf(op) in records && TreeUndone(Asked(), op, identity, failure, Now(op), r)
      ensures Valid() && Extends(c) && r.Err?
    {
      hide Starts, Ports, Core, AuthorityAgrees, Newest, Verified, ConfirmedGone, Barred, CanUpdateOwner;
      ghost var start := journal.log;
      var tree := PortDescendants(c, KeyOf(op), identity.handle);
      ghost var seen := journal.log;
      if tree.Err? {
        r := BlockCleanup(c, op, ProcessFailure(tree.error));
      } else if tree.value != [] {
        r := BlockCleanup(c, op, ForeignDescendant);
      } else {
        r := BlockOperation(c, op, failure);
      }
      InTurn(start, seen, journal.log);
    }

    // ---- attach -------------------------------------------------------------------------------

    method ExecuteAttach(ghost c: nat, op: Operation, identity: ProcessIdentity) returns (r: Result<Response, LifecycleError>)
      requires Acting(c, op) && op.action == AttachExisting(identity)
      modifies this`records, this`ownership, this`owned, this`nextSequence, journal`records, journal`ownership, journal`log, journal`faults
      ensures Faulted() <==> StoreBroke(r)
      ensures !Faulted() ==>
                KeyOf(op) in records
                && exists previous, profile ::
                     Prior(journal.config, old(Cache()), leases, op, previous, profile)
                     && AttachOutcome(Asked(), op, identity, previous, profile, old(Now(op)), Now(op), r)
      ensures Valid() && Extends(c)
      ensures r.Ok? ==> Answers(op, r.value)
      ensures r.Ok? ==> r.value.state == Attached && r.value.process == Some(identity) && op.instance in ownership
                        && (exists p :: VerifiedIn(journal.log, c, identity, p))
                        && old(exists k :: Authorizes(op.instance, Some(op.id), k) && records[k].process == Some(identity))
    {
      hide CanUpdateOwner, VerifiedIn, AuthorizesIn, Starts, Ports, AuthorityAgrees, Newest, Core;
      hide Verified, ConfirmedGone, Pinned, Governs, Governed, AttachSettled, Barred;
      var previous := LatestAuthorized(op.instance, Some(op.id));
      if previous.None? {
        assert forall k :: AuthorizesIn(Cache(), leases, op.instance, Some(op.id), k) ==> Authorizes(op.instance, Some(op.id), k);
        assert Prior(journal.config, Cache(), leases, op, None, None);
        r := BlockOperation(c, op, UnownedAttach);
        return;
      }
      var profile := ProfileForOperation(previous.value);
      ghost var held := if profile.Ok? then Some(profile.value) else None;
      assert Prior(journal.config, Cache(), leases, op, previous, held);
      if previous.value.process != Some(identity) {
        r := BlockOperation(c, op, IdentityMismatch);
        return;
      }
      if profile.Err? { return Err(profile.error); }
      FoundNow(c, KeyOf(previous.value), op, profile.value);
      r := AttachTo(c, op, identity, profile.value);
    }

    /** Write the attachment ahead, then verify the process. */
    method AttachTo(ghost c: nat, op: Operation, identity: ProcessIdentity, profile: Profile)
      returns (r: Result<Response, LifecycleError>)
      requires Acting(c, op) && op.action == AttachExisting(identity) && HeldTo(c, op, profile)
      modifies this`records, this`ownership, this`owned, this`nextSequence, journal`records, journal`ownership, journal`log, journal`faults
      ensures Faulted() <==> StoreBroke(r)
      ensures !Faulted() ==>
                KeyOf(op) in records
                && AttachSettled(Asked(), op.(state := Attached, process := Some(identity), failure := None), identity, profile,
                                 Now(op), r)
      ensures Valid() && Extends(c)
      ensures r.Ok? ==> Answers(op, r.value)
      ensures r.Ok? ==> r.value.state == Attached && r.value.process == Some(identity) && op.instance in ownership
                        && VerifiedIn(journal.log, c, identity, profile)
    {
      hide CanUpdateOwner, VerifiedIn, Starts, Ports, AuthorityAgrees, Newest, Core, Verified, ConfirmedGone, Pinned, AttachSettled;
      ghost var start := journal.log;
      var next := op.Moved(Attached, Some(identity), None);
      var _ :- Persist(c, next);
      ghost var written := journal.log;
      PinnedLater(journal.config, start, journal.log, token, c, op.instance, op.action, profile);
      r := ConfirmAttach(c, next, identity, profile);
      InTurn(start, written, journal.log);
    }

    method ConfirmAttach(ghost c: nat, next: Operation, identity: ProcessIdentity, profile: Profile)
      returns (r: Result<Response, LifecycleError>)
      requires Acting(c, next) && next.action.AttachExisting? && next.state == Attached && next.process == Some(identity)
      requires HeldTo(c, next, profile) && next.failure.None?
      modifies this`records, this`ownership, this`owned, this`nextSequence, journal`records, journal`ownership, journal`log, journal`faults
      ensures Faulted() <==> StoreBroke(r)
      ensures !Faulted() ==> KeyOf(next) in records && AttachSettled(Asked(), next, identity, profile, Now(next), r)
      ensures r.Ok? && old(CanUpdateOwner(next)) ==>
                ownership == old(ownership)[next.instance := Ownership(next.instance, next.id, next.sequence, profile.id, Some(identity))]
      ensures Valid() && Extends(c)
      ensures r.Ok? ==> Answers(next, r.value)
      ensures r.Ok? ==> r.value.state == Attached && r.value.process == Some(identity) && next.instance in ownership
                        && VerifiedIn(journal.log, c, identity, profile)
    {
      hide CanUpdateOwner, VerifiedIn, Starts, Ports, AuthorityAgrees, Newest, Core, Verified, ConfirmedGone, Observed;
      hide Vetted, BarredBy;
      ghost var start := journal.log;
      var verified := VerifyProcess(c, KeyOf(next), identity, profile);
      ghost var checks, seen := Asked(), journal.log;
      if verified.Err? {
        VettingError(checks, identity, profile, verified.error);
        r := BlockCleanupError(c, next, verified.error);
        InTurn(start, seen, journal.log);
        assert Asked() == checks;
        return;
      }
      r := KeepAttached(c, next, identity, profile);
      InTurn(start, seen, journal.log);
      assert Asked() == checks;
      VerifiedInLater(seen, journal.log, c, identity, profile);
    }

    /** Write the owner row of a verified attachment, then the record. */
    method KeepAttached(ghost c: nat, next: Operation, identity: ProcessIdentity, profile: Profile)
      returns (r: Result<Response, LifecycleError>)
      requires Acting(c, next) && next.action.AttachExisting? && next.state == Attached && next.process == Some(identity)
      requires next.failure.None?
      modifies this`records, this`ownership, this`owned, this`nextSequence, journal`records, journal`ownership, journal`log, journal`faults
      ensures Silent() && (Faulted() <==> StoreBroke(r)) && (r.Err? ==> r.error.StoreFailed?)
      ensures r.Ok? ==> KeyOf(next) in records && Told(next, Attached, Some(identity), None, StateStarting, Now(next), r)
      ensures r.Ok? && old(CanUpdateOwner(next)) ==>
                ownership == old(ownership)[next.instance := Ownership(next.instance, next.id, next.sequence, profile.id, Some(identity))]
      ensures Valid() && Extends(c)
      ensures r.Ok? ==> Answers(next, r.value) && next.instance in ownership
    {
      hide CanUpdateOwner, Starts, Ports, AuthorityAgrees, Newest, Core, Verified, ConfirmedGone;
      ghost var start := journal.log;
      var _ :- ReserveOwnership(c, next, profile.id, Some(identity));
      ghost var written := journal.log;
      var stored := Persist(c, next);
      InTurn(start, written, journal.log);
      return if stored.Err? then Err(stored.error) else Ok(Respond(next, StateStarting));
    }

    // ---- stop ---------------------------------------------------------------------------------

    method ExecuteStop(ghost c: nat, op: Operation, mode: StopMode) returns (r: Result<Response, LifecycleError>)
      requires Acting(c, op) && op.action == Stop(mode)
      modifies this`records, this`ownership, this`owned, this`nextSequence, journal`records, journal`ownership, journal`log, journal`faults
      ensures Faulted() <==> StoreBroke(r)
      ensures !Faulted() ==>
                KeyOf(op) in records
                && exists previous, profile ::
                     Prior(journal.config, old(Cache()), leases, op, previous, profile)
                     && StopOutcome(Asked(), op, mode, previous, profile, old(Now(op)), Now(op), r)
      ensures Valid() && Extends(c)
      ensures r.Ok? ==> Answers(op, r.value)
      ensures r.Ok? ==> r.value.state == Stopped && r.value.process == None
    {
      hide CanUpdateOwner, VerifiedIn, AuthorizesIn, Starts, Ports, AuthorityAgrees, Newest, Core, InProfile;
      hide Verified, ConfirmedGone, Pinned, Governs, Governed, Seen, VettedThenHalted, Barred;
      var previous := LatestAuthorized(op.instance, Some(op.id));
      if previous.None? {
        assert forall k :: AuthorizesIn(Cache(), leases, op.instance, Some(op.id), k) ==> Authorizes(op.instance, Some(op.id), k);
        assert Prior(journal.config, Cache(), leases, op, None, None);
        r := BlockOperation(c, op, InstanceBusy);
        return;
      }
      var profile := ProfileForOperation(previous.value);
      ghost var held := if profile.Ok? then Some(profile.value) else None;
      assert Prior(journal.config, Cache(), leases, op, previous, held);
      if profile.Err? { return Err(profile.error); }
      FoundNow(c, KeyOf(previous.value), op, profile.value);
      r := StopProcess(c, op, previous.value.process.value, profile.value, mode);
    }

    /** Write the stop ahead, then verify and stop the process. */
    method StopProcess(ghost c: nat, op: Operation, identity: ProcessIdentity, profile: Profile, mode: StopMode)
      returns (r: Result<Response, LifecycleError>)
      requires Acting(c, op) && op.action == Stop(mode) && HeldTo(c, op, profile)
      modifies this`records, this`ownership, this`owned, this`nextSequence, journal`records, journal`ownership, journal`log, journal`faults
      ensures Faulted() <==> StoreBroke(r)
      ensures !Faulted() ==>
                KeyOf(op) in records
                && VettedThenHalted(Asked(), op.(state := Stopping, process := Some(identity), failure := None), identity, profile,
                                    mode, Now(op), r)
      ensures Valid() && Extends(c)
      ensures r.Ok? ==> Answers(op, r.value)
      ensures r.Ok? ==> r.value.state == Stopped && r.value.process == None
    {
      hide CanUpdateOwner, Starts, Ports, AuthorityAgrees, Newest, Core, Verified, ConfirmedGone, Pinned, VettedThenHalted;
      ghost var start := journal.log;
      var next := op.Moved(Stopping, Some(identity), None);
      var _ :- Persist(c, next);
      ghost var written := journal.log;
      PinnedLater(journal.config, start, journal.log, token, c, op.instance, op.action, profile);
      r := StopRunning(c, next, identity, profile);
      InTurn(start, written, journal.log);
    }

    /** Stop the observed identity; only a childless stop finishes the operation and frees the instance. */
    method FinishStop(ghost c: nat, op: Operation, identity: ProcessIdentity, mode: StopMode)
      returns (r: Result<Response, LifecycleError>)
      requires Acting(c, op) && op.action == Stop(mode) && records[KeyOf(op)].process == Some(identity)
      requires Observed(journal.config, journal.log, token, c, KeyOf(op), op.action, identity)
      modifies this`records, this`ownership, this`owned, this`nextSequence, journal`records, journal`ownership, journal`log, journal`faults
      ensures Faulted() <==> StoreBroke(r)
      ensures !Faulted() ==> KeyOf(op) in records && Halted(Asked(), op, identity, mode, Now(op), r)
      ensures r.Ok? && old(CanUpdateOwner(op)) ==> op.instance !in ownership
      ensures Valid() && Extends(c)
      ensures r.Ok? ==> Answers(op, r.value)
      ensures r.Ok? ==> r.value.state == Stopped && r.value.process == None
    {
      hide Starts, Ports, Core, AuthorityAgrees, Newest, Observed, JustStarted, Verified, ConfirmedGone, Barred, CanUpdateOwner;
      hide HaltConfirmed, Ended;
      ghost var start := journal.log;
      var stopped := PortStop(c, KeyOf(op), identity.handle, mode);
      ghost var first := journal.log;
      if stopped.Err? {
        r := BlockOperation(c, op, ProcessFailure(stopped.error));
      } else {
        StopEnds(journal.log, c, identity.handle, mode);
        r := ConfirmHalt(c, op, identity);
      }
      InTurn(start, first, journal.log);
      if !Faulted() {
        HaltedBy(StopCall(identity.handle, mode, stopped), Ports(journal.log[|first|..]), op, identity, mode, Now(op), r);
      }
    }

    /** The process was stopped: nothing of its tree may be left. */
    method ConfirmHalt(ghost c: nat, op: Operation, identity: ProcessIdentity) returns (r: Result<Response, LifecycleError>)
      requires Acting(c, op) && op.action.Stop? && records[KeyOf(op)].process == Some(identity)
      requires Ended(journal.log, c, identity.handle)
      modifies this`records, this`ownership, this`owned, this`nextSequence, journal`records, journal`ownership, journal`log, journal`faults
      ensures Faulted() <==> StoreBroke(r)
      ensures !Faulted() ==> KeyOf(op) in records && HaltConfirmed(Asked(), op, identity, Now(op), r)
      ensures r.Ok? && old(CanUpdateOwner(op)) ==> op.instance !in ownership
      ensures Valid() && Extends(c)
      ensures r.Ok? ==> Answers(op, r.value)
      ensures r.Ok? ==> r.value.state == Stopped && r.value.process == None
    {
      hide Starts, Ports, Core, AuthorityAgrees, Newest, Ended, Verified, ConfirmedGone, Barred, CanUpdateOwner;
      ghost var before := journal.log;
      var tree := PortDescendants(c, KeyOf(op), identity.handle);
      ghost var seen := journal.log;
      NowGone(before, journal.log, c, identity.handle);
      if tree.Err? {
        r := BlockOperation(c, op, ProcessFailure(tree.error));
      } else if tree.value != [] {
        r := BlockCleanup(c, op, ForeignDescendant);
      } else {
        SameOwner(op, op.Moved(Stopped, None, None));
        r := FinishGone(c, op.Moved(Stopped, None, None), StateStopped);
      }
      InTurn(before, seen, journal.log);
    }

    /** Write a terminal record for a process known to be gone, then give up the owner row. */
    method FinishGone(ghost c: nat, done: Operation, lifecycle: LifecycleState) returns (r: Result<Response, LifecycleError>)
      requires Writing(c, done) && (done.state.Stopped? || done.state.Failed?) && Shows(lifecycle, done.state)
      requires records[KeyOf(done)].process.Some?
               && ConfirmedGone(journal.log, c, records[KeyOf(done)].process.value.handle)
      modifies this`records, this`ownership, this`owned, journal`records, journal`ownership, journal`log, journal`faults
      ensures Silent() && (Faulted() <==> StoreBroke(r)) && (r.Err? ==> r.error.StoreFailed?)
      ensures r.Ok? ==> KeyOf(done) in records
                        && Told(done, done.state, done.process, done.failure, lifecycle, Now(done), r)
                        && (old(CanUpdateOwner(done)) ==> done.instance !in ownership)
      ensures Valid() && Extends(c)
      ensures r.Ok? ==> Answers(done, r.value)
    {
      hide CanUpdateOwner, Starts, Ports, Core, AuthorityAgrees, Newest, Verified, ConfirmedGone;
      ghost var start := journal.log;
      var _ :- Persist(c, done);
      ghost var written := journal.log;
      var cleared := ClearOwnedFor(c, done);
      InTurn(start, written, journal.log);
      return if cleared.Err? then Err(cleared.error) else Ok(Respond(done, lifecycle));
    }

    // ---- restart ------------------------------------------------------------------------------

    method ExecuteRestart(ghost c: nat, op: Operation, profileId: ProfileId) returns (r: Result<Response, LifecycleError>)
      requires Acting(c, op) && op.action == Restart(profileId)
      modifies this`records, this`ownership, this`owned, this`nextSequence, this`authority
      modifies journal`records, journal`ownership, journal`log, journal`faults
      ensures Faulted() <==> StoreBroke(r)
      ensures !Faulted() ==>
                KeyOf(op) in records
                && exists previous, profile ::
                     Prior(journal.config, old(Cache()), leases, op, previous, profile)
                     && RestartRequested(journal.config, Asked(), op, profileId, previous, profile,
                                         old(CurrentEpoch(op.instance)), old(Now(op)), Now(op), r)
      ensures Valid() && Grown(c)
      ensures r.Ok? ==> Reflects(KeyOf(op), r.value)
      ensures r.Ok? ==> Replaced(r.value) && r.value.epoch == op.requestEpoch + 1
    {
      hide CanUpdateOwner, VerifiedIn, AuthorizesIn, Starts, Ports, AuthorityAgrees, Newest, Core, InProfile;
      hide Verified, ConfirmedGone, Pinned, Governs, Governed, Seen, RestartOutcome, Barred;
      var previous := LatestAuthorized(op.instance, Some(op.id));
      if previous.None? {
        assert forall k :: AuthorizesIn(Cache(), leases, op.instance, Some(op.id), k) ==> Authorizes(op.instance, Some(op.id), k);
        assert Prior(journal.config, Cache(), leases, op, None, None);
        r := BlockOperation(c, op, IdentityMismatch);
        return;
      }
      var previousProfile := ProfileForOperation(previous.value);
      ghost var held := if previousProfile.Ok? then Some(previousProfile.value) else None;
      assert Prior(journal.config, Cache(), leases, op, previous, held);
      var profile :- Resolve(profileId);
      if previousProfile.Err? { return Err(previousProfile.error); }
      r := RestartProcess(c, op, previous.value.process.value, profile, profile == previousProfile.value);
    }

    /** Write the restart ahead; a profile other than that of the process is rejected. */
    method RestartProcess(ghost c: nat, op: Operation, identity: ProcessIdentity, profile: Profile, same: bool)
      returns (r: Result<Response, LifecycleError>)
      requires Acting(c, op) && op.action.Restart? && Resolve(op.action.profile) == Ok(profile)
      modifies this`records, this`ownership, this`owned, this`nextSequence, this`authority
      modifies journal`records, journal`ownership, journal`log, journal`faults
      ensures Faulted() <==> StoreBroke(r)
      ensures !Faulted() ==>
                KeyOf(op) in records
                && if !same then Silent() && Barred(op, Rejected, Some(identity), IdentityMismatch, Now(op), r)
                   else RestartOutcome(journal.config, Asked(), op.(state := Restarting, process := Some(identity), failure := None),
                                       identity, profile, old(CurrentEpoch(op.instance)), Now(op), r)
      ensures Valid() && Grown(c)
      ensures r.Ok? ==> Reflects(KeyOf(op), r.value)
      ensures r.Ok? ==> Replaced(r.value) && r.value.epoch == op.requestEpoch + 1
    {
      hide CanUpdateOwner, Starts, Ports, AuthorityAgrees, Newest, Core, Verified, ConfirmedGone, RestartOutcome;
      ghost var start := journal.log;
      var next := op.Moved(Restarting, Some(identity), None);
      var _ :- Persist(c, next);
      ghost var written := journal.log;
      if !same {
        r := BlockOperation(c, next, IdentityMismatch);
      } else {
        r := RestartVerified(c, next, identity, profile);
      }
      InTurn(start, written, journal.log);
    }

    method RestartVerified(ghost c: nat, next: Operation, identity: ProcessIdentity, profile: Profile)
      returns (r: Result<Response, LifecycleError>)
      requires Acting(c, next) && next.action.Restart? && Resolve(next.action.profile) == Ok(profile)
      requires next.process == Some(identity) && records[KeyOf(next)] == next
      modifies this`records, this`ownership, this`owned, this`nextSequence, this`authority
      modifies journal`records, journal`ownership, journal`log, journal`faults
      ensures Faulted() <==> StoreBroke(r)
      ensures !Faulted() ==>
                KeyOf(next) in records
                && RestartOutcome(journal.config, Asked(), next, identity, profile, old(CurrentEpoch(next.instance)), Now(next), r)
      ensures Valid() && Grown(c)
      ensures r.Ok? ==> Reflects(KeyOf(next), r.value)
      ensures r.Ok? ==> Replaced(r.value) && r.value.epoch == next.requestEpoch + 1
    {
      hide CanUpdateOwner, VerifiedIn, Starts, Ports, AuthorityAgrees, Newest, Core, Verified, ConfirmedGone, Pinned, Governed;
      hide Vetted, BarredBy, RestartOutcome, RotatedThenRestarted;
      OwnProfile(c, next, profile);
      ghost var start := journal.log;
      var verified := VerifyProcess(c, KeyOf(next), identity, profile);
      ghost var checks, seen := Asked(), journal.log;
      if verified.Err? {
        VettingError(checks, identity, profile, verified.error);
        r := BlockCleanupError(c, next, verified.error);
        InTurn(start, seen, journal.log);
        if !Faulted() {
          UnvettedRestart(journal.config, checks, verified.error, next, identity, profile, old(CurrentEpoch(next.instance)), Now(next), r);
        }
        assert Asked() == checks;
        return;
      }
      assert verified.value == Unit;
      r := RotateAndRestart(c, next, identity, profile);
      InTurn(start, seen, journal.log);
      ghost var rest := if |seen| < |journal.log| then Ports(journal.log[|seen|..]) else [];
      assert Asked() == checks + rest;
      if !Faulted() {
        VettedRestart(journal.config, checks, rest, next, identity, profile, old(CurrentEpoch(next.instance)), Now(next), r);
      }
    }

    method RotateAndRestart(ghost c: nat, next: Operation, identity: ProcessIdentity, profile: Profile)
      returns (r: Result<Response, LifecycleError>)
      requires Acting(c, next) && next.action.Restart? && Resolve(next.action.profile) == Ok(profile)
      requires next.process == Some(identity) && records[KeyOf(next)] == next
      modifies this`records, this`ownership, this`owned, this`nextSequence, this`authority
      modifies journal`records, journal`ownership, journal`log, journal`faults
      ensures Faulted() <==> StoreBroke(r)
      ensures !Faulted() ==>
                KeyOf(next) in records
                && RotatedThenRestarted(journal.config, Asked(), next, identity, profile, old(CurrentEpoch(next.instance)), Now(next), r)
      ensures Valid() && Grown(c)
      ensures r.Ok? ==> Reflects(KeyOf(next), r.value)
      ensures r.Ok? ==> Replaced(r.value) && r.value.epoch == next.requestEpoch + 1
    {
      hide CanUpdateOwner, Starts, Ports, AuthorityAgrees, Newest, Core, Verified, ConfirmedGone, Pinned, Governed, Restarted;
      ghost var start := journal.log;
      var begun := BeginRestart(c, next, identity);
      if begun.Err? { return Err(begun.error); }
      ghost var ready := journal.log;
      OwnProfile(c, begun.value, profile);
      r := FinishRestart(c, begun.value, profile);
      InTurn(start, ready, journal.log);
    }

    /**
     Rotate the authority epoch once: in memory, then durably with the record; a failed write rotates
     memory back. Then reserve the instance.
     */
    method BeginRestart(ghost c: nat, op: Operation, identity: ProcessIdentity) returns (r: Result<Operation, LifecycleError>)
      requires Acting(c, op) && op.action.Restart?
      modifies this`records, this`ownership, this`owned, this`nextSequence, this`authority
      modifies journal`records, journal`ownership, journal`log, journal`faults
      ensures Silent() && (Faulted() <==> r.Err? && r.error.StoreFailed?)
      ensures r.Ok? ==> r.value == op.(state := Restarting, process := Some(identity), authorityEpoch := RotatedEpoch(op))
                        && op.authorityEpoch == old(CurrentEpoch(op.instance))
                        && CurrentEpoch(op.instance) == RotatedEpoch(op)
      ensures r.Err? && !Faulted() ==>
                records == old(records) && RotationRefused(op, old(CurrentEpoch(op.instance)), r.error)
      ensures r.Ok? && old(CanUpdateOwner(op)) ==>
                ownership == old(ownership)[op.instance := Ownership(op.instance, op.id, op.sequence, op.action.profile, Some(identity))]
      ensures Valid() && Extends(c)
      ensures r.Ok? ==> Acting(c, r.value) && RestartReady(r.value) && r.value.SameRequest(op)
                        && records[KeyOf(op)] == r.value && op.instance in ownership
    {
      hide CanUpdateOwner, Starts, Ports, AuthorityAgrees, Newest, Core, MayUpdate, Verified, ConfirmedGone;
      var current := CurrentEpoch(op.instance);
      var rotate := !op.Rotated();
      if op.authorityEpoch != current { return Err(StaleAuthorityEpoch); }
      if rotate && current >= MAX_U64 { return Err(AuthorityExhausted); }
      var next := op.Moved(Restarting, Some(identity), op.failure);
      if rotate {
        next := next.(authorityEpoch := current + 1);
      }
      RestartMayUpdate(c, op, next);
      SameOwner(op, next);
      ghost var before, kept, start := authority, records, journal.log;
      if rotate {
        RotationAgrees(op, next);
        authority := authority[op.instance := current + 1];
      }
      var stored := PersistUpdate(c, next);
      if stored.Err? {
        if rotate {
          authority := authority[op.instance := current];
          RevertAgrees(before, kept, op.instance, current + 1);
        }
        return Err(stored.error);
      }
      if !rotate {
        RotatedBefore(c, op);
      }
      ghost var written := journal.log;
      var reserved := ReserveOwnership(c, next, op.action.profile, next.process);
      InTurn(start, written, journal.log);
      return if reserved.Err? then Err(reserved.error) else Ok(next);
    }

    lemma RestartMayUpdate(c: nat, op: Operation, next: Operation)
      requires Acting(c, op) && op.action.Restart? && op.authorityEpoch == CurrentEpoch(op.instance)
      requires next.SameRequest(op) && next.state == Restarting
      requires next.authorityEpoch == if op.Rotated() then op.authorityEpoch else op.authorityEpoch + 1
      ensures MayUpdate(Cache(), next)
    {
    }

    lemma RotationAgrees(op: Operation, next: Operation)
      requires Valid() && KeyOf(op) in records && KeyOf(next) == KeyOf(op)
      requires next.authorityEpoch == CurrentEpoch(op.instance) + 1
      ensures AuthorityAgrees(authority[op.instance := next.authorityEpoch], records[KeyOf(op) := next])
    {
      EpochRotated(authority, records, KeyOf(op), next);
    }

    /** Writing an epoch back over itself changes nothing an instance can see. */
    static lemma RevertAgrees(before: map<InstanceId, Epoch>, records: map<Key, Operation>, i: InstanceId, e: Epoch)
      requires AuthorityAgrees(before, records)
      ensures AuthorityAgrees(before[i := e][i := EpochAt(before, i)], records)
    {
      var after := before[i := e][i := EpochAt(before, i)];
      forall j: InstanceId
        ensures EpochIs(records, j, EpochAt(after, j))
      {
        assert EpochIs(records, j, EpochAt(before, j));
      }
    }

    lemma RotatedBefore(c: nat, op: Operation)
      requires Core() && KeyOf(op) in records && op.Rotated()
      requires records[KeyOf(op)].SameRequest(op) && records[KeyOf(op)].authorityEpoch == op.authorityEpoch
      ensures op.authorityEpoch == op.requestEpoch + 1
    {
    }

    /** Stop what is recorded if it still runs, make the empty slot durable, then start the replacement. */
    method FinishRestart(ghost c: nat, op: Operation, profile: Profile) returns (r: Result<Response, LifecycleError>)
      requires Acting(c, op) && op.action.Restart? && RestartReady(op) && records[KeyOf(op)] == op
      requires HeldTo(c, op, profile)
      modifies this`records, this`ownership, this`owned, this`nextSequence, journal`records, journal`ownership, journal`log, journal`faults
      ensures Faulted() <==> StoreBroke(r)
      ensures !Faulted() ==>
                KeyOf(op) in records
                && exists governing :: HeldBy(journal.config, old(Cache()), op, governing)
                                       && Restarted(journal.config, Asked(), op, profile, governing, Now(op), r)
      ensures Valid() && Grown(c)
      ensures r.Ok? ==> Answers(op, r.value)
      ensures r.Ok? ==> Replaced(r.value)
    {
      hide Starts, Ports, Core, AuthorityAgrees, Newest, Observed, JustStarted, Verified, ConfirmedGone, Pinned, Governs, Governed;
      hide CleanedUp, StoppedReplaced, GoneReplaced, AfterFault, HeldBy;
      ghost var governing := Governing(op);
      if op.process.None? {
        assert Restarted(journal.config, Asked(), op, profile, governing, Now(op), Err(MismatchedIdentity));
        return Err(MismatchedIdentity);
      }
      if !op.process.value.Matches(op.instance, profile) {
        r := ReconcileRetainedCleanup(c, op, op.process.value);
        if !Faulted() {
          ghost var held :| HeldBy(journal.config, old(Cache()), op, held)
                            && CleanedUp(Asked(), op, op.process.value, held, Now(op), r);
          assert Restarted(journal.config, Asked(), op, profile, held, Now(op), r);
        }
        return;
      }
      r := ReplaceObserved(c, op, op.process.value, profile, governing);
      assert !Faulted() ==> Restarted(journal.config, Asked(), op, profile, governing, Now(op), r);
    }

    /** The recorded process fits the profile: observe it, then replace it. */
    method ReplaceObserved(ghost c: nat, op: Operation, identity: ProcessIdentity, profile: Profile,
                           ghost governing: Option<Profile>)
      returns (r: Result<Response, LifecycleError>)
      requires Acting(c, op) && op.action.Restart? && RestartReady(op) && records[KeyOf(op)] == op
      requires op.process == Some(identity) && identity.Matches(op.instance, profile) && HeldTo(c, op, profile)
      modifies this`records, this`ownership, this`owned, this`nextSequence, journal`records, journal`ownership, journal`log, journal`faults
      ensures Faulted() <==> StoreBroke(r)
      ensures !Faulted() ==>
                KeyOf(op) in records && Restarted(journal.config, Asked(), op, profile, governing, Now(op), r)
      ensures Valid() && Grown(c)
      ensures r.Ok? ==> Answers(op, r.value)
      ensures r.Ok? ==> Replaced(r.value)
    {
      hide Starts, Ports, Core, AuthorityAgrees, Newest, Observed, JustStarted, Verified, ConfirmedGone, Pinned, CanUpdateOwner;
      hide StoppedReplaced, GoneReplaced, AfterFault, Barred;
      ghost var start := journal.log;
      var actual := PortIdentity(c, KeyOf(op), identity.handle);
      ghost var first := journal.log;
      if actual.Err? {
        r := ProcessFault(c, op, actual.error);
        InTurn(start, first, journal.log);
        assert Asked()[1..] == Ports(journal.log[|first|..]);
        return;
      }
      if actual.value != identity {
        r := BlockCleanup(c, op, IdentityMismatch);
        InTurn(start, first, journal.log);
        return;
      }
      StillHeld(start, c, op, profile);
      r := ReplaceInspected(c, op, identity, profile);
      InTurn(start, first, journal.log);
      ghost var rest := Ports(journal.log[|first|..]);
      assert Asked() == [IdentityCall(identity.handle, actual)] + rest;
      if !Faulted() {
        TwoHeads(IdentityCall(identity.handle, actual), rest);
      }
    }

    method ReplaceInspected(ghost c: nat, op: Operation, identity: ProcessIdentity, profile: Profile)
      returns (r: Result<Response, LifecycleError>)
      requires Acting(c, op) && op.action.Restart? && RestartReady(op) && records[KeyOf(op)] == op
      requires op.process == Some(identity) && HeldTo(c, op, profile)
      modifies this`records, this`ownership, this`owned, this`nextSequence, journal`records, journal`ownership, journal`log, journal`faults
      ensures Faulted() <==> StoreBroke(r)
      ensures !Faulted() ==>
                KeyOf(op) in records && Asked() != [] && Asked()[0].InspectCall? && Asked()[0].handle == identity.handle
                && match Asked()[0].state
                   case Err(f) => AfterFault(journal.config, Asked()[1..], op, f, Now(op), r)
                   case Ok(Running) => StoppedReplaced(journal.config, Asked()[1..], op, identity, profile, Now(op), r)
                   case Ok(Exited) => GoneReplaced(journal.config, Asked()[1..], op, identity, profile, Now(op), r)
      ensures Valid() && Grown(c)
      ensures r.Ok? ==> Answers(op, r.value)
      ensures r.Ok? ==> Replaced(r.value)
    {
      hide Starts, Ports, Core, AuthorityAgrees, Newest, Observed, JustStarted, Verified, ConfirmedGone, Pinned, Ended;
      hide StoppedReplaced, GoneReplaced, AfterFault;
      ghost var start := journal.log;
      var state := PortInspect(c, KeyOf(op), identity.handle);
      ghost var first := journal.log;
      StillHeld(start, c, op, profile);
      match state {
        case Err(fault) => r := ProcessFault(c, op, fault);
        case Ok(Running) => r := StopAndReplace(c, op, identity, profile);
        case Ok(Exited) =>
          ExitEnds(journal.log, c, identity.handle);
          r := ReplaceGone(c, op, identity, profile);
      }
      InTurn(start, first, journal.log);
      assert Asked()[1..] == Ports(journal.log[|first|..]);
    }

    method StopAndReplace(ghost c: nat, op: Operation, identity: ProcessIdentity, profile: Profile)
      returns (r: Result<Response, LifecycleError>)
      requires Acting(c, op) && op.action.Restart? && RestartReady(op) && records[KeyOf(op)].process == Some(identity)
      requires HeldTo(c, op, profile)
      modifies this`records, this`ownership, this`owned, this`nextSequence, journal`records, journal`ownership, journal`log, journal`faults
      ensures Faulted() <==> StoreBroke(r)
      ensures !Faulted() ==>
                KeyOf(op) in records && StoppedReplaced(journal.config, Asked(), op, identity, profile, Now(op), r)
      ensures Valid() && Grown(c)
      ensures r.Ok? ==> Answers(op, r.value)
      ensures r.Ok? ==> Replaced(r.value)
    {
      hide Starts, Ports, Core, AuthorityAgrees, Newest, Observed, JustStarted, Verified, VerifiedIn, ConfirmedGone, Pinned, Ended;
      hide Vetted, BarredBy, StoppedReplaced, GoneReplaced, Barred;
      ghost var start := journal.log;
      var verified := VerifyProcess(c, KeyOf(op), identity, profile);
      ghost var checks, seen := Asked(), journal.log;
      if verified.Err? {
        VettingError(checks, identity, profile, verified.error);
        r := BlockCleanupError(c, op, verified.error);
        InTurn(start, seen, journal.log);
        if !Faulted() { UnvettedReplace(journal.config, checks, verified.error, op, identity, profile, Now(op), r); }
        assert Asked() == checks;
        return;
      }
      assert verified.value == Unit;
      VerifiedObserved(journal.config, journal.log, token, c, KeyOf(op), op.action, identity);
      StillHeld(start, c, op, profile);
      ghost var stop, rest;
      r, stop, rest := StopThenReplace(c, op, identity, profile);
      InTurn(start, seen, journal.log);
      if !Faulted() { VettedReplace(journal.config, checks, stop, rest, op, identity, profile, Now(op), r); }
    }

    method StopThenReplace(ghost c: nat, op: Operation, identity: ProcessIdentity, profile: Profile)
      returns (r: Result<Response, LifecycleError>, ghost stop: PortCall, ghost rest: seq<PortCall>)
      requires Acting(c, op) && op.action.Restart? && RestartReady(op) && records[KeyOf(op)].process == Some(identity)
      requires HeldTo(c, op, profile) && Observed(journal.config, journal.log, token, c, KeyOf(op), op.action, identity)
      modifies this`records, this`ownership, this`owned, this`nextSequence, journal`records, journal`ownership, journal`log, journal`faults
      ensures Faulted() <==> StoreBroke(r)
      ensures Asked() == [stop] + rest && stop.StopCall? && stop.handle == identity.handle && stop.mode == Force
      ensures !Faulted() ==>
                KeyOf(op) in records
                && match stop.stopped
                   case Err(f) => rest == [] && Barred(op, Blocked, op.process, ProcessFailure(f), Now(op), r)
                   case Ok(_) => GoneReplaced(journal.config, rest, op, identity, profile, Now(op), r)
      ensures Valid() && Grown(c)
      ensures r.Ok? ==> Answers(op, r.value)
      ensures r.Ok? ==> Replaced(r.value)
    {
      hide Starts, Ports, Core, AuthorityAgrees, Newest, Observed, JustStarted, Verified, ConfirmedGone, Pinned, Ended;
      hide GoneReplaced, Barred;
      ghost var start := journal.log;
      var stopped := PortStop(c, KeyOf(op), identity.handle, Force);
      ghost var first := journal.log;
      stop := StopCall(identity.handle, Force, stopped);
      if stopped.Err? {
        r := BlockOperation(c, op, ProcessFailure(stopped.error));
      } else {
        StopEnds(journal.log, c, identity.handle, Force);
        StillHeld(start, c, op, profile);
        r := ReplaceGone(c, op, identity, profile);
      }
      InTurn(start, first, journal.log);
      rest := if |first| < |journal.log| then Ports(journal.log[|first|..]) else [];
    }

    method ReplaceGone(ghost c: nat, op: Operation, identity: ProcessIdentity, profile: Profile)
      returns (r: Result<Response, LifecycleError>)
      requires Acting(c, op) && op.action.Restart? && RestartReady(op) && HeldTo(c, op, profile)
      requires records[KeyOf(op)].process == Some(identity) && Ended(journal.log, c, identity.handle)
      modifies this`records, this`ownership, this`owned, this`nextSequence, journal`records, journal`ownership, journal`log, journal`faults
      ensures Faulted() <==> StoreBroke(r)
      ensures !Faulted() ==>
                KeyOf(op) in records && GoneReplaced(journal.config, Asked(), op, identity, profile, Now(op), r)
      ensures Valid() && Grown(c)
      ensures r.Ok? ==> Answers(op, r.value)
      ensures r.Ok? ==> Replaced(r.value)
    {
      hide Starts, Ports, Core, AuthorityAgrees, Newest, Ended, ConfirmedGone, Verified, Pinned, Governs, Governed, JustStarted;
      hide Relaunched, AfterFault, Barred, CanUpdateOwner;
      ghost var before := journal.log;
      var tree := PortDescendants(c, KeyOf(op), identity.handle);
      ghost var seen := journal.log;
      NowGone(before, journal.log, c, identity.handle);
      if tree.Err? {
        r := ProcessFault(c, op, tree.error);
      } else if tree.value != [] {
        r := BlockCleanup(c, op, ForeignDescendant);
      } else {
        var next := op.Moved(Restarting, None, None);
        StillHeld(before, c, next, profile);
        r := StartReplacement(c, next, profile);
      }
      InTurn(before, seen, journal.log);
      assert Asked()[1..] == Ports(journal.log[|seen|..]);
    }

    method StartReplacement(ghost c: nat, next: Operation, profile: Profile) returns (r: Result<Response, LifecycleError>)
      requires Writing(c, next) && next.action.Restart? && RestartReady(next)
      requires next.state == Restarting && next.process == None && HeldTo(c, next, profile)
      requires records[KeyOf(next)].process.Some? ==>
                 ConfirmedGone(journal.log, c, records[KeyOf(next)].process.value.handle)
      modifies this`records, this`ownership, this`owned, this`nextSequence, journal`records, journal`ownership, journal`log, journal`faults
      ensures Faulted() <==> StoreBroke(r)
      ensures !Faulted() ==> KeyOf(next) in records && Relaunched(journal.config, Asked(), next, profile, Now(next), r)
      ensures r.Ok? && profile.id == next.action.profile ==>
                r.value.state == Started && r.value.process.Some? && JustStarted(journal.log, c, r.value.process.value)
      ensures Valid() && Grown(c)
      ensures r.Ok? ==> Answers(next, r.value)
      ensures r.Ok? ==> r.value.state == Started || r.value.state == Unknown
    {
      hide CanUpdateOwner, Starts, Ports, Core, AuthorityAgrees, Newest, JustStarted, Verified, ConfirmedGone, Pinned, Governs, Governed;
      hide Relaunched;
      ghost var start := journal.log;
      var _ :- Persist(c, next);
      ghost var written := journal.log;
      var reserved := ReserveOwnership(c, next, profile.id, None);
      ghost var ready := journal.log;
      InTurn(start, written, ready);
      if reserved.Err? { return Err(reserved.error); }
      StillHeld(start, c, next, profile);
      r := LaunchReplacement(c, next, profile);
      InTurn(start, ready, journal.log);
    }

    method LaunchReplacement(ghost c: nat, next: Operation, profile: Profile) returns (r: Result<Response, LifecycleError>)
      requires Acting(c, next) && next.action.Restart? && RestartReady(next) && records[KeyOf(next)] == next
      requires next.state == Restarting && next.process == None && HeldTo(c, next, profile)
      requires journal.token == Some(token) && next.instance in ownership
      modifies this`records, this`ownership, this`owned, this`nextSequence, journal`records, journal`ownership, journal`log, journal`faults
      ensures Faulted() <==> StoreBroke(r)
      ensures !Faulted() ==> KeyOf(next) in records && Relaunched(journal.config, Asked(), next, profile, Now(next), r)
      ensures Starts(journal.log) == old(Starts(journal.log)) + if profile.id == next.action.profile then 1 else 0
      ensures r.Ok? && profile.id == next.action.profile ==>
                r.value.state == Started && r.value.process.Some? && JustStarted(journal.log, c, r.value.process.value)
      ensures Valid() && Grown(c)
      ensures r.Ok? ==> Answers(next, r.value)
      ensures r.Ok? ==> r.value.state == Started || r.value.state == Unknown
    {
      hide Starts, Ports, Core, AuthorityAgrees, Newest, JustStarted, Verified, ConfirmedGone, RefusedInCall, Pinned, Governs, Governed;
      hide StartReturned, AfterFault, Launched;
      ghost var start := journal.log;
      ReplacementGeneration(next, profile);
      var generation := GenerationFor(next, profile, RestartReplacement);
      if generation.None? {
        r := GoUnknown(c, next, None, None);
        return;
      }
      DurableOwnership();
      var started := PortStart(c, KeyOf(next), generation.value, next.instance, profile.id);
      ghost var first, call := journal.log, StartCall(generation.value, next.instance, profile.id, started);
      RefusedNow(journal.log, c, next);
      match started {
        case Ok(identity) =>
          StartedNow(journal.log, c, identity);
          StillHeld(start, c, next, profile);
          r := FinishStart(c, next, identity, profile);
          StartedLater(first, journal.log, c, identity);
        case Err(Unsupported) => r := ProcessFault(c, next, ProfileRequired);
        case Err(StartFault(fault)) => r := ProcessFault(c, next, fault);
      }
      InTurn(start, first, journal.log);
      if !Faulted() {
        LaunchedBy(journal.config, call, Ports(journal.log[|first|..]), next, profile, Now(next), r);
      }
    }

    /** A rotated restart has a replacement generation exactly under its own profile. */
    lemma ReplacementGeneration(op: Operation, profile: Profile)
      requires Core() && KeyOf(op) in records && records[KeyOf(op)] == op && op.state == Restarting
      requires op.action.Restart? && RestartReady(op)
      ensures GenerationFor(op, profile, RestartReplacement)
           == if profile.id == op.action.profile then Some(OwnGeneration(op)) else None
    {
      hide Core;
      StoredFits(KeyOf(op));
    }

    // ---- recovery -----------------------------------------------------------------------------

    /** Resume a launch: never start again, only look the exact generation up. */
    method ReconcileLaunch(ghost c: nat, op: Operation) returns (r: Result<Response, LifecycleError>)
      requires Acting(c, op) && op.action.LaunchNew? && records[KeyOf(op)] == op
      modifies this`records, this`ownership, this`owned, this`nextSequence, journal`records, journal`ownership, journal`log, journal`faults
      ensures Faulted() <==> StoreBroke(r)
      ensures !Faulted() ==>
                KeyOf(op) in records
                && exists profile ::
                     HeldBy(journal.config, old(Cache()), op, profile)
                     && if profile.None? then Silent() && r.Err? && Now(op) == op
                        else LaunchResumed(Asked(), op, profile.value, Now(op), r)
      ensures Valid() && Extends(c)
      ensures r.Ok? ==> Answers(op, r.value)
      ensures r.Ok? ==> Replaced(r.value) || (r.value.state == op.state && r.value.process == op.process)
    {
      hide Starts, Ports, Core, AuthorityAgrees, Newest, Verified, ConfirmedGone, Pinned, Governs, Governed;
      hide CleanedUp, RecordVerified, LookedUpAgain;
      var found := ProfileForOperation(op);
      assert HeldBy(journal.config, old(Cache()), op, if found.Ok? then Some(found.value) else None);
      if found.Err? { return Err(found.error); }
      var profile := found.value;
      if op.process.None? {
        FoundNow(c, KeyOf(op), op, profile);
        r := LookUpAgain(c, op, profile);
      } else if !op.process.value.Matches(op.instance, profile) {
        r := ReconcileRetainedCleanup(c, op, op.process.value);
        OnlyHeldBy(journal.config, old(Cache()), op, profile);
      } else {
        r := VerifyRecord(c, op);
        OnlyHeldBy(journal.config, old(Cache()), op, profile);
      }
    }

    /** Look the generation of an operation up and keep what is found. */
    method LookUpAgain(ghost c: nat, op: Operation, profile: Profile) returns (r: Result<Response, LifecycleError>)
      requires Acting(c, op) && NamesProfile(op.action) && op.process.None? && HeldTo(c, op, profile)
      modifies this`records, this`ownership, this`owned, this`nextSequence, journal`records, journal`ownership, journal`log, journal`faults
      ensures Faulted() <==> StoreBroke(r)
      ensures !Faulted() ==> KeyOf(op) in records && LookedUpAgain(Asked(), op, profile, Now(op), r)
      ensures Valid() && Extends(c)
      ensures r.Ok? ==> Answers(op, r.value)
      ensures r.Ok? ==> r.value.state == Started || r.value.state == Unknown
    {
      hide Starts, Ports, Core, AuthorityAgrees, Newest, Verified, ConfirmedGone, Pinned, Recovered, CanUpdateOwner;
      var generation := GenerationFor(op, profile, if op.action.LaunchNew? then LaunchGeneration else RestartReplacement);
      if generation.None? {
        r := GoUnknown(c, op, None, None);
        return;
      }
      ghost var start := journal.log;
      var found := PortRecover(c, KeyOf(op), generation.value);
      ghost var first := journal.log;
      StillHeld(start, c, op, profile);
      match found {
        case Ok(Found(identity)) => r := FinishRecovered(c, op, identity, profile);
        case Ok(Indeterminate) => r := GoUnknown(c, op, None, None);
        case Err(fault) => r := GoUnknown(c, op, None, Some(ProcessFailure(fault)));
      }
      InTurn(start, first, journal.log);
      assert Asked()[1..] == Ports(journal.log[|first|..]);
    }

    method FinishRecovered(ghost c: nat, op: Operation, identity: ProcessIdentity, profile: Profile)
      returns (r: Result<Response, LifecycleError>)
      requires Acting(c, op) && (op.action.LaunchNew? || op.action.Restart?)
      requires HeldTo(c, op, profile)
      modifies this`records, this`ownership, this`owned, this`nextSequence, journal`records, journal`ownership, journal`log, journal`faults
      ensures Faulted() <==> StoreBroke(r)
      ensures !Faulted() ==> KeyOf(op) in records && Recovered(Asked(), op, identity, profile, Now(op), r)
      ensures r.Ok? && old(CanUpdateOwner(op)) ==>
                ownership == old(ownership)[op.instance := Ownership(op.instance, op.id, op.sequence, profile.id, Some(identity))]
      ensures Valid() && Extends(c)
      ensures r.Ok? ==> Answers(op, r.value)
      ensures r.Ok? ==> r.value.state == Started && r.value.process == Some(identity) && op.instance in ownership
    {
      hide CanUpdateOwner, VerifiedIn, Pinned, Starts, Ports, Core, AuthorityAgrees, Newest, Verified, ConfirmedGone, Checked;
      if !identity.Matches(op.instance, profile) {
        r := BlockCleanup(c, op.Moved(Starting, Some(identity), Some(IdentityMismatch)), IdentityMismatch);
        return;
      }
      ghost var start := journal.log;
      var verified := VerifyStartedIdentity(c, KeyOf(op), identity, profile);
      ghost var checks, seen := Asked(), journal.log;
      if verified.Err? {
        r := BlockCleanup(c, op.Moved(Starting, Some(identity), Some(verified.error)), verified.error);
      } else {
        assert verified.value == Unit;
        r := KeepStarted(c, op, identity, profile);
      }
      InTurn(start, seen, journal.log);
      assert Asked() == checks;
    }

    /**
     Clean up a retained identity that does not match its profile: stop it only if the same identity
     is observed again and its whole tree is in scope.
     */
    method ReconcileRetainedCleanup(ghost c: nat, op: Operation, identity: ProcessIdentity)
      returns (r: Result<Response, LifecycleError>)
      requires Acting(c, op) && RestartReady(op) && records[KeyOf(op)].process == Some(identity) && !op.action.Stop?
      modifies this`records, this`ownership, this`owned, this`nextSequence, journal`records, journal`ownership, journal`log, journal`faults
      ensures Faulted() <==> StoreBroke(r)
      ensures !Faulted() ==>
                KeyOf(op) in records
                && exists profile :: HeldBy(journal.config, old(Cache()), op, profile)
                                     && CleanedUp(Asked(), op, identity, profile, Now(op), r)
      ensures Valid() && Extends(c)
      ensures r.Ok? ==> Answers(op, r.value)
      ensures r.Ok? ==> (r.value.state == Failed && r.value.process == None) || (r.value.state == Unknown && r.value.process == Some(identity))
    {
      hide Starts, Ports, Core, AuthorityAgrees, Newest, Observed, Seen, JustStarted, Verified, ConfirmedGone, Governs, CleanedInScope;
      ghost var start := journal.log;
      ghost var governing := Governing(op);
      var actual := PortIdentity(c, KeyOf(op), identity.handle);
      ghost var first := journal.log;
      if actual.Err? {
        r := GoUnknown(c, op, Some(identity), Some(ProcessFailure(actual.error)));
      } else if actual.value != identity {
        r := RetainDrifted(c, op, identity);
      } else {
        SeenLast(journal.log, c, IdentityCall(identity.handle, Ok(identity)));
        r := CleanUpObserved(c, op, identity, governing);
      }
      InTurn(start, first, journal.log);
      assert Asked()[1..] == Ports(journal.log[|first|..]);
      assert !Faulted() ==> CleanedUp(Asked(), op, identity, governing, Now(op), r);
    }

    /** The profile the cached tables give an operation, if any. */
    ghost method Governing(op: Operation) returns (profile: Option<Profile>)
      ensures HeldBy(journal.config, Cache(), op, profile)
    {
      if p :| Governs(journal.config, Cache(), op, p) {
        profile := Some(p);
      } else {
        profile := None;
      }
    }

    method CleanUpObserved(ghost c: nat, op: Operation, identity: ProcessIdentity, ghost governing: Option<Profile>)
      returns (r: Result<Response, LifecycleError>)
      requires Acting(c, op) && RestartReady(op) && records[KeyOf(op)].process == Some(identity) && !op.action.Stop?
      requires Seen(journal.log, c, IdentityCall(identity.handle, Ok(identity)))
      requires HeldBy(journal.config, Cache(), op, governing)
      modifies this`records, this`ownership, this`owned, this`nextSequence, journal`records, journal`ownership, journal`log, journal`faults
      ensures Faulted() <==> StoreBroke(r)
      ensures governing.None? ==> r.Err? && !Faulted() && Silent()
      ensures !Faulted() ==>
                KeyOf(op) in records
                && (governing.Some? ==> CleanedInScope(Asked(), op, identity, governing.value, Now(op), r))
      ensures Valid() && Extends(c)
      ensures r.Ok? ==> Answers(op, r.value)
      ensures r.Ok? ==> (r.value.state == Failed && r.value.process == None) || (r.value.state == Unknown && r.value.process == Some(identity))
    {
      hide HeldBy, Starts, Ports, Core, AuthorityAgrees, Newest, InRetainedProfile, Governs;
      hide Governed, Seen, JustStarted, Verified, ConfirmedGone, CleanedEnded, Barred, CanUpdateOwner;
      ghost var first := journal.log;
      var found := ProfileForOperation(op);
      HeldByOnce(journal.config, Cache(), op, governing, if found.Ok? then Some(found.value) else None);
      if found.Err? { return Err(found.error); }
      var profile := found.value;
      SameProfile(op, records[KeyOf(op)], profile);
      FoundNow(c, KeyOf(op), op, profile);
      var tree := PortDescendants(c, KeyOf(op), identity.handle);
      ghost var seen := journal.log;
      if tree.Err? {
        r := BlockCleanup(c, op, ProcessFailure(tree.error));
      } else if !InScope(tree.value, op.instance, profile) {
        r := BlockCleanup(c, op, ForeignDescendant);
      } else {
        SeenLater(first, journal.log, c, IdentityCall(identity.handle, Ok(identity)));
        SeenLast(journal.log, c, DescendantsCall(identity.handle, Ok(tree.value)));
        GovernedLater(journal.config, first, journal.log, token, c, KeyOf(op), profile);
        ObservedByTree(journal.config, journal.log, token, c, KeyOf(op), identity, tree.value, profile);
        r := CleanUpInScope(c, op, identity);
      }
      InTurn(first, seen, journal.log);
      assert Asked()[1..] == Ports(journal.log[|seen|..]);
    }

    method CleanUpInScope(ghost c: nat, op: Operation, identity: ProcessIdentity)
      returns (r: Result<Response, LifecycleError>)
      requires Acting(c, op) && RestartReady(op) && records[KeyOf(op)].process == Some(identity) && !op.action.Stop?
      requires Seen(journal.log, c, IdentityCall(identity.handle, Ok(identity)))
      requires InRetainedProfile(journal.config, journal.log, token, c, KeyOf(op), identity)
      modifies this`records, this`ownership, this`owned, this`nextSequence, journal`records, journal`ownership, journal`log, journal`faults
      ensures Faulted() <==> StoreBroke(r)
      ensures !Faulted() ==> KeyOf(op) in records && CleanedEnded(Asked(), op, identity, Now(op), r)
      ensures Valid() && Extends(c)
      ensures r.Ok? ==> Answers(op, r.value)
      ensures r.Ok? ==> (r.value.state == Failed && r.value.process == None) || (r.value.state == Unknown && r.value.process == Some(identity))
    {
      hide Starts, Ports, Core, AuthorityAgrees, Newest, InProfile, InRetainedProfile, Seen, JustStarted, Verified, ConfirmedGone, Ended;
      hide CleanupConfirmed;
      ghost var before := journal.log;
      var state := PortInspect(c, KeyOf(op), identity.handle);
      ghost var first := journal.log;
      if state.Err? {
        r := GoUnknown(c, op, Some(identity), Some(ProcessFailure(state.error)));
        InTurn(before, first, journal.log);
        return;
      }
      if state.value.Exited? {
        ExitEnds(journal.log, c, identity.handle);
        r := ConfirmCleaned(c, op, identity);
        InTurn(before, first, journal.log);
        assert Asked()[1..] == Ports(journal.log[|first|..]);
        return;
      }
      SeenLater(before, journal.log, c, IdentityCall(identity.handle, Ok(identity)));
      RetainedLater(journal.config, before, journal.log, token, c, KeyOf(op), identity);
      r := StopAndConfirm(c, op, identity);
      InTurn(before, first, journal.log);
      ghost var rest := Ports(journal.log[|first|..]);
      assert Asked() == [InspectCall(identity.handle, state)] + rest;
      if !Faulted() {
        TwoHeads(InspectCall(identity.handle, state), rest);
      }
    }

    /** Stop a retained process that still runs, then confirm that it is gone. */
    method StopAndConfirm(ghost c: nat, op: Operation, identity: ProcessIdentity) returns (r: Result<Response, LifecycleError>)
      requires Acting(c, op) && RestartReady(op) && records[KeyOf(op)].process == Some(identity) && !op.action.Stop?
      requires Seen(journal.log, c, IdentityCall(identity.handle, Ok(identity)))
      requires InRetainedProfile(journal.config, journal.log, token, c, KeyOf(op), identity)
      modifies this`records, this`ownership, this`owned, this`nextSequence, journal`records, journal`ownership, journal`log, journal`faults
      ensures Faulted() <==> StoreBroke(r)
      ensures !Faulted() ==>
                KeyOf(op) in records && Asked() != [] && Asked()[0].StopCall? && Asked()[0].handle == identity.handle
                && Asked()[0].mode == Force
                && match Asked()[0].stopped
                   case Err(f) => |Asked()| == 1 && Barred(op, Blocked, op.process, ProcessFailure(f), Now(op), r)
                   case Ok(_) => CleanupConfirmed(Asked()[1..], op, identity, Now(op), r)
      ensures Valid() && Extends(c)
      ensures r.Ok? ==> Answers(op, r.value)
      ensures r.Ok? ==> r.value.state == Failed && r.value.process == None
    {
      hide Starts, Ports, Core, AuthorityAgrees, Newest, InProfile, InRetainedProfile, Seen, JustStarted, Verified, ConfirmedGone, Ended;
      hide CleanupConfirmed, Barred;
      ghost var before := journal.log;
      var stopped := PortStop(c, KeyOf(op), identity.handle, Force);
      ghost var first := journal.log;
      if stopped.Err? {
        r := BlockCleanup(c, op, ProcessFailure(stopped.error));
      } else {
        StopEnds(journal.log, c, identity.handle, Force);
        r := ConfirmCleaned(c, op, identity);
      }
      InTurn(before, first, journal.log);
      assert Asked()[1..] == Ports(journal.log[|first|..]);
    }

    method RetainDrifted(ghost c: nat, op: Operation, identity: ProcessIdentity) returns (r: Result<Response, LifecycleError>)
      requires Acting(c, op)
      modifies this`records, this`ownership, this`owned, this`nextSequence, journal`records, journal`ownership, journal`log, journal`faults
      ensures Silent() && (Faulted() <==> StoreBroke(r))
      ensures !Faulted() ==> KeyOf(op) in records && Barred(op, Blocked, Some(identity), IdentityMismatch, Now(op), r)
      ensures Valid() && Extends(c) && r.Err?
    {
      hide Starts, Ports, Core, AuthorityAgrees, Newest, Verified, ConfirmedGone;
      ghost var start := journal.log;
      var drifted := op.Moved(Blocked, Some(identity), Some(IdentityMismatch));
      var stored := Persist(c, drifted);
      if stored.Err? { return Err(stored.error); }
      ghost var written := journal.log;
      var kept := SetOwnerProcessFor(c, drifted, drifted.process);
      InTurn(start, written, journal.log);
      if kept.Err? { return Err(kept.error); }
      return Err(MismatchedIdentity);
    }

    method ConfirmCleaned(ghost c: nat, op: Operation, identity: ProcessIdentity) returns (r: Result<Response, LifecycleError>)
      requires Acting(c, op) && records[KeyOf(op)].process == Some(identity) && Ended(journal.log, c, identity.handle)
      modifies this`records, this`ownership, this`owned, this`nextSequence, journal`records, journal`ownership, journal`log, journal`faults
      ensures Faulted() <==> StoreBroke(r)
      ensures !Faulted() ==> KeyOf(op) in records && CleanupConfirmed(Asked(), op, identity, Now(op), r)
      ensures Valid() && Extends(c)
      ensures r.Ok? ==> Answers(op, r.value)
      ensures r.Ok? ==> r.value.state == Failed && r.value.process == None
    {
      hide Starts, Ports, Core, AuthorityAgrees, Newest, Ended, ConfirmedGone, Verified, CanUpdateOwner;
      ghost var before := journal.log;
      var left := PortDescendants(c, KeyOf(op), identity.handle);
      ghost var seen := journal.log;
      NowGone(before, journal.log, c, identity.handle);
      if left.Err? {
        r := BlockCleanup(c, op, ProcessFailure(left.error));
      } else if left.value != [] {
        r := BlockCleanup(c, op, ForeignDescendant);
      } else {
        r := FinishGone(c, op.Moved(Failed, None, Some(IdentityMismatch)), StateFailed);
      }
      InTurn(before, seen, journal.log);
    }

    /** Resume a restart: without a process, look the replacement up; with one, finish the replacement. */
    method ReconcileRestart(ghost c: nat, op: Operation) returns (r: Result<Response, LifecycleError>)
      requires Acting(c, op) && op.action.Restart? && records[KeyOf(op)] == op
      modifies this`records, this`ownership, this`owned, this`nextSequence, this`authority
      modifies journal`records, journal`ownership, journal`log, journal`faults
      ensures Faulted() <==> StoreBroke(r)
      ensures !Faulted() ==>
                KeyOf(op) in records
                && exists profile ::
                     HeldBy(journal.config, old(Cache()), op, profile)
                     && RestartResumed(journal.config, Asked(), op, profile, old(CurrentEpoch(op.instance)), Now(op), r)
      ensures Valid() && Grown(c)
      ensures r.Ok? ==> Reflects(KeyOf(op), r.value)
      ensures r.Ok? ==> Replaced(r.value) && (op.Rotated() ==> r.value.epoch == op.authorityEpoch)
    {
      hide Starts, Ports, Core, AuthorityAgrees, Newest, Verified, ConfirmedGone, Pinned, Governs, Governed;
      hide Restarted, LookedUpAgain, HeldBy, CanUpdateOwner;
      ghost var governing := Governing(op);
      if op.process.None? {
        r := RecoverReplacement(c, op);
        if !Faulted() { ResumedWithout(op, governing, old(CurrentEpoch(op.instance)), old(Cache()), Asked(), Now(op), r); }
        return;
      }
      var profile := ProfileForOperation(op);
      assert HeldBy(journal.config, old(Cache()), op, if profile.Ok? then Some(profile.value) else None);
      if profile.Err? { return Err(profile.error); }
      FoundNow(c, KeyOf(op), op, profile.value);
      r := FinishPrepared(c, op, profile.value);
    }

    /** Looking a replacement up is resuming the restart. */
    lemma ResumedWithout(op: Operation, governing: Option<Profile>, current: Epoch, t: Tables, calls: seq<PortCall>,
                         after: Operation, r: Result<Response, LifecycleError>)
      requires op.process.None? && HeldBy(journal.config, t, op, governing)
      requires if op.authorityEpoch == op.requestEpoch || op.authorityEpoch != current
               then calls == [] && Told(op, Unknown, None, None, StateUnknown, after, r)
               else exists profile ::
                      HeldBy(journal.config, t, op, profile)
                      && if profile.None? then calls == [] && r.Err? && after == op
                         else LookedUpAgain(calls, op, profile.value, after, r)
      ensures RestartResumed(journal.config, calls, op, governing, current, after, r)
    {
      hide HeldBy, LookedUpAgain;
      if op.authorityEpoch != op.requestEpoch && op.authorityEpoch == current {
        var profile :| HeldBy(journal.config, t, op, profile)
                       && if profile.None? then calls == [] && r.Err? && after == op
                          else LookedUpAgain(calls, op, profile.value, after, r);
        HeldByOnce(journal.config, t, op, governing, profile);
      }
    }

    method FinishPrepared(ghost c: nat, op: Operation, profile: Profile) returns (r: Result<Response, LifecycleError>)
      requires Acting(c, op) && op.action.Restart? && records[KeyOf(op)] == op && op.process.Some? && HeldTo(c, op, profile)
      modifies this`records, this`ownership, this`owned, this`nextSequence, this`authority
      modifies journal`records, journal`ownership, journal`log, journal`faults
      ensures Faulted() <==> StoreBroke(r)
      ensures !Faulted() ==>
                KeyOf(op) in records
                && RestartResumed(journal.config, Asked(), op, Some(profile), old(CurrentEpoch(op.instance)), Now(op), r)
      ensures Valid() && Grown(c)
      ensures r.Ok? ==> Reflects(KeyOf(op), r.value)
      ensures r.Ok? ==> Replaced(r.value) && (op.Rotated() ==> r.value.epoch == op.authorityEpoch)
    {
      hide Starts, Ports, Core, AuthorityAgrees, Newest, Verified, ConfirmedGone, Pinned, Restarted, LookedUpAgain, HeldBy;
      ghost var start := journal.log;
      var ready := PrepareRestartRecovery(c, op, profile);
      if ready.Err? { return Err(ready.error); }
      ghost var prepared := journal.log;
      StillHeld(start, c, ready.value, profile);
      r := FinishRestart(c, ready.value, profile);
      InTurn(start, prepared, journal.log);
    }

    method RecoverReplacement(ghost c: nat, op: Operation) returns (r: Result<Response, LifecycleError>)
      requires Acting(c, op) && op.action.Restart? && op.process.None? && records[KeyOf(op)] == op
      modifies this`records, this`ownership, this`owned, this`nextSequence, journal`records, journal`ownership, journal`log, journal`faults
      ensures Faulted() <==> StoreBroke(r)
      ensures !Faulted() ==>
                KeyOf(op) in records
                && if op.authorityEpoch == op.requestEpoch || op.authorityEpoch != CurrentEpoch(op.instance)
                   then Silent() && Told(op, Unknown, None, None, StateUnknown, Now(op), r)
                   else exists profile ::
                          HeldBy(journal.config, old(Cache()), op, profile)
                          && if profile.None? then Silent() && r.Err? && Now(op) == op
                             else LookedUpAgain(Asked(), op, profile.value, Now(op), r)
      ensures Valid() && Extends(c)
      ensures r.Ok? ==> Answers(op, r.value)
      ensures r.Ok? ==> r.value.state == Started || r.value.state == Unknown
    {
      hide HeldBy, Starts, Ports, Core, AuthorityAgrees, Newest, Verified, ConfirmedGone, Pinned, Governs, Governed, LookedUpAgain;
      StoredFits(KeyOf(op));
      if !PermitsRestartRecovery(op, CurrentEpoch(op.instance)) {
        r := GoUnknown(c, op, None, None);
        return;
      }
      var profile := ProfileForOperation(op);
      assert HeldBy(journal.config, old(Cache()), op, if profile.Ok? then Some(profile.value) else None);
      if profile.Err? { return Err(profile.error); }
      FoundNow(c, KeyOf(op), op, profile.value);
      r := LookUpAgain(c, op, profile.value);
    }

    /** Rotate if that never became durable; otherwise check the epoch and retry the reservation. */
    method PrepareRestartRecovery(ghost c: nat, op: Operation, profile: Profile) returns (r: Result<Operation, LifecycleError>)
      requires Acting(c, op) && op.action.Restart? && records[KeyOf(op)] == op
      modifies this`records, this`ownership, this`owned, this`nextSequence, this`authority
      modifies journal`records, journal`ownership, journal`log, journal`faults
      ensures Silent() && (Faulted() <==> r.Err? && r.error.StoreFailed?)
      ensures r.Ok? ==> op.process.Some? && op.authorityEpoch == old(CurrentEpoch(op.instance))
                        && r.value == op.(state := if op.authorityEpoch == op.requestEpoch then Restarting else op.state,
                                          authorityEpoch := RotatedEpoch(op))
      ensures r.Err? && !Faulted() ==>
                records == old(records)
                && if op.process.None? then r.error == MismatchedIdentity
                   else RotationRefused(op, old(CurrentEpoch(op.instance)), r.error)
      ensures Valid() && Extends(c)
      ensures r.Ok? && op.Rotated() ==> r.value.authorityEpoch == op.authorityEpoch
      ensures r.Ok? ==> Acting(c, r.value) && RestartReady(r.value) && r.value.SameRequest(op)
                        && records[KeyOf(r.value)] == r.value
    {
      hide Starts, Ports, Core, AuthorityAgrees, Newest, Verified, ConfirmedGone, CanUpdateOwner;
      if op.process.None? { return Err(MismatchedIdentity); }
      if !op.Rotated() {
        r := BeginRestart(c, op, op.process.value);
        return;
      }
      if op.authorityEpoch != CurrentEpoch(op.instance) { return Err(StaleAuthorityEpoch); }
      RotatedBefore(c, op);
      var _ :- ReserveOwnership(c, op, profile.id, op.process);
      return Ok(op);
    }

    method ReconcileRestartIntent(ghost c: nat, op: Operation, profileId: ProfileId) returns (r: Result<Response, LifecycleError>)
      requires Acting(c, op) && op.action == Restart(profileId)
      modifies this`records, this`ownership, this`owned, this`nextSequence, this`authority
      modifies journal`records, journal`ownership, journal`log, journal`faults
      ensures Faulted() <==> StoreBroke(r)
      ensures !Faulted() ==>
                KeyOf(op) in records
                && exists previous, profile ::
                     Prior(journal.config, old(Cache()), leases, op, previous, profile)
                     && RestartIntentResumed(journal.config, Asked(), op, profileId, previous, profile,
                                             old(CanUpdateOwner(op)), old(CurrentEpoch(op.instance)), old(Now(op)), Now(op), r)
      ensures Valid() && Grown(c)
      ensures r.Ok? ==> Reflects(KeyOf(op), r.value)
      ensures r.Ok? ==> Replaced(r.value) && r.value.epoch == op.requestEpoch + 1
    {
      hide CanUpdateOwner, AuthorizesIn, Starts, Ports, Core, AuthorityAgrees, Newest, Verified, ConfirmedGone, Governs;
      hide RotatedThenResumed, Barred;
      var previous := LatestAuthorized(op.instance, Some(op.id));
      if previous.None? {
        assert forall k :: AuthorizesIn(Cache(), leases, op.instance, Some(op.id), k) ==> Authorizes(op.instance, Some(op.id), k);
        assert Prior(journal.config, Cache(), leases, op, None, None);
        r := BlockOperation(c, op, IdentityMismatch);
        return;
      }
      var identity := previous.value.process.value;
      var previousProfile := ProfileForOperation(previous.value);
      ghost var held := if previousProfile.Ok? then Some(previousProfile.value) else None;
      assert Prior(journal.config, Cache(), leases, op, previous, held);
      var profile :- Resolve(profileId);
      if previousProfile.Err? { return Err(previousProfile.error); }
      if previousProfile.value != profile || !identity.Matches(op.instance, profile) {
        r := BlockOperation(c, op, IdentityMismatch);
        return;
      }
      r := ResumeRestartIntent(c, op, identity);
    }

    method ResumeRestartIntent(ghost c: nat, op: Operation, identity: ProcessIdentity) returns (r: Result<Response, LifecycleError>)
      requires Acting(c, op) && op.action.Restart?
      modifies this`records, this`ownership, this`owned, this`nextSequence, this`authority
      modifies journal`records, journal`ownership, journal`log, journal`faults
      ensures Faulted() <==> StoreBroke(r)
      ensures !Faulted() ==>
                KeyOf(op) in records
                && RotatedThenResumed(journal.config, Asked(), op, identity, old(CanUpdateOwner(op)), old(CurrentEpoch(op.instance)),
                                      old(Now(op)), Now(op), r)
      ensures Valid() && Grown(c)
      ensures r.Ok? ==> Reflects(KeyOf(op), r.value)
      ensures r.Ok? ==> Replaced(r.value) && r.value.epoch == op.requestEpoch + 1
    {
      hide CanUpdateOwner, Starts, Ports, Core, AuthorityAgrees, Newest, Verified, ConfirmedGone, RestartResumed;
      ghost var start := journal.log;
      var begun := BeginRestart(c, op, identity);
      if begun.Err? { return Err(begun.error); }
      ghost var ready := journal.log;
      if op.action.profile in journal.config.profiles && old(CanUpdateOwner(op)) {
        assert Governs(journal.config, Cache(), begun.value, journal.config.profiles[op.action.profile]);
        OnlyHeldBy(journal.config, Cache(), begun.value, journal.config.profiles[op.action.profile]);
      }
      r := ReconcileRestart(c, begun.value);
      InTurn(start, ready, journal.log);
    }

    method ReconcileStopIntent(ghost c: nat, op: Operation) returns (r: Result<Response, LifecycleError>)
      requires Acting(c, op) && op.action.Stop?
      modifies this`records, this`ownership, this`owned, this`nextSequence, journal`records, journal`ownership, journal`log, journal`faults
      ensures Faulted() <==> StoreBroke(r)
      ensures !Faulted() ==>
                KeyOf(op) in records
                && exists previous, profile ::
                     Prior(journal.config, old(Cache()), leases, op, previous, profile)
                     && StopIntentResumed(journal.config, old(Cache()), Asked(), op, previous, profile, Now(op), r)
      ensures Valid() && Extends(c)
      ensures r.Ok? ==> Answers(op, r.value)
      ensures r.Ok? ==> r.value.state == Stopped || r.value.state == Unknown || r.value.state == Blocked
    {
      hide CanUpdateOwner, AuthorizesIn, Starts, Ports, Core, AuthorityAgrees, Newest, Verified, ConfirmedGone, Governs;
      hide StoppingResumed, Barred;
      var previous := LatestAuthorized(op.instance, Some(op.id));
      if previous.None? {
        assert forall k :: AuthorizesIn(Cache(), leases, op.instance, Some(op.id), k) ==> Authorizes(op.instance, Some(op.id), k);
        assert Prior(journal.config, Cache(), leases, op, None, None);
        r := BlockOperation(c, op, InstanceBusy);
        return;
      }
      var profile := ProfileForOperation(previous.value);
      ghost var held := if profile.Ok? then Some(profile.value) else None;
      assert Prior(journal.config, Cache(), leases, op, previous, held);
      if profile.Err? { return Err(profile.error); }
      r := ResumeStopIntent(c, op, previous.value.process.value);
    }

    method ResumeStopIntent(ghost c: nat, op: Operation, identity: ProcessIdentity) returns (r: Result<Response, LifecycleError>)
      requires Acting(c, op) && op.action.Stop?
      modifies this`records, this`ownership, this`owned, this`nextSequence, journal`records, journal`ownership, journal`log, journal`faults
      ensures Faulted() <==> StoreBroke(r)
      ensures !Faulted() ==>
                KeyOf(op) in records
                && var next := op.(state := Stopping, process := Some(identity));
                   StoppingResumed(journal.config, old(Cache()).(records := old(records)[KeyOf(op) := next]), Asked(), next, Now(op), r)
      ensures Valid() && Extends(c)
      ensures r.Ok? ==> Answers(op, r.value)
      ensures r.Ok? ==> r.value.state == Stopped || r.value.state == Unknown || r.value.state == Blocked
    {
      hide CanUpdateOwner, Starts, Ports, Core, AuthorityAgrees, Newest, Verified, ConfirmedGone, StoppingResumed;
      ghost var start := journal.log;
      var next := op.Moved(Stopping, Some(identity), op.failure);
      var _ :- Persist(c, next);
      ghost var written := journal.log;
      r := ReconcileStopping(c, next);
      InTurn(start, written, journal.log);
    }

    /** Resume a stop: confirm the exit, or verify and stop what still runs. */
    method ReconcileStopping(ghost c: nat, op: Operation) returns (r: Result<Response, LifecycleError>)
      requires Acting(c, op) && op.action.Stop? && records[KeyOf(op)] == op
      modifies this`records, this`ownership, this`owned, this`nextSequence, journal`records, journal`ownership, journal`log, journal`faults
      ensures Faulted() <==> StoreBroke(r)
      ensures !Faulted() ==>
                KeyOf(op) in records
                && StoppingResumed(journal.config, old(Cache()), Asked(), op, Now(op), r)
      ensures Valid() && Extends(c)
      ensures r.Ok? ==> Answers(op, r.value)
      ensures r.Ok? ==> r.value.state == Stopped || r.value.state == Unknown || r.value.state == Blocked
    {
      hide Starts, Ports, Core, AuthorityAgrees, Newest, Observed, Verified, ConfirmedGone, Pinned, Governs, Governed;
      hide StopResumed;
      if op.process.None? {
        r := GoUnknown(c, op, None, None);
        return;
      }
      var profile := ProfileForOperation(op);
      assert HeldBy(journal.config, old(Cache()), op, if profile.Ok? then Some(profile.value) else None);
      if profile.Err? { return Err(profile.error); }
      FoundNow(c, KeyOf(op), op, profile.value);
      r := ResumeStop(c, op, op.process.value, profile.value);
    }

    method ResumeStop(ghost c: nat, op: Operation, identity: ProcessIdentity, profile: Profile)
      returns (r: Result<Response, LifecycleError>)
      requires Acting(c, op) && op.action.Stop? && records[KeyOf(op)] == op && op.process == Some(identity)
      requires HeldTo(c, op, profile)
      modifies this`records, this`ownership, this`owned, this`nextSequence, journal`records, journal`ownership, journal`log, journal`faults
      ensures Faulted() <==> StoreBroke(r)
      ensures !Faulted() ==> KeyOf(op) in records && StopResumed(Asked(), op, identity, profile, op.action.mode, Now(op), r)
      ensures Valid() && Extends(c)
      ensures r.Ok? ==> Answers(op, r.value)
      ensures r.Ok? ==> r.value.state == Stopped || r.value.state == Unknown || r.value.state == Blocked
    {
      hide Starts, Ports, Core, AuthorityAgrees, Newest, Observed, Verified, ConfirmedGone, Pinned, VettedThenHalted, ExitConfirmed, Ended;
      ghost var start := journal.log;
      var actual := PortIdentity(c, KeyOf(op), identity.handle);
      ghost var first := journal.log;
      if actual.Err? {
        r := GoUnknown(c, op, Some(identity), Some(ProcessFailure(actual.error)));
        InTurn(start, first, journal.log);
        return;
      }
      if actual.value != identity || !identity.Matches(identity.instance, profile) {
        var blocked := op.Moved(Blocked, Some(identity), Some(IdentityMismatch));
        var _ :- Persist(c, blocked);
        InTurn(start, first, journal.log);
        return Ok(Respond(blocked, StateUnknown));
      }
      StillHeld(start, c, op, profile);
      r := StopObserved(c, op, identity, profile);
      InTurn(start, first, journal.log);
      ghost var rest := Ports(journal.log[|first|..]);
      assert Asked() == [IdentityCall(identity.handle, actual)] + rest;
      if !Faulted() {
        TwoHeads(IdentityCall(identity.handle, actual), rest);
      }
    }

    /** The recorded process was seen again: finish by whether it still runs. */
    method StopObserved(ghost c: nat, op: Operation, identity: ProcessIdentity, profile: Profile)
      returns (r: Result<Response, LifecycleError>)
      requires Acting(c, op) && op.action.Stop? && records[KeyOf(op)] == op && op.process == Some(identity)
      requires HeldTo(c, op, profile)
      modifies this`records, this`ownership, this`owned, this`nextSequence, journal`records, journal`ownership, journal`log, journal`faults
      ensures Faulted() <==> StoreBroke(r)
      ensures !Faulted() ==>
                KeyOf(op) in records && Asked() != [] && Asked()[0].InspectCall? && Asked()[0].handle == identity.handle
                && match Asked()[0].state
                   case Err(f) => |Asked()| == 1 && Told(op, Unknown, Some(identity), Some(ProcessFailure(f)), StateUnknown, Now(op), r)
                   case Ok(Exited) => ExitConfirmed(Asked()[1..], op, identity, Now(op), r)
                   case Ok(Running) => VettedThenHalted(Asked()[1..], op, identity, profile, op.action.mode, Now(op), r)
      ensures Valid() && Extends(c)
      ensures r.Ok? ==> Answers(op, r.value)
      ensures r.Ok? ==> r.value.state == Stopped || r.value.state == Unknown || r.value.state == Blocked
    {
      hide Starts, Ports, Core, AuthorityAgrees, Newest, Observed, Verified, ConfirmedGone, Pinned, VettedThenHalted, ExitConfirmed, Ended;
      ghost var start := journal.log;
      var state := PortInspect(c, KeyOf(op), identity.handle);
      ghost var first := journal.log;
      match state {
        case Err(fault) => r := GoUnknown(c, op, Some(identity), Some(ProcessFailure(fault)));
        case Ok(Exited) =>
          ExitEnds(journal.log, c, identity.handle);
          r := ConfirmStopped(c, op, identity);
        case Ok(Running) =>
          StillHeld(start, c, op, profile);
          r := StopRunning(c, op, identity, profile);
      }
      InTurn(start, first, journal.log);
      assert Asked()[1..] == Ports(journal.log[|first|..]);
    }

    method StopRunning(ghost c: nat, op: Operation, identity: ProcessIdentity, profile: Profile)
      returns (r: Result<Response, LifecycleError>)
      requires Acting(c, op) && op.action.Stop? && records[KeyOf(op)].process == Some(identity) && HeldTo(c, op, profile)
      modifies this`records, this`ownership, this`owned, this`nextSequence, journal`records, journal`ownership, journal`log, journal`faults
      ensures Faulted() <==> StoreBroke(r)
      ensures !Faulted() ==>
                KeyOf(op) in records && VettedThenHalted(Asked(), op, identity, profile, op.action.mode, Now(op), r)
      ensures Valid() && Extends(c)
      ensures r.Ok? ==> Answers(op, r.value)
      ensures r.Ok? ==> r.value.state == Stopped && r.value.process == None
    {
      hide Starts, Ports, Core, AuthorityAgrees, Newest, InProfile, Observed, Verified, VerifiedIn, ConfirmedGone, Pinned;
      hide Vetted, Halted, BarredBy, VettedThenHalted, CanUpdateOwner;
      ghost var start := journal.log;
      var verified := VerifyProcess(c, KeyOf(op), identity, profile);
      ghost var checks, seen := Asked(), journal.log;
      if verified.Err? {
        VettingError(checks, identity, profile, verified.error);
        r := BlockCleanupError(c, op, verified.error);
        InTurn(start, seen, journal.log);
        if !Faulted() { UnvettedHalt(checks, verified.error, op, identity, profile, op.action.mode, Now(op), r); }
        assert Asked() == checks;
        return;
      }
      assert verified.value == Unit;
      VerifiedObserved(journal.config, journal.log, token, c, KeyOf(op), op.action, identity);
      r := FinishStop(c, op, identity, op.action.mode);
      InTurn(start, seen, journal.log);
      if !Faulted() {
        VettedHalt(checks, Ports(journal.log[|seen|..]), op, identity, profile, op.action.mode, Now(op), r);
      }
    }

    method ConfirmStopped(ghost c: nat, op: Operation, identity: ProcessIdentity) returns (r: Result<Response, LifecycleError>)
      requires Acting(c, op) && op.action.Stop?
      requires records[KeyOf(op)].process == Some(identity) && Ended(journal.log, c, identity.handle)
      modifies this`records, this`ownership, this`owned, this`nextSequence, journal`records, journal`ownership, journal`log, journal`faults
      ensures Faulted() <==> StoreBroke(r)
      ensures !Faulted() ==> KeyOf(op) in records && ExitConfirmed(Asked(), op, identity, Now(op), r)
      ensures Valid() && Extends(c)
      ensures r.Ok? ==> Answers(op, r.value)
      ensures r.Ok? ==> r.value.state == Stopped || r.value.state == Unknown || r.value.state == Blocked
    {
      hide Starts, Ports, Core, AuthorityAgrees, Newest, Ended, ConfirmedGone, Verified, CanUpdateOwner;
      ghost var before := journal.log;
      var tree := PortDescendants(c, KeyOf(op), identity.handle);
      ghost var seen := journal.log;
      NowGone(before, journal.log, c, identity.handle);
      if tree.Err? {
        r := GoUnknown(c, op, Some(identity), Some(ProcessFailure(tree.error)));
      } else if tree.value != [] {
        var blocked := op.Moved(Blocked, Some(identity), Some(ForeignDescendant));
        var stored := Persist(c, blocked);
        r := if stored.Err? then Err(stored.error) else Ok(Respond(blocked, StateFailed));
      } else {
        r := FinishGone(c, op.Moved(Stopped, None, None), StateStopped);
      }
      InTurn(before, seen, journal.log);
    }

    /** Verify a record that names a process; only a confirmed exit releases it. */
    method VerifyRecord(ghost c: nat, op: Operation) returns (r: Result<Response, LifecycleError>)
      requires Acting(c, op) && records[KeyOf(op)] == op
      requires op.state.Unknown? ==> op.action.LaunchNew?
      modifies this`records, this`ownership, this`owned, this`nextSequence, journal`records, journal`ownership, journal`log, journal`faults
      ensures Faulted() <==> StoreBroke(r)
      ensures !Faulted() ==>
                KeyOf(op) in records
                && exists profile ::
                     HeldBy(journal.config, old(Cache()), op, profile)
                     && VerifiedOutcome(Asked(), op, profile, Now(op), r)
      ensures Valid() && Extends(c)
      ensures r.Ok? ==> Answers(op, r.value)
      ensures r.Ok? ==> r.value.state == (if op.state.Unknown? then Started else op.state) && r.value.process == op.process
                        && op.process.Some? && op.instance in ownership
                        && (exists p :: VerifiedIn(journal.log, c, op.process.value, p))
    {
      hide Starts, Ports, Core, AuthorityAgrees, Newest, Verified, ConfirmedGone, Pinned, Governs, Governed, VerifiedIn;
      hide RecordVerified;
      ghost var governing := Governing(op);
      if op.process.None? {
        assert VerifiedOutcome(Asked(), op, governing, Now(op), Err(MismatchedIdentity));
        return Err(MismatchedIdentity);
      }
      var profile := ProfileForOperation(op);
      assert HeldBy(journal.config, old(Cache()), op, if profile.Ok? then Some(profile.value) else None);
      if profile.Err? { return Err(profile.error); }
      FoundNow(c, KeyOf(op), op, profile.value);
      r := VerifyUnder(c, op, op.process.value, profile.value);
    }

    method VerifyUnder(ghost c: nat, op: Operation, identity: ProcessIdentity, profile: Profile)
      returns (r: Result<Response, LifecycleError>)
      requires Acting(c, op) && records[KeyOf(op)] == op && op.process == Some(identity)
      requires op.state.Unknown? ==> op.action.LaunchNew?
      requires HeldTo(c, op, profile)
      modifies this`records, this`ownership, this`owned, this`nextSequence, journal`records, journal`ownership, journal`log, journal`faults
      ensures Faulted() <==> StoreBroke(r)
      ensures !Faulted() ==> KeyOf(op) in records && RecordVerified(Asked(), op, identity, profile, Now(op), r)
      ensures Valid() && Extends(c)
      ensures r.Ok? ==> Answers(op, r.value)
      ensures r.Ok? ==> r.value.state == (if op.state.Unknown? then Started else op.state) && r.value.process == op.process
                        && op.instance in ownership && VerifiedIn(journal.log, c, identity, profile)
    {
      hide Starts, Ports, Core, AuthorityAgrees, Newest, Verified, ConfirmedGone, Pinned, VerifiedIn, Checked, Doubted, Kept, RecordVerified;
      ghost var start := journal.log;
      var verified := VerifyStartedIdentity(c, KeyOf(op), identity, profile);
      ghost var checks, seen := Asked(), journal.log;
      if verified.Err? {
        r := RecordUnverified(c, op, identity, verified.error);
        InTurn(start, seen, journal.log);
        if !Faulted() { DoubtedRecord(checks, Ports(journal.log[|seen|..]), op, identity, profile, verified.error, Now(op), r); }
        return;
      }
      assert verified.value == Unit;
      r := KeepVerified(c, op, identity, profile);
      InTurn(start, seen, journal.log);
      assert Asked() == checks;
      if !Faulted() { KeptRecord(checks, op, identity, profile, Now(op), r); }
    }

    method KeepVerified(ghost c: nat, op: Operation, identity: ProcessIdentity, profile: Profile)
      returns (r: Result<Response, LifecycleError>)
      requires Acting(c, op) && records[KeyOf(op)] == op && op.process == Some(identity)
      requires op.state.Unknown? ==> op.action.LaunchNew?
      requires VerifiedIn(journal.log, c, identity, profile)
      requires Verified(journal.config, journal.log, token, c, KeyOf(op), op.action, identity)
      modifies this`records, this`ownership, this`owned, this`nextSequence, journal`records, journal`ownership, journal`log, journal`faults
      ensures Silent() && (Faulted() <==> StoreBroke(r)) && (r.Err? ==> r.error.StoreFailed?)
      ensures !Faulted() ==> KeyOf(op) in records && Kept(op, identity, Now(op), r)
      ensures r.Ok? && old(CanUpdateOwner(op)) ==>
                ownership == old(ownership)[op.instance := Ownership(op.instance, op.id, op.sequence, profile.id, Some(identity))]
      ensures Valid() && Extends(c)
      ensures r.Ok? ==> Answers(op, r.value)
      ensures r.Ok? ==> r.value.state == (if op.state.Unknown? then Started else op.state) && r.value.process == op.process
                        && op.instance in ownership && VerifiedIn(journal.log, c, identity, profile)
    {
      hide Starts, Ports, Core, AuthorityAgrees, Newest, Verified, ConfirmedGone, VerifiedIn, CanUpdateOwner;
      ghost var seen := journal.log;
      var recovered := op;
      if op.state.Unknown? {
        recovered := op.Moved(Started, Some(identity), None);
        SameOwner(op, recovered);
        var _ :- Persist(c, recovered);
      }
      ghost var written := journal.log;
      var reserved := ReserveOwnership(c, recovered, profile.id, Some(identity));
      InTurn(seen, written, journal.log);
      VerifiedInLater(seen, journal.log, c, identity, profile);
      return if reserved.Err? then Err(reserved.error) else Ok(Respond(recovered, LifecycleStateOf(recovered.state)));
    }

    method RecordUnverified(ghost c: nat, op: Operation, identity: ProcessIdentity, failure: Failure)
      returns (r: Result<Response, LifecycleError>)
      requires Acting(c, op) && records[KeyOf(op)].process == Some(identity)
      modifies this`records, this`ownership, this`owned, this`nextSequence, journal`records, journal`ownership, journal`log, journal`faults
      ensures Faulted() <==> StoreBroke(r)
      ensures !Faulted() ==> KeyOf(op) in records && Doubted(Asked(), op, identity, failure, Now(op), r)
      ensures Valid() && Extends(c) && r.Err?
    {
      hide CanUpdateOwner, Starts, Ports, Core, AuthorityAgrees, Newest, Verified, ConfirmedGone, ExitChecked;
      ghost var start := journal.log;
      var inspection := failure == ProcessFailure(InspectionFailed);
      var gone := false;
      if inspection {
        gone := ConfirmExited(c, KeyOf(op), identity);
      }
      ghost var seen := journal.log;
      ghost var checks := Asked();
      r := KeepDoubted(c, op, identity, failure, inspection, gone);
      InTurn(start, seen, journal.log);
      assert Asked() == checks;
    }

    /** Write what an unverified record became: failed if its process is gone, unknown or blocked otherwise. */
    method KeepDoubted(ghost c: nat, op: Operation, identity: ProcessIdentity, failure: Failure, inspection: bool, gone: bool)
      returns (r: Result<Response, LifecycleError>)
      requires Acting(c, op) && records[KeyOf(op)].process == Some(identity)
      requires gone ==> ConfirmedGone(journal.log, c, identity.handle)
      modifies this`records, this`ownership, this`owned, this`nextSequence, journal`records, journal`ownership, journal`log, journal`faults
      ensures Silent() && (Faulted() <==> StoreBroke(r))
      ensures !Faulted() ==>
                KeyOf(op) in records
                && Barred(op, if gone then Failed else if inspection then Unknown else Blocked, Some(identity), failure, Now(op), r)
      ensures !Faulted() && gone && old(CanUpdateOwner(op)) ==> op.instance !in ownership
      ensures Valid() && Extends(c) && r.Err?
    {
      hide CanUpdateOwner, Starts, Ports, Core, AuthorityAgrees, Newest, Verified, ConfirmedGone;
      ghost var start := journal.log;
      var next := op.Moved(if gone then Failed else if inspection then Unknown else Blocked, Some(identity), Some(failure));
      SameOwner(op, next);
      var stored := Persist(c, next);
      if stored.Err? { return Err(stored.error); }
      ghost var written := journal.log;
      var settled := SettleOwner(c, next, identity, gone, failure);
      InTurn(start, written, journal.log);
      return Err(if settled.Err? then settled.error else FailureError(failure));
    }

    /** A process that is gone gives up its owner row; any other is kept on it, unless it is not the recorded one. */
    method SettleOwner(ghost c: nat, op: Operation, identity: ProcessIdentity, gone: bool, failure: Failure)
      returns (r: Result<Unit, LifecycleError>)
      requires Valid()
      modifies this`ownership, this`owned, this`nextSequence, journal`ownership, journal`log, journal`faults
      ensures Silent() && (r.Err? <==> Faulted()) && (r.Err? ==> r.error.StoreFailed?)
      ensures r.Ok? && gone && old(CanUpdateOwner(op)) ==> op.instance !in ownership
      ensures r.Ok? && !gone && old(CanUpdateOwner(op)) && !failure.IdentityMismatch? && op.instance in old(ownership) ==>
                op.instance in ownership && ownership[op.instance].process == Some(identity)
      ensures Valid() && Extends(c)
    {
      hide CanUpdateOwner, Starts, Ports, Core, AuthorityAgrees;
      if gone {
        r := ClearOwnedFor(c, op);
      } else if !failure.IdentityMismatch? {
        r := SetOwnerProcessFor(c, op, Some(identity));
      } else {
        r := Ok(Unit);
      }
    }

    lemma StoredFits(k: Key)
      requires Core() && k in records
      ensures records[k].Fits() && KeyOf(records[k]) == k && records[k].sequence > 0
    {
    }

    /** Resume a retained operation; one that a newer operation superseded is only rejected. */
    method ReconcileRecord(ghost c: nat, op: Operation) returns (r: Result<Response, LifecycleError>)
      requires Valid() && Begun(token, c) in journal.log && KeyOf(op) in records && records[KeyOf(op)] == op
      modifies this`records, this`ownership, this`owned, this`nextSequence, this`authority
      modifies journal`records, journal`ownership, journal`log, journal`faults
      ensures Faulted() <==> StoreBroke(r)
      ensures !op.state.Active() ==> KeyOf(op) in records && AsItIs(op, Now(op), r)
      ensures !Faulted() && op.state.Active() ==>
                KeyOf(op) in records
                && if !old(Newest(records, KeyOf(op))) then Silent() && Barred(op, Rejected, op.process, InstanceBusy, Now(op), r)
                   else Reconciled(journal.config, old(Cache()), leases, old(CanUpdateOwner(op)), old(CurrentEpoch(op.instance)),
                                   Asked(), op, Now(op), r)
      ensures Valid() && Grown(c)
      ensures r.Ok? ==> Reflects(KeyOf(op), r.value)
      ensures !op.state.Active() ==> r.Ok? && Untouched()
      ensures op.state.Active() && !old(Newest(records, KeyOf(op))) ==> r.Err? && Silent()
    {
      hide Starts, Ports, Core, AuthorityAgrees, Newest, Verified, ConfirmedGone, Barred, Reconciled;
      StoredFits(KeyOf(op));
      if !op.state.Active() { return Ok(Respond(op, LifecycleStateOf(op.state))); }
      var current := IsCurrent(op);
      if !current {
        r := BlockOperation(c, op, InstanceBusy);
        return;
      }
      r := ReconcileCurrent(c, op);
    }

    /** Resume the newest operation of its instance. */
    method ReconcileCurrent(ghost c: nat, op: Operation) returns (r: Result<Response, LifecycleError>)
      requires Acting(c, op) && records[KeyOf(op)] == op && op.Fits()
      modifies this`records, this`ownership, this`owned, this`nextSequence, this`authority
      modifies journal`records, journal`ownership, journal`log, journal`faults
      ensures Faulted() <==> StoreBroke(r)
      ensures !Faulted() ==>
                KeyOf(op) in records
                && Reconciled(journal.config, old(Cache()), leases, old(CanUpdateOwner(op)), old(CurrentEpoch(op.instance)),
                              Asked(), op, Now(op), r)
      ensures Valid() && Grown(c)
      ensures r.Ok? ==> Reflects(KeyOf(op), r.value)
    {
      hide Starts, Ports, Core, AuthorityAgrees, Newest, Verified, ConfirmedGone, CanUpdateOwner, AuthorizesIn;
      hide VerifiedOutcome, LaunchResumed, AttachOutcome, StopIntentResumed, StoppingResumed, RestartIntentResumed, RestartResumed;
      hide HeldBy, Prior;
      match op.action
      case LaunchNew(_) =>
        if op.state.Started? {
          r := VerifyRecord(c, op);
        } else if op.state.Blocked? && op.process.None? {
          return Ok(Respond(op, LifecycleStateOf(op.state)));
        } else {
          r := ReconcileLaunch(c, op);
        }
      case AttachExisting(identity) =>
        if op.state.Attached? {
          r := VerifyRecord(c, op);
        } else if op.state.Blocked? {
          return Ok(Respond(op, LifecycleStateOf(op.state)));
        } else {
          r := ExecuteAttach(c, op, identity);
        }
      case Stop(_) =>
        if op.state.IntentRecorded? {
          r := ReconcileStopIntent(c, op);
        } else if !op.state.Stopping? && op.process.None? {
          return Ok(Respond(op, LifecycleStateOf(op.state)));
        } else {
          r := ReconcileStopping(c, op);
        }
      case Restart(profileId) =>
        if op.state.IntentRecorded? {
          r := ReconcileRestartIntent(c, op, profileId);
        } else if op.state.Started? {
          r := VerifyRecord(c, op);
        } else {
          r := ReconcileRestart(c, op);
        }
    }

    // ---- requests -----------------------------------------------------------------------------

    /** One call: at most one start, and a coordinator that lost the journal changed nothing durable. */
    twostate predicate Progressed()
      reads this, journal
    {
      && old(journal.log) <= journal.log && Starts(journal.log) <= old(Starts(journal.log)) + 1
      && journal.faults >= old(journal.faults)
      && (journal.token != Some(token) ==> journal.Stored() == old(journal.Stored()) && Cache() == old(Cache()))
      && leases == old(leases) && journal.token == old(journal.token) && journal.nextToken == old(journal.nextToken)
    }

    /** Nothing but the start of the call was noted. */
    twostate predicate Refused()
      reads this, journal
    {
      && Cache() == old(Cache()) && authority == old(authority) && journal.Stored() == old(journal.Stored())
      && |journal.log| == |old(journal.log)| + 1 && journal.log[|old(journal.log)|].Begun?
    }

    /** A duplicate is resumed if it is current, reported if it ended or runs on, and rejected if it was superseded. */
    ghost predicate Replayed(t: Tables, own: bool, current: Epoch, calls: seq<PortCall>, op: Operation, after: Operation,
                             r: Result<Response, LifecycleError>)
      reads this`leases
    {
      if !op.state.Active() then calls == [] && AsItIs(op, after, r)
      else if Newest(t.records, KeyOf(op)) then Reconciled(journal.config, t, leases, own, current, calls, op, after, r)
      else if op.state.Started? || op.state.Attached? then calls == [] && AsItIs(op, after, r)
      else calls == [] && Barred(op, Rejected, op.process, InstanceBusy, after, r)
    }

    method ReplayOperation(ghost c: nat, op: Operation) returns (r: Result<Response, LifecycleError>)
      requires Valid() && Begun(token, c) in journal.log && KeyOf(op) in records && records[KeyOf(op)] == op
      modifies this`records, this`ownership, this`owned, this`nextSequence, this`authority
      modifies journal`records, journal`ownership, journal`log, journal`faults
      ensures Faulted() <==> StoreBroke(r)
      ensures !Faulted() ==>
                KeyOf(op) in records
                && Replayed(old(Cache()), old(CanUpdateOwner(op)), old(CurrentEpoch(op.instance)), Asked(), op, Now(op), r)
      ensures Valid() && Grown(c)
      ensures r.Ok? ==> Reflects(KeyOf(op), r.value)
      ensures !op.state.Active() ==> r.Ok? && Untouched()
      ensures op.state.Active() && !old(Newest(records, KeyOf(op))) ==> Silent()
    {
      hide Starts, Ports, Core, AuthorityAgrees, Newest, Verified, ConfirmedGone, Barred, Reconciled, CanUpdateOwner;
      StoredFits(KeyOf(op));
      if op.state.Active() {
        var current := IsCurrent(op);
        if !current {
          if op.state.Started? || op.state.Attached? { return Ok(Respond(op, LifecycleStateOf(op.state))); }
          r := BlockOperation(c, op, InstanceBusy);
          return;
        }
        if op.state.Started? || op.state.Attached? {
          r := VerifyRecord(c, op);
          if !Faulted() { VerifyingResumes(op, old(Cache()), old(CanUpdateOwner(op)), old(CurrentEpoch(op.instance)), Asked(), Now(op), r); }
        } else {
          r := ReconcileRecord(c, op);
        }
        return;
      }
      return Ok(Respond(op, LifecycleStateOf(op.state)));
    }

    /** Resuming a started or attached operation is verifying it. */
    lemma VerifyingResumes(op: Operation, t: Tables, own: bool, current: Epoch, calls: seq<PortCall>, after: Operation,
                           r: Result<Response, LifecycleError>)
      requires (op.state.Started? || op.state.Attached?) && op.Fits()
      requires exists profile :: HeldBy(journal.config, t, op, profile) && VerifiedOutcome(calls, op, profile, after, r)
      ensures Reconciled(journal.config, t, leases, own, current, calls, op, after, r)
    {
      hide VerifiedOutcome, HeldBy, RestartResumed, LaunchResumed;
    }

    /** The decision of the external lease fence is a parameter of the environment. */
    method Authenticate(i: InstanceId, epoch: Epoch) returns (r: Result<Unit, LifecycleError>)
      modifies this`refusals
      ensures refusals >= old(refusals)
      ensures r.Ok? <==> i in leases && epoch == CurrentEpoch(i) && refusals == old(refusals)
      ensures r.Err? ==> !r.error.StoreFailed? && (r.error.FenceRejected? ==> refusals > old(refusals))
    {
      if i !in leases { return Err(LeaseNotBound); }
      var fenced: bool := *;
      if fenced {
        refusals := refusals + 1;
        return Err(FenceRejected);
      }
      if CurrentEpoch(i) != epoch { return Err(StaleAuthorityEpoch); }
      return Ok(Unit);
    }

    function ValidateAction(i: InstanceId, action: Action): (r: Result<Unit, LifecycleError>)
      ensures r.Ok? <==> (NamesProfile(action) ==> action.profile in journal.config.profiles)
                         && (action.AttachExisting? ==> action.identity.instance == i)
      ensures r.Err? ==> r.error == if action.AttachExisting? then MismatchedIdentity else ProfileNotFound
    {
      match action
      case LaunchNew(p) => if p in journal.config.profiles then Ok(Unit) else Err(ProfileNotFound)
      case Restart(p) => if p in journal.config.profiles then Ok(Unit) else Err(ProfileNotFound)
      case AttachExisting(identity) => if identity.instance == i then Ok(Unit) else Err(MismatchedIdentity)
      case Stop(_) => Ok(Unit)
    }

    /** What admission demands of the tables. */
    ghost predicate Admissible(i: InstanceId, action: Action)
      reads this`records, this`ownership, this`leases
    {
      match action
      case LaunchNew(_) => i !in Occupied(Cache()) && |Occupied(Cache())| < journal.config.maxProcesses
      case AttachExisting(identity) =>
        exists k :: Authorizes(i, None, k) && records[k].process == Some(identity)
                    && (records[k].state.Started? || records[k].state.Attached?)
      case _ =>
        exists k :: Authorizes(i, None, k)
                    && (records[k].state.Started? || records[k].state.Attached? || records[k].state.Blocked?)
    }

    /** Admission: a launch needs a free instance and capacity, every other action an authorised process. */
    method ReserveAction(i: InstanceId, action: Action) returns (r: Result<Unit, LifecycleError>)
      requires Core()
      modifies this`refusals
      ensures refusals >= old(refusals)
      ensures r.Ok? <==> Admissible(i, action) && refusals == old(refusals)
      ensures r == Err(NamespaceBusy) <==> refusals > old(refusals)
      ensures r == Err(NamespaceBusy) ==> Admissible(i, action) && (action.LaunchNew? || action.Restart?)
      ensures r.Err? ==> !r.error.StoreFailed?
      ensures r.Ok? && !action.LaunchNew? ==> i in Occupied(Cache())
    {
      hide Core, Occupied, Authorizes;
      var namespaceBusy: bool := *;
      if action.LaunchNew? {
        if i in ownership {
          OwnedIsOccupied(i);
          return Err(BusyInstance);
        }
        var active := ActiveOperation(i);
        if active.Some? { return Err(BusyInstance); }
        var occupied := OccupiedCount();
        if occupied >= journal.config.maxProcesses { return Err(CapacityExceeded); }
        if namespaceBusy {
          refusals := refusals + 1;
          return Err(NamespaceBusy);
        }
        return Ok(Unit);
      }
      var previous := LatestAuthorized(i, None);
      if previous.None? { return Err(if action.AttachExisting? then NotOwnedAttach else InstanceNotFound); }
      var state := previous.value.state;
      if action.AttachExisting? {
        if previous.value.process != Some(action.identity) { return Err(MismatchedIdentity); }
        return if state.Started? || state.Attached? then Ok(Unit) else Err(BusyInstance);
      }
      if !state.Started? && !state.Attached? && !state.Blocked? { return Err(BusyInstance); }
      if action.Restart? && namespaceBusy {
        refusals := refusals + 1;
        return Err(NamespaceBusy);
      }
      return Ok(Unit);
    }

    lemma OwnedIsOccupied(i: InstanceId)
      requires i in ownership
      ensures i in Occupied(Cache())
    {
    }

    method IssueSequence() returns (r: Result<nat, LifecycleError>)
      requires Valid()
      modifies this`nextSequence
      ensures Valid() && nextSequence >= old(nextSequence)
      ensures r.Ok? ==> r.value == nextSequence == old(nextSequence) + 1
      ensures r.Ok? ==> forall k :: k in records ==> records[k].sequence < r.value
      ensures r.Err? <==> old(nextSequence) >= 0xFFFF_FFFF_FFFF_FFFF
      ensures r.Err? ==> r.error.AuthorityExhausted? && nextSequence == old(nextSequence)
    {
      if nextSequence >= MAX_U64 { return Err(AuthorityExhausted); }
      nextSequence := nextSequence + 1;
      return Ok(nextSequence);
    }

    /** The record a request is kept as. */
    static function Intended(request: Request, sequence: nat): Operation {
      Operation(request.id, request.lease.instance, request.lease, sequence, request.epoch, request.epoch, request.action,
                IntentRecorded, None, None)
    }

    /**
     Apply a request: authenticate, replay it if it is a duplicate, otherwise record the intent and
     execute it.
     */
    method Apply(request: Request) returns (r: Result<Response, LifecycleError>)
      requires Valid()
      modifies this`records, this`ownership, this`owned, this`nextSequence, this`authority, this`refusals
      modifies journal`records, journal`ownership, journal`log, journal`nextCall, journal`faults
      ensures refusals >= old(refusals) && (StoreBroke(r) <==> Faulted())
      ensures var k := Key(request.Instance(), request.id);
              request.Instance() in leases && request.epoch == old(CurrentEpoch(request.Instance())) && k in old(records)
              && old(records)[k].lease == request.lease && old(records)[k].requestEpoch == request.epoch
              && old(records)[k].action == request.action && !Faulted() && refusals == old(refusals)
              ==> k in records && Replayed(old(Cache()), old(CanUpdateOwner(records[k])), request.epoch, Asked(), old(records)[k],
                                           records[k], r)
      ensures var op := Intended(request, old(nextSequence) + 1);
              request.Instance() in leases && request.epoch == old(CurrentEpoch(request.Instance()))
              && KeyOf(op) !in old(records) && ValidateAction(request.Instance(), request.action).Ok?
              && old(Admissible(request.Instance(), request.action)) && old(nextSequence) < 0xFFFF_FFFF_FFFF_FFFF
              && |old(records)| < journal.config.maxRecords && !Faulted() && refusals == old(refusals)
              ==> KeyOf(op) in records
                  && Executed(journal.config, Tables(old(records)[KeyOf(op) := op], old(ownership)), leases, request.epoch,
                              Asked(), op, Now(op), r)
                  && (request.action.LaunchNew? ==> Starts(journal.log) == old(Starts(journal.log)) + 1)
      ensures r.Ok? && request.action.LaunchNew? && Key(request.Instance(), request.id) !in old(records) ==>
                r.value.state == Started && r.value.process.Some?
                && exists call :: JustStarted(journal.log, call, r.value.process.value)
      ensures Valid() && Progressed()
      ensures r.Ok? ==> Reflects(Key(request.Instance(), request.id), r.value)
      ensures request.Instance() !in leases || request.epoch != old(CurrentEpoch(request.Instance()))
              ==> r.Err? && Refused()
      ensures var k := Key(request.Instance(), request.id);
              k in old(records) && !(old(records)[k].lease == request.lease && old(records)[k].requestEpoch == request.epoch
                                     && old(records)[k].action == request.action)
              ==> r.Err? && Refused()
      ensures Key(request.Instance(), request.id) !in old(records) && !old(Admissible(request.Instance(), request.action))
              ==> r.Err? && Refused()
      ensures var k := Key(request.Instance(), request.id);
              k in old(records) && !old(records)[k].state.Active() ==> Refused()
    {
      hide Starts, Ports, Core, AuthorityAgrees, Newest, MayInsert, Occupied, AuthorizesIn, JustStarted;
      hide Executed, Replayed, CanUpdateOwner, Admissible;
      ghost var start := journal.log;
      ghost var c := OpenCall();
      ghost var begun := journal.log;
      var i := request.Instance();
      var _ :- Authenticate(i, request.epoch);
      var k := Key(i, request.id);
      if k in records {
        StoredFits(k);
        var op := records[k];
        if op.lease != request.lease || op.requestEpoch != request.epoch || op.action != request.action {
          return Err(OperationConflict);
        }
        r := ReplayOperation(c, op);
        InTurn(start, begun, journal.log);
        return;
      }
      r := Admit(c, request);
      InTurn(start, begun, journal.log);
    }

    /** Validate and admit a new request, then record and execute it under the next sequence. */
    method Admit(ghost c: nat, request: Request) returns (r: Result<Response, LifecycleError>)
      requires Valid() && Begun(token, c) in journal.log && !StartedInCall(journal.log, c)
      requires Key(request.Instance(), request.id) !in records && request.epoch == CurrentEpoch(request.Instance())
      modifies this`refusals
      modifies this`records, this`ownership, this`owned, this`nextSequence, this`authority
      modifies journal`records, journal`ownership, journal`log, journal`faults
      ensures refusals >= old(refusals) && (StoreBroke(r) <==> Faulted())
      ensures var op := Intended(request, old(nextSequence) + 1);
              ValidateAction(request.Instance(), request.action).Ok? && old(Admissible(request.Instance(), request.action))
              && old(nextSequence) < 0xFFFF_FFFF_FFFF_FFFF && |old(records)| < journal.config.maxRecords
              && !Faulted() && refusals == old(refusals)
              ==> KeyOf(op) in records
                  && Executed(journal.config, Tables(old(records)[KeyOf(op) := op], old(ownership)), leases, request.epoch,
                              Asked(), op, Now(op), r)
                  && (request.action.LaunchNew? ==> Starts(journal.log) == old(Starts(journal.log)) + 1)
      ensures r.Ok? && request.action.LaunchNew? ==>
                r.value.state == Started && r.value.process.Some? && JustStarted(journal.log, c, r.value.process.value)
      ensures Valid() && Grown(c)
      ensures r.Ok? ==> Reflects(Key(request.Instance(), request.id), r.value)
      ensures !old(Admissible(request.Instance(), request.action)) ==> r.Err? && Untouched()
    {
      hide Starts, Ports, Core, AuthorityAgrees, Newest, MayInsert, Occupied, StartedInCall, AuthorizesIn, JustStarted;
      hide Executed;
      var i := request.Instance();
      var valid := ValidateAction(i, request.action);
      if valid.Err? { return Err(valid.error); }
      var _ :- ReserveAction(i, request.action);
      var sequence :- IssueSequence();
      r := InsertAndExecute(c, Intended(request, sequence));
    }

    ghost method OpenCall() returns (c: nat)
      requires Valid()
      modifies journal`log, journal`nextCall
      ensures Valid() && Progressed() && Refused()
      ensures Begun(token, c) in journal.log && !StartedInCall(journal.log, c)
      ensures Starts(journal.log) == old(Starts(journal.log)) && Silent() && !Faulted()
    {
      hide Starts, Ports;
      ghost var before := journal.log;
      c := journal.BeginCall(token);
      StartsAppend(before, Begun(token, c));
      PortsOne(Begun(token, c));
      ViewAfterCall(before, Begun(token, c), token);
      FreshCall(journal.config, before, Begun(token, c));
    }

    lemma AdmittedMayInsert(op: Operation)
      requires Valid() && KeyOf(op) !in records && |records| < journal.config.maxRecords
      requires op.state == IntentRecorded && op.process == None && op.failure == None
      requires op.sequence > 0 && forall k :: k in records ==> records[k].sequence < op.sequence
      requires op.authorityEpoch == op.requestEpoch == CurrentEpoch(op.instance)
      requires if op.action.LaunchNew?
               then op.instance !in Occupied(Cache()) && |Occupied(Cache())| < journal.config.maxProcesses
               else op.instance in Occupied(Cache())
      ensures MayInsert(journal.config, Cache(), op)
    {
      assert EpochIs(records, op.instance, CurrentEpoch(op.instance));
    }

    /** Write the intent, reserve the instance for a launch, then execute. */
    method InsertAndExecute(ghost c: nat, op: Operation) returns (r: Result<Response, LifecycleError>)
      requires Valid() && KeyOf(op) !in records && Begun(token, c) in journal.log && !StartedInCall(journal.log, c)
      requires op.state == IntentRecorded && op.process == None && op.failure == None
      requires 0 < op.sequence <= nextSequence && forall k :: k in records ==> records[k].sequence < op.sequence
      requires op.authorityEpoch == op.requestEpoch == CurrentEpoch(op.instance)
      requires op.action.LaunchNew? ==> op.action.profile in journal.config.profiles
      requires if op.action.LaunchNew?
               then op.instance !in Occupied(Cache()) && |Occupied(Cache())| < journal.config.maxProcesses
               else op.instance in Occupied(Cache())
      modifies this`records, this`ownership, this`owned, this`nextSequence, this`authority
      modifies journal`records, journal`ownership, journal`log, journal`faults
      ensures StoreBroke(r) <==> Faulted()
      ensures |old(records)| >= journal.config.maxRecords ==> r == Err(CapacityExceeded) && Untouched()
      ensures !Faulted() && |old(records)| < journal.config.maxRecords ==>
                KeyOf(op) in records
                && Executed(journal.config, Tables(old(records)[KeyOf(op) := op], old(ownership)), leases,
                            old(CurrentEpoch(op.instance)), Asked(), op, Now(op), r)
                && (op.action.LaunchNew? ==> Starts(journal.log) == old(Starts(journal.log)) + 1)
      ensures r.Ok? && op.action.LaunchNew? ==>
                r.value.state == Started && r.value.process.Some? && JustStarted(journal.log, c, r.value.process.value)
      ensures Valid() && Grown(c)
      ensures r.Ok? ==> Reflects(KeyOf(op), r.value)
    {
      hide Starts, Ports, Core, AuthorityAgrees, MayInsert, InsertedInCall, StartedInCall, Occupied, JustStarted, Executed;
      if |records| < journal.config.maxRecords {
        AdmittedMayInsert(op);
      }
      ghost var before := journal.log;
      var _ :- PersistInsert(c, op);
      ghost var written := journal.log;
      assert Cache() == Tables(old(records)[KeyOf(op) := op], old(ownership));
      InsertBelongsToCall(before, Inserted(token, c, op), c);
      if op.action.LaunchNew? {
        r := ReserveAndLaunch(c, op);
        InTurn(before, written, journal.log);
        assert Asked() == Ports(journal.log[|written|..]);
      } else {
        r := Execute(c, op);
        InTurn(before, written, journal.log);
        assert Asked() == Ports(journal.log[|written|..]);
      }
    }

    method ReserveAndLaunch(ghost c: nat, op: Operation) returns (r: Result<Response, LifecycleError>)
      requires Acting(c, op) && op.action.LaunchNew? && op.process.None? && op.action.profile in journal.config.profiles
      requires InsertedInCall(journal.log, c, KeyOf(op)) && !StartedInCall(journal.log, c)
      modifies this`records, this`ownership, this`owned, this`nextSequence, journal`records, journal`ownership, journal`log, journal`faults
      ensures StoreBroke(r) <==> Faulted()
      ensures !Faulted() ==>
                KeyOf(op) in records && Starts(journal.log) == old(Starts(journal.log)) + 1
                && Executed(journal.config, old(Cache()), leases, old(CurrentEpoch(op.instance)), Asked(), op, Now(op), r)
      ensures r.Ok? ==> r.value.state == Started && r.value.process.Some?
                        && JustStarted(journal.log, c, r.value.process.value)
      ensures Valid() && Grown(c)
      ensures r.Ok? ==> Reflects(KeyOf(op), r.value)
    {
      hide Starts, Ports, Core, AuthorityAgrees, Newest, InsertedInCall, StartedInCall, JustStarted, Launched, CanUpdateOwner;
      ghost var before := journal.log;
      var _ :- ReserveOwnership(c, op, op.action.profile, None);
      ghost var reserved := journal.log;
      OwnerKeepsCall(before, journal.log, c, KeyOf(op));
      r := ExecuteLaunch(c, op, op.action.profile);
      InTurn(before, reserved, journal.log);
    }

    method Execute(ghost c: nat, op: Operation) returns (r: Result<Response, LifecycleError>)
      requires Acting(c, op) && !op.action.LaunchNew? && records[KeyOf(op)] == op
      modifies this`records, this`ownership, this`owned, this`nextSequence, this`authority
      modifies journal`records, journal`ownership, journal`log, journal`faults
      ensures StoreBroke(r) <==> Faulted()
      ensures !Faulted() ==>
                KeyOf(op) in records
                && Executed(journal.config, old(Cache()), leases, old(CurrentEpoch(op.instance)), Asked(), op, Now(op), r)
      ensures Valid() && Grown(c)
      ensures r.Ok? ==> Reflects(KeyOf(op), r.value)
    {
      hide Starts, Ports, Core, AuthorityAgrees, Newest, Verified, ConfirmedGone, Prior, AttachOutcome, StopOutcome, RestartRequested;
      match op.action
      case AttachExisting(identity) => r := ExecuteAttach(c, op, identity);
      case Stop(mode) => r := ExecuteStop(c, op, mode);
      case Restart(profile) => r := ExecuteRestart(c, op, profile);
    }

    /** Reconcile a retained operation on behalf of the lease that requested it. */
    method Reconcile(lease: LeaseProof, epoch: Epoch, id: OperationId) returns (r: Result<Response, LifecycleError>)
      requires Valid()
      modifies this`records, this`ownership, this`owned, this`nextSequence, this`authority, this`refusals
      modifies journal`records, journal`ownership, journal`log, journal`nextCall, journal`faults
      ensures refusals >= old(refusals) && (StoreBroke(r) <==> Faulted())
      ensures var k := Key(lease.instance, id);
              lease.instance in leases && epoch == old(CurrentEpoch(lease.instance)) && k in old(records)
              && old(records)[k].lease == lease && old(records)[k].authorityEpoch == epoch
              && !Faulted() && refusals == old(refusals)
              ==> k in records
                  && if !old(records)[k].state.Active() then Silent() && AsItIs(old(records)[k], records[k], r)
                     else if !Newest(old(records), k)
                     then Silent() && Barred(old(records)[k], Rejected, old(records)[k].process, InstanceBusy, records[k], r)
                     else Reconciled(journal.config, old(Cache()), leases, old(CanUpdateOwner(records[k])), epoch, Asked(),
                                     old(records)[k], records[k], r)
      ensures Valid() && Progressed()
      ensures r.Ok? ==> Reflects(Key(lease.instance, id), r.value)
      ensures lease.instance !in leases || epoch != old(CurrentEpoch(lease.instance)) ==> r.Err? && Refused()
      ensures var k := Key(lease.instance, id);
              k !in old(records) || old(records)[k].lease != lease || old(records)[k].authorityEpoch != epoch
              ==> r.Err? && Refused()
      ensures var k := Key(lease.instance, id);
              k in old(records) && !old(records)[k].state.Active() ==> Refused()
    {
      hide Starts, Ports, Core, AuthorityAgrees, Newest, Verified, ConfirmedGone, Reconciled, Barred, CanUpdateOwner;
      ghost var start := journal.log;
      ghost var c := OpenCall();
      ghost var begun := journal.log;
      var _ :- Authenticate(lease.instance, epoch);
      var k := Key(lease.instance, id);
      if k !in records { return Err(OperationNotFound); }
      StoredFits(k);
      var op := records[k];
      if op.lease != lease { return Err(WrongLease); }
      if op.authorityEpoch != epoch { return Err(StaleAuthorityEpoch); }
      r := ReconcileRecord(c, op);
      InTurn(start, begun, journal.log);
    }

    method BindLease(lease: LeaseProof) returns (r: Result<Unit, LifecycleError>)
      requires Valid()
      modifies this`leases, this`authority
      ensures Valid() && forall i :: CurrentEpoch(i) == old(CurrentEpoch(i))
      ensures r.Ok? <==> (lease.instance in old(leases) ==> old(leases)[lease.instance] == lease)
      ensures leases == if r.Ok? then old(leases)[lease.instance := lease] else old(leases)
    {
      hide Starts, Ports, Core, AuthorityAgrees;
      if lease.instance in leases && leases[lease.instance] != lease { return Err(MismatchedIdentity); }
      if lease.instance !in authority {
        BoundAgrees(authority, records, lease.instance);
      }
      leases := leases[lease.instance := lease];
      if lease.instance !in authority {
        authority := authority[lease.instance := 1];
      }
      return Ok(Unit);
    }

    // ---- reopening ----------------------------------------------------------------------------

    /**
     Open the journal: take the coordinator token, rebuild epochs and sequence from the records, then
     bring the owner rows in line. Capacity never stands in the way; an owner row naming a process of
     another instance does.
     */
    static method Open(journal: Journal) returns (r: Result<ProcessLifecycle, LifecycleError>)
      requires journal.Valid()
      modifies journal`token, journal`nextToken, journal`log, journal`ownership, journal`faults
      ensures r.Err? <==> journal.faults > old(journal.faults) || journal.config.maxProcesses == 0
                          || journal.config.maxRecords == 0 || journal.config.profileCapacity == 0
                          || ForeignOwner(old(journal.ownership))
      ensures r.Ok? ==> Aligned(old(journal.Stored()), journal.ownership)
      ensures r.Ok? ==> Last(journal.records, r.value.nextSequence)
      ensures journal.Valid() && old(journal.log) + [Opened(old(journal.nextToken))] <= journal.log
      ensures journal.token == Some(old(journal.nextToken)) && journal.nextToken == old(journal.nextToken) + 1
      ensures r.Ok? ==> fresh(r.value) && r.value.journal == journal && r.value.Valid()
                        && journal.token == Some(r.value.token) && r.value.Cache() == journal.Stored()
                        && r.value.leases == map[]
      ensures r.Ok? ==> forall i :: i in journal.ownership ==> !StaleOwner(journal.Stored(), i)
      ensures r.Ok? ==> forall k :: k in journal.records && Newest(journal.records, k) && journal.records[k].state.Active()
                                    && (journal.records[k].action.LaunchNew? || journal.records[k].action.Restart?)
                                    ==> k.instance in journal.ownership
      ensures Occupied(journal.Stored()) <= old(Occupied(journal.Stored()))
      ensures r == Err(CapacityExceeded) ==> journal.config.maxProcesses == 0 || journal.config.maxRecords == 0
      ensures ForeignOwner(old(journal.ownership)) ==> r.Err? && journal.ownership == old(journal.ownership)
      ensures r == Err(StoreFailed(Serialization)) ==> ForeignOwner(old(journal.ownership))
    {
      hide Aligned, Last, StaleOwner, Occupied, Newest, ForeignOwner, Starts, Ports, ProcessLifecycle.Core, AuthorityAgrees;
      var token := journal.TakeToken();
      if journal.config.maxProcesses == 0 || journal.config.maxRecords == 0 { return Err(CapacityExceeded); }
      if journal.config.profileCapacity == 0 { return Err(NoProfileCapacity); }
      var unreadable: bool := *;
      journal.Count(!unreadable);
      if unreadable { return Err(StoreFailed(Database)); }
      RecordsFit(journal);
      if |journal.records| > journal.config.maxRecords { return Err(CapacityExceeded); }
      var lifecycle := Load(journal, token);
      var ready := lifecycle.Bootstrap();
      lifecycle.HolderFacts();
      if ready.Err? { return Err(ready.error); }
      return Ok(lifecycle);
    }

    /** The journal is consistent, and its holder caches it. */
    lemma HolderFacts()
      requires Core()
      ensures journal.Valid() && (journal.token == Some(token) ==> Cache() == journal.Stored())
    {
    }

    /** Every record was admitted under the configured bound. */
    static lemma RecordsFit(journal: Journal)
      requires journal.Valid()
      ensures |journal.records| <= journal.config.maxRecords
    {
      LegalKeepsInvariant(journal.config, journal.log);
    }

    /** A coordinator with the stored tables as its cache. */
    static method Load(journal: Journal, token: nat) returns (lifecycle: ProcessLifecycle)
      requires journal.Valid() && journal.token == Some(token) && token < journal.nextToken && Opened(token) in journal.log
      ensures fresh(lifecycle) && lifecycle.journal == journal && lifecycle.token == token && lifecycle.Valid()
      ensures lifecycle.leases == map[] && lifecycle.Cache() == journal.Stored()
      ensures Last(journal.records, lifecycle.nextSequence)
    {
      hide Invariant, Gathered, AuthorityAgrees, Legal, Replay, Holder, Numbered, Newest, Projection;
      LegalKeepsInvariant(journal.config, journal.log);
      var authority, nextSequence := Rebuild(journal.records);
      GatheredAgrees(journal.config, authority, journal.Stored());
      lifecycle := new ProcessLifecycle.Loaded(journal, token, authority, nextSequence);
    }

    /** Epochs and the last sequence, read off the records. */
    static method Rebuild(persisted: map<Key, Operation>) returns (authority: map<InstanceId, Epoch>, nextSequence: nat)
      ensures Gathered(authority, persisted)
      ensures Last(persisted, nextSequence)
    {
      authority, nextSequence := map[], 0;
      var rest := persisted.Keys;
      while rest != {}
        invariant rest <= persisted.Keys
        invariant Gathered(authority, persisted - rest)
        invariant forall k :: k in persisted && k !in rest ==> persisted[k].sequence <= nextSequence
        invariant nextSequence == 0 || exists k :: k in persisted && persisted[k].sequence == nextSequence
        decreases rest
      {
        var k :| k in rest;
        var op := persisted[k];
        GatherNext(authority, persisted - rest, k, op);
        assert persisted - (rest - {k}) == (persisted - rest)[k := op];
        if k.instance !in authority || op.authorityEpoch > authority[k.instance] {
          authority := authority[k.instance := op.authorityEpoch];
        }
        nextSequence := Max(nextSequence, op.sequence);
        rest := rest - {k};
      }
      assert persisted - rest == persisted;
    }

    /** Drop owner rows whose instance has ended, then give every active unowned instance a row. */
    method Bootstrap() returns (r: Result<Unit, LifecycleError>)
      requires Valid() && journal.token == Some(token) && Last(records, nextSequence)
      modifies this`ownership, this`owned, this`nextSequence, journal`ownership, journal`log, journal`faults
      ensures r.Err? <==> Faulted() || ForeignOwner(old(ownership))
      ensures r.Ok? ==> Aligned(old(Cache()), ownership) && nextSequence == old(nextSequence)
      ensures Valid() && Extends(0)
      ensures r.Ok? ==> forall i :: i in ownership ==> !StaleOwner(Cache(), i)
      ensures r.Ok? ==> forall k :: k in records && Newest(records, k) && records[k].state.Active()
                                    && (records[k].action.LaunchNew? || records[k].action.Restart?)
                                    ==> k.instance in ownership
      ensures Occupied(Cache()) <= old(Occupied(Cache()))
      ensures r != Err(CapacityExceeded)
      ensures ForeignOwner(old(ownership)) ==> r.Err? && ownership == old(ownership)
      ensures r == Err(StoreFailed(Serialization)) ==> ForeignOwner(old(ownership))
    {
      hide Starts, Ports, Core, AuthorityAgrees, Newest, StaleOwner, Aligned, Last, Occupied;
      OwnersFit();
      if |ownership| > journal.config.maxProcesses { return Err(CapacityExceeded); }
      RaiseSequence();
      if exists i :: i in ownership && ownership[i].process.Some? && ownership[i].process.value.instance != i {
        return Err(StoreFailed(Serialization));
      }
      r := AlignOwners();
    }

    method AlignOwners() returns (r: Result<Unit, LifecycleError>)
      requires Valid()
      modifies this`ownership, this`owned, this`nextSequence, journal`ownership, journal`log, journal`faults
      ensures r.Err? <==> Faulted()
      ensures r.Err? ==> WriteRefused(r.error)
      ensures r.Ok? ==> Aligned(old(Cache()), ownership) && nextSequence == old(nextSequence)
      ensures Valid() && Extends(0)
      ensures r.Ok? ==> forall i :: i in ownership ==> !StaleOwner(Cache(), i)
      ensures r.Ok? ==> forall k :: k in records && Newest(records, k) && records[k].state.Active()
                                    && (records[k].action.LaunchNew? || records[k].action.Restart?)
                                    ==> k.instance in ownership
      ensures Occupied(Cache()) <= old(Occupied(Cache()))
    {
      hide Starts, Ports, Core, AuthorityAgrees, Newest, StaleOwner, Occupied, Adoptable, Adopts, Aligned;
      var _ :- DropStaleOwners();
      ghost var kept := ownership;
      r := AdoptUnowned();
      if r.Ok? { OwnersAligned(old(ownership), kept); }
    }

    /** Dropping the stale rows and adopting the unowned instances aligns the rows. */
    lemma OwnersAligned(before: map<InstanceId, Ownership>, kept: map<InstanceId, Ownership>)
      requires Core()
      requires forall i :: i in kept <==> i in before && !StaleOwner(Tables(records, before), i)
      requires forall i :: i in kept ==> kept[i] == before[i] && i in ownership && ownership[i] == kept[i]
      requires forall i :: i in ownership && i !in kept ==> Adopts(records, i, ownership[i])
      requires forall k, p :: Adoptable(records, k, p) && k.instance !in kept ==> k.instance in ownership
      ensures Aligned(Tables(records, before), ownership)
    {
      hide ProfileIdIs, Core;
      forall i | i in before && StaleOwner(Tables(records, before), i)
        ensures i !in ownership
      {
        if i in ownership {
          EndedIsNewest(Tables(records, before), i, Key(i, ownership[i].operation));
        }
      }
    }

    /** A stale row's instance has ended, so its newest record is not active. */
    lemma EndedIsNewest(t: Tables, i: InstanceId, k: Key)
      requires Core() && t.records == records && StaleOwner(t, i) && Newest(records, k) && k.instance == i
      ensures !records[k].state.Active()
    {
      hide Core;
      var j :| j in records && j.instance == i && (records[j].state.Stopped? || records[j].state.Failed?)
               && (forall l :: l in records && l.instance == i ==> records[l].sequence <= records[j].sequence)
               && records[j].sequence >= t.ownership[i].sequence;
      assert Newest(records, j);
      OnlyNewest(j);
    }

    /** Owner rows, too, bound the sequences issued so far; their records do already. */
    method RaiseSequence()
      requires Valid()
      modifies this`nextSequence
      ensures Valid() && nextSequence == old(nextSequence)
    {
      hide Invariant, AuthorityAgrees, Legal, Replay, Holder, Numbered;
      var highest := HighestOwned();
      OwnersSequenced();
      nextSequence := Max(nextSequence, highest);
    }

    lemma OwnersSequenced()
      requires Core()
      ensures forall i :: i in ownership ==> ownership[i].sequence <= nextSequence
    {
      hide Core;
      forall i | i in ownership
        ensures ownership[i].sequence <= nextSequence
      {
        OwnerRow(i);
        WithinSequence(Key(i, ownership[i].operation));
      }
    }

    lemma WithinSequence(k: Key)
      requires Core() && k in records
      ensures records[k].sequence <= nextSequence
    {
    }

    method HighestOwned() returns (highest: nat)
      ensures forall i :: i in ownership ==> ownership[i].sequence <= highest
      ensures highest == 0 || exists i :: i in ownership && ownership[i].sequence == highest
    {
      highest := 0;
      var rest := ownership.Keys;
      while rest != {}
        invariant rest <= ownership.Keys
        invariant forall i :: i in ownership && i !in rest ==> ownership[i].sequence <= highest
        invariant highest == 0 || exists i :: i in ownership && ownership[i].sequence == highest
        decreases rest
      {
        var i :| i in rest;
        highest := Max(highest, ownership[i].sequence);
        rest := rest - {i};
      }
    }

    /** The owner rows left behind by a crash between ending an operation and clearing its row. */
    method StaleOwners() returns (stale: set<InstanceId>)
      requires Core()
      ensures stale <= ownership.Keys
      ensures forall i :: i in ownership ==> (i in stale <==> StaleOwner(Cache(), i))
    {
      hide Core, StaleOwner;
      stale := {};
      var rest := ownership.Keys;
      while rest != {}
        invariant rest <= ownership.Keys && stale <= ownership.Keys
        invariant forall i :: i in ownership && i !in rest ==> (i in stale <==> StaleOwner(Cache(), i))
        invariant forall i :: i in stale ==> i !in rest
        decreases rest
      {
        var i :| i in rest;
        var latest := LatestRecord(i);
        StaleExactly(i, latest);
        if latest.Some? && (latest.value.state.Stopped? || latest.value.state.Failed?)
           && OperationOrder(latest.value).AtLeast(OwnerOrder(ownership[i])) {
          stale := stale + {i};
        }
        rest := rest - {i};
      }
    }

    lemma StaleExactly(i: InstanceId, latest: Option<Operation>)
      requires Core() && i in ownership
      requires latest.None? <==> !exists k :: k in records && k.instance == i
      requires latest.Some? ==> KeyOf(latest.value) in records && records[KeyOf(latest.value)] == latest.value
                                && latest.value.instance == i
      requires latest.Some? ==> forall k :: k in records && k.instance == i ==> records[k].sequence <= latest.value.sequence
      ensures StaleOwner(Cache(), i) <==>
                latest.Some? && (latest.value.state.Stopped? || latest.value.state.Failed?)
                && OperationOrder(latest.value).AtLeast(OwnerOrder(ownership[i]))
    {
      assert Key(i, ownership[i].operation) in records;
      var row := records[Key(i, ownership[i].operation)];
      SequencedOrder(latest.value, row);
      assert latest.value.sequence == row.sequence ==> KeyOf(latest.value) == KeyOf(row);
      assert OperationOrder(latest.value).AtLeast(OwnerOrder(ownership[i])) <==> latest.value.sequence >= row.sequence;
      if StaleOwner(Cache(), i) {
        var k :| k in records && k.instance == i && (records[k].state.Stopped? || records[k].state.Failed?)
                 && (forall j :: j in records && j.instance == i ==> records[j].sequence <= records[k].sequence)
                 && records[k].sequence >= ownership[i].sequence;
        assert k == KeyOf(latest.value);
      }
    }

    method DropStaleOwners() returns (r: Result<Unit, LifecycleError>)
      requires Valid()
      modifies this`ownership, this`owned, journal`ownership, journal`log, journal`faults
      ensures r.Err? <==> Faulted()
      ensures r.Ok? ==> (forall i :: i in ownership <==> i in old(ownership) && !StaleOwner(old(Cache()), i))
                        && (forall i :: i in ownership ==> ownership[i] == old(ownership)[i])
      ensures Valid() && Extends(0)
      ensures r.Err? ==> WriteRefused(r.error)
      ensures r.Ok? ==> forall i :: i in ownership ==> !StaleOwner(Cache(), i)
      ensures Occupied(Cache()) <= old(Occupied(Cache()))
    {
      hide Starts, Ports, Core, AuthorityAgrees, StaleOwner, Newest;
      var stale := StaleOwners();
      ghost var all := stale;
      while stale != {}
        invariant Valid() && Extends(0) && stale <= all && !Faulted()
        invariant ownership == old(ownership) - (all - stale)
        decreases stale
      {
        var i :| i in stale;
        var _ :- ClearOwned(0, i);
        stale := stale - {i};
      }
      forall i | i in ownership
        ensures !StaleOwner(Cache(), i)
      {
        StaleByRow(Tables(records, old(ownership)), Cache(), i);
      }
      return Ok(Unit);
    }

    /** Give every active, unowned instance whose profile is known an owner row. */
    method AdoptUnowned() returns (r: Result<Unit, LifecycleError>)
      requires Valid() && forall i :: i in ownership ==> !StaleOwner(Cache(), i)
      modifies this`ownership, this`owned, this`nextSequence, journal`ownership, journal`log, journal`faults
      ensures r.Err? <==> Faulted()
      ensures r.Ok? ==> (forall i :: i in old(ownership) ==> i in ownership && ownership[i] == old(ownership)[i])
                        && (forall i :: i in ownership && i !in old(ownership) ==> Adopts(records, i, ownership[i]))
                        && (forall k, p :: Adoptable(records, k, p) && k.instance !in old(ownership) ==> k.instance in ownership)
      ensures nextSequence == old(nextSequence)
      ensures Valid() && Extends(0)
      ensures r.Err? ==> WriteRefused(r.error)
      ensures r.Ok? ==> forall i :: i in ownership ==> !StaleOwner(Cache(), i)
      ensures r.Ok? ==> forall k :: k in records && Newest(records, k) && records[k].state.Active()
                                    && (records[k].action.LaunchNew? || records[k].action.Restart?)
                                    ==> k.instance in ownership
      ensures Occupied(Cache()) <= old(Occupied(Cache()))
    {
      hide Starts, Ports, Core, AuthorityAgrees, StaleOwner, Newest, Occupied, Adoptable, Adopts;
      var candidates := Unowned();
      r := AdoptAll(candidates);
      if r.Err? { return; }
      forall i | i in ownership
        ensures !StaleOwner(Cache(), i)
      {
        if i in candidates {
          AdoptedRecord(i, ownership[i]);
          AdoptedNotStale(i);
        } else {
          StaleByRow(Tables(records, old(ownership)), Cache(), i);
        }
      }
      forall k | k in records && Newest(records, k) && records[k].state.Active()
                 && (records[k].action.LaunchNew? || records[k].action.Restart?)
        ensures k.instance in ownership
      {
        NamedIsAdoptable(k);
      }
    }

    lemma AdoptedRecord(i: InstanceId, row: Ownership)
      requires Adopts(records, i, row)
      ensures Key(i, row.operation) in records && Newest(records, Key(i, row.operation))
      ensures records[Key(i, row.operation)].state.Active() && row.instance == i
      ensures row.sequence == records[Key(i, row.operation)].sequence
    {
    }

    lemma NamedIsAdoptable(k: Key)
      requires k in records && Newest(records, k) && records[k].state.Active() && NamesProfile(records[k].action)
      ensures Adoptable(records, k, records[k].action.profile)
    {
    }

    method AdoptAll(candidates: map<InstanceId, Ownership>) returns (r: Result<Unit, LifecycleError>)
      requires Valid() && forall i :: i in candidates ==> i !in ownership && Adopts(records, i, candidates[i])
      modifies this`ownership, this`owned, this`nextSequence, journal`ownership, journal`log, journal`faults
      ensures r.Err? <==> Faulted()
      ensures r.Ok? ==> ownership == old(ownership) + candidates
      ensures nextSequence == old(nextSequence)
      ensures Valid() && Extends(0)
      ensures r.Err? ==> WriteRefused(r.error)
      ensures Occupied(Cache()) <= old(Occupied(Cache()))
    {
      hide Starts, Ports, Core, AuthorityAgrees, StaleOwner, Newest, Occupied, Adopts;
      var rest := candidates.Keys;
      while rest != {}
        invariant Valid() && Extends(0) && rest <= candidates.Keys && !Faulted() && nextSequence == old(nextSequence)
        invariant Occupied(Cache()) <= old(Occupied(Cache()))
        invariant ownership == old(ownership) + (candidates - rest)
        decreases rest
      {
        var i :| i in rest;
        AdoptedRecord(i, candidates[i]);
        WithinSequence(Key(i, candidates[i].operation));
        AdoptionOccupies(Cache(), candidates[i]);
        var _ :- PersistOwnership(0, candidates[i]);
        assert candidates - (rest - {i}) == (candidates - rest)[i := candidates[i]];
        rest := rest - {i};
      }
      assert candidates - rest == candidates;
      return Ok(Unit);
    }

    method Unowned() returns (candidates: map<InstanceId, Ownership>)
      requires Core()
      ensures forall i :: i in candidates ==> i !in ownership && Adopts(records, i, candidates[i])
      ensures forall k, p :: Adoptable(records, k, p) ==> k.instance in ownership || k.instance in candidates
    {
      hide Core, ProfileIdIs;
      candidates := map[];
      var rest := set k | k in records :: k.instance;
      while rest != {}
        invariant forall i :: i in candidates ==> i !in ownership && Adopts(records, i, candidates[i])
        invariant forall k, p :: Adoptable(records, k, p) ==>
                    k.instance in ownership || k.instance in candidates || k.instance in rest
        decreases rest
      {
        var i :| i in rest;
        rest := rest - {i};
        if i in ownership { continue; }
        var latest := LatestAuthoritative(i);
        if latest.None? { continue; }
        OnlyNewest(KeyOf(latest.value));
        if !latest.value.state.Active() { continue; }
        var profile := ProfileIdForRecord(latest.value);
        if profile.None? {
          NotAdoptable(KeyOf(latest.value));
          continue;
        }
        var op := latest.value;
        candidates := candidates[i := Ownership(i, op.id, op.sequence, profile.value, op.process)];
      }
    }

    lemma NotAdoptable(k: Key)
      requires k in records && ProfileIdIs(records, records[k], None)
      ensures forall p :: !Adoptable(records, k, p)
    {
    }

    lemma OnlyNewest(k: Key)
      requires Core() && Newest(records, k)
      ensures forall j :: j in records && j.instance == k.instance && Newest(records, j) ==> j == k
    {
    }

    lemma AdoptedNotStale(i: InstanceId)
      requires Core() && i in ownership && Newest(records, Key(i, ownership[i].operation))
      requires records[Key(i, ownership[i].operation)].state.Active()
      ensures !StaleOwner(Cache(), i)
    {
    }

    /** The owner rows fit the configured capacity. */
    lemma OwnersFit()
      requires Core()
      ensures |ownership| <= journal.config.maxProcesses
    {
      SubsetSize(ownership.Keys, Occupied(Cache()));
    }
  }

  lemma UpdateKeepsCall(log: seq<Entry>, e: Entry, c: nat, k: Key)
    requires e.Updated?
    ensures InsertedInCall(log, c, k) ==> InsertedInCall(log + [e], c, k)
    ensures !StartedInCall(log, c) ==> !StartedInCall(log + [e], c)
  {
    var longer := log + [e];
    if InsertedInCall(log, c, k) {
      var j :| 0 <= j < |log| && log[j].Inserted? && log[j].call == c && KeyOf(log[j].op) == k;
      assert longer[j] == log[j];
    }
    if StartedInCall(longer, c) {
      var j :| 0 <= j < |longer| && longer[j].Called? && longer[j].call == c && longer[j].port.StartCall?;
      assert log[j] == longer[j];
    }
  }

  lemma StartedNow(log: seq<Entry>, c: nat, identity: ProcessIdentity)
    requires log != [] && log[|log| - 1].Called? && log[|log| - 1].call == c
    requires log[|log| - 1].port.StartCall? && log[|log| - 1].port.started == Ok(identity)
    ensures JustStarted(log, c, identity)
  {
  }

  lemma StartedLater(log: seq<Entry>, longer: seq<Entry>, c: nat, identity: ProcessIdentity)
    requires JustStarted(log, c, identity) && log <= longer
    ensures JustStarted(longer, c, identity)
  {
    var j :| 0 <= j < |log| && log[j].Called? && log[j].call == c
             && log[j].port.StartCall? && log[j].port.started == Ok(identity);
    assert longer[j] == log[j];
  }

  lemma RefusedNow(log: seq<Entry>, c: nat, op: Operation)
    requires log != [] && log[|log| - 1].Called? && log[|log| - 1].call == c && log[|log| - 1].port.StartCall?
    requires var g := log[|log| - 1].port.generation; g.instance == op.instance && g.operation == op.id
    ensures var started := log[|log| - 1].port.started;
            started.Err? && Explicit(started.error) ==> RefusedInCall(log, c, KeyOf(op))
  {
  }

  lemma StopEnds(log: seq<Entry>, c: nat, handle: Handle, mode: StopMode)
    requires log != [] && log[|log| - 1].Called? && log[|log| - 1].call == c
    requires var port := log[|log| - 1].port; port.StopCall? && port.handle == handle && port.mode == mode && port.stopped.Ok?
    ensures Ended(log, c, handle)
  {
    assert log[|log| - 1].port.stopped.value == Unit;
    SeenLast(log, c, StopCall(handle, mode, Ok(Unit)));
  }

  lemma ExitEnds(log: seq<Entry>, c: nat, handle: Handle)
    requires log != [] && log[|log| - 1].Called? && log[|log| - 1].call == c
    requires log[|log| - 1].port == InspectCall(handle, Ok(Exited))
    ensures Ended(log, c, handle)
  {
    SeenLast(log, c, InspectCall(handle, Ok(Exited)));
  }

  /** Once ended, an empty tree seen next confirms that the process is gone. */
  lemma NowGone(log: seq<Entry>, longer: seq<Entry>, c: nat, handle: Handle)
    requires Ended(log, c, handle) && log <= longer && longer != []
    requires longer[|longer| - 1].Called? && longer[|longer| - 1].call == c
    ensures longer[|longer| - 1].port == DescendantsCall(handle, Ok([])) ==> ConfirmedGone(longer, c, handle)
  {
    hide Seen;
    if Seen(log, c, InspectCall(handle, Ok(Exited))) {
      SeenLater(log, longer, c, InspectCall(handle, Ok(Exited)));
    } else {
      var mode :| Seen(log, c, StopCall(handle, mode, Ok(Unit)));
      SeenLater(log, longer, c, StopCall(handle, mode, Ok(Unit)));
    }
    if longer[|longer| - 1].port == DescendantsCall(handle, Ok([])) {
      SeenLast(longer, c, DescendantsCall(handle, Ok([])));
    }
  }

  lemma SeenLast(log: seq<Entry>, c: nat, port: PortCall)
    requires log != [] && log[|log| - 1].Called? && log[|log| - 1].call == c && log[|log| - 1].port == port
    ensures Seen(log, c, port)
  {
  }

  lemma SeenLater(log: seq<Entry>, longer: seq<Entry>, c: nat, port: PortCall)
    requires Seen(log, c, port) && log <= longer
    ensures Seen(longer, c, port)
  {
    var j :| 0 <= j < |log| && log[j].Called? && log[j].call == c && log[j].port == port;
    assert longer[j] == log[j];
  }

  lemma GovernedLater(cfg: Config, log: seq<Entry>, longer: seq<Entry>, token: nat, c: nat, k: Key, p: Profile)
    requires Governed(cfg, log, token, c, k, p) && log <= longer
    ensures Governed(cfg, longer, token, c, k, p)
  {
    hide Governs, ViewOf;
    var m :| 0 <= m <= |log| && Begun(token, c) in log[..m] && k in ViewOf(log[..m], token).records
             && Governs(cfg, ViewOf(log[..m], token), ViewOf(log[..m], token).records[k], p);
    assert longer[..m] == log[..m];
  }

  lemma PinnedLater(cfg: Config, log: seq<Entry>, longer: seq<Entry>, token: nat, c: nat, i: InstanceId, action: Action, p: Profile)
    requires Pinned(cfg, log, token, c, i, action, p) && log <= longer
    ensures Pinned(cfg, longer, token, c, i, action, p)
  {
    hide Governed;
    if k: Key :| k.instance == i && Governed(cfg, log, token, c, k, p) {
      GovernedLater(cfg, log, longer, token, c, k, p);
    }
  }

  lemma RetainedLater(cfg: Config, log: seq<Entry>, longer: seq<Entry>, token: nat, c: nat, k: Key, identity: ProcessIdentity)
    requires InRetainedProfile(cfg, log, token, c, k, identity) && log <= longer
    ensures InRetainedProfile(cfg, longer, token, c, k, identity)
  {
    hide Seen, Governed;
    var tree, p :| Governed(cfg, log, token, c, k, p)
                   && Seen(log, c, DescendantsCall(identity.handle, Ok(tree))) && InScope(tree, k.instance, p);
    GovernedLater(cfg, log, longer, token, c, k, p);
    SeenLater(log, longer, c, DescendantsCall(identity.handle, Ok(tree)));
  }

  lemma VerifiedBy(cfg: Config, log: seq<Entry>, token: nat, c: nat, k: Key, action: Action, identity: ProcessIdentity,
                   tree: seq<Descendant>, p: Profile)
    requires Pinned(cfg, log, token, c, k.instance, action, p) && identity.Matches(identity.instance, p)
    requires Seen(log, c, IdentityCall(identity.handle, Ok(identity))) && Seen(log, c, InspectCall(identity.handle, Ok(Running)))
    requires Seen(log, c, DescendantsCall(identity.handle, Ok(tree))) && InScope(tree, identity.instance, p)
    ensures Verified(cfg, log, token, c, k, action, identity) && VerifiedIn(log, c, identity, p)
  {
  }

  /** The identity was observed in this call, running, with its whole tree inside exactly this profile. */
  ghost predicate VerifiedIn(log: seq<Entry>, c: nat, identity: ProcessIdentity, p: Profile) {
    && Seen(log, c, IdentityCall(identity.handle, Ok(identity))) && Seen(log, c, InspectCall(identity.handle, Ok(Running)))
    && exists tree :: Seen(log, c, DescendantsCall(identity.handle, Ok(tree))) && InScope(tree, identity.instance, p)
  }

  lemma VerifiedObserved(cfg: Config, log: seq<Entry>, token: nat, c: nat, k: Key, action: Action, identity: ProcessIdentity)
    requires Verified(cfg, log, token, c, k, action, identity)
    ensures Observed(cfg, log, token, c, k, action, identity)
  {
  }

  lemma VerifiedInLater(log: seq<Entry>, longer: seq<Entry>, c: nat, identity: ProcessIdentity, p: Profile)
    requires VerifiedIn(log, c, identity, p) && log <= longer
    ensures VerifiedIn(longer, c, identity, p)
  {
    hide Seen;
    SeenLater(log, longer, c, IdentityCall(identity.handle, Ok(identity)));
    SeenLater(log, longer, c, InspectCall(identity.handle, Ok(Running)));
    var tree :| Seen(log, c, DescendantsCall(identity.handle, Ok(tree))) && InScope(tree, identity.instance, p);
    SeenLater(log, longer, c, DescendantsCall(identity.handle, Ok(tree)));
  }

  lemma ObservedByTree(cfg: Config, log: seq<Entry>, token: nat, c: nat, k: Key, identity: ProcessIdentity,
                       tree: seq<Descendant>, p: Profile)
    requires Governed(cfg, log, token, c, k, p)
    requires Seen(log, c, DescendantsCall(identity.handle, Ok(tree))) && InScope(tree, k.instance, p)
    ensures InRetainedProfile(cfg, log, token, c, k, identity)
  {
  }

  lemma ViewAfterCall(log: seq<Entry>, e: Entry, token: nat)
    requires e.Called? || e.Begun?
    ensures ViewOf(log + [e], token) == ViewOf(log, token)
  {
    assert (log + [e])[..|log|] == log;
    assert log != [] ==> log[..|log|] == log;
  }

  lemma ViewAfterCommit(log: seq<Entry>, e: Entry, token: nat)
    requires !e.Opened?
    ensures Holder(log) == Some(token) ==> ViewOf(log + [e], token) == Commit(ViewOf(log, token), e)
    ensures Holder(log) != Some(token) ==> ViewOf(log + [e], token) == ViewOf(log, token)
  {
    assert (log + [e])[..|log|] == log;
  }

  lemma FreshCall(cfg: Config, log: seq<Entry>, e: Entry)
    requires Legal(cfg, log) && e.Begun?
    requires forall j :: 0 <= j < |log| && log[j].Begun? ==> log[j].call < e.call
    ensures !StartedInCall(log + [e], e.call)
  {
    var longer := log + [e];
    if StartedInCall(longer, e.call) {
      var j :| 0 <= j < |longer| && longer[j].Called? && longer[j].call == e.call && longer[j].port.StartCall?;
      LegalAt(cfg, log, j);
    }
  }

  lemma InsertBelongsToCall(log: seq<Entry>, e: Entry, c: nat)
    requires e.Inserted? && e.call == c
    ensures InsertedInCall(log + [e], c, KeyOf(e.op))
    ensures !StartedInCall(log, c) ==> !StartedInCall(log + [e], c)
  {
    var longer := log + [e];
    assert longer[|log|] == e;
    if StartedInCall(longer, c) {
      var j :| 0 <= j < |longer| && longer[j].Called? && longer[j].call == c && longer[j].port.StartCall?;
      assert log[j] == longer[j];
    }
  }

  lemma OwnerKeepsCall(log: seq<Entry>, longer: seq<Entry>, c: nat, k: Key)
    requires longer == log || (|longer| == |log| + 1 && longer[|log|].OwnerSet? && log <= longer)
    ensures InsertedInCall(log, c, k) ==> InsertedInCall(longer, c, k)
    ensures !StartedInCall(log, c) ==> !StartedInCall(longer, c)
  {
    if InsertedInCall(log, c, k) {
      var j :| 0 <= j < |log| && log[j].Inserted? && log[j].call == c && KeyOf(log[j].op) == k;
      assert longer[j] == log[j];
    }
    if StartedInCall(longer, c) {
      var j :| 0 <= j < |longer| && longer[j].Called? && longer[j].call == c && longer[j].port.StartCall?;
      assert log[j] == longer[j];
    }
  }

  /** The largest sequence of the records, or zero without any. */
  ghost predicate Last(records: map<Key, Operation>, sequence: nat) {
    (forall k :: k in records ==> records[k].sequence <= sequence)
    && (sequence == 0 || exists k :: k in records && records[k].sequence == sequence)
  }

  // ---- aligning owner rows ------------------------------------------------------------------------

  /** A record that names a profile for the process of `op`. */
  predicate NamesForIn(records: map<Key, Operation>, op: Operation, k: Key) {
    op.process.Some? && k in records && k.instance == op.instance && records[k].process == op.process
    && !records[k].state.Rejected? && NamesProfile(records[k].action)
  }

  /** The profile the action names, else that of the latest record naming one for the same process. */
  ghost predicate ProfileIdIs(records: map<Key, Operation>, op: Operation, p: Option<ProfileId>) {
    if NamesProfile(op.action) then p == Some(op.action.profile)
    else
      (p.Some? <==> exists k :: NamesForIn(records, op, k))
      && (p.Some? ==> exists k :: NamesForIn(records, op, k) && p.value == records[k].action.profile
                                  && forall j :: NamesForIn(records, op, j) ==> records[j].sequence <= records[k].sequence)
  }

  /** The newest record of an instance is active, under this profile. */
  ghost predicate Adoptable(records: map<Key, Operation>, k: Key, p: ProfileId) {
    k in records && Newest(records, k) && records[k].state.Active() && ProfileIdIs(records, records[k], Some(p))
  }

  /** The owner row written for an adopted record. */
  ghost predicate Adopts(records: map<Key, Operation>, i: InstanceId, row: Ownership) {
    var k := Key(i, row.operation);
    Adoptable(records, k, row.profile)
    && row == Ownership(i, row.operation, records[k].sequence, row.profile, records[k].process)
  }

  /** Exactly the stale owner rows are gone, and exactly the unowned instances with an active record are adopted. */
  ghost predicate Aligned(before: Tables, after: map<InstanceId, Ownership>) {
    && (forall i :: i in before.ownership ==>
          (i in after <==> !StaleOwner(before, i)) && (i in after ==> after[i] == before.ownership[i]))
    && (forall i :: i in after && i !in before.ownership ==> Adopts(before.records, i, after[i]))
    && (forall k, p :: Adoptable(before.records, k, p) && k.instance !in before.ownership ==> k.instance in after)
  }

  // ---- rebuilding ------------------------------------------------------------------------------

  /** `authority` holds, for each instance with a record, the largest epoch of its records. */
  ghost predicate Gathered(authority: map<InstanceId, Epoch>, seen: map<Key, Operation>) {
    && (forall k :: k in seen ==> k.instance in authority && seen[k].authorityEpoch <= authority[k.instance])
    && (forall i :: i in authority ==>
          exists k :: k in seen && k.instance == i && seen[k].authorityEpoch == authority[i])
  }

  lemma GatherNext(authority: map<InstanceId, Epoch>, seen: map<Key, Operation>, k: Key, op: Operation)
    requires Gathered(authority, seen) && k !in seen
    ensures Gathered(if k.instance !in authority || op.authorityEpoch > authority[k.instance]
                     then authority[k.instance := op.authorityEpoch] else authority, seen[k := op])
  {
    var next := if k.instance !in authority || op.authorityEpoch > authority[k.instance]
                then authority[k.instance := op.authorityEpoch] else authority;
    forall i | i in next
      ensures exists j :: j in seen[k := op] && j.instance == i && seen[k := op][j].authorityEpoch == next[i]
    {
      if i == k.instance && next != authority {
        assert seen[k := op][k] == op;
      } else if i in authority {
        var j :| j in seen && j.instance == i && seen[j].authorityEpoch == authority[i];
        assert seen[k := op][j] == seen[j];
      }
    }
  }

  lemma GatheredAgrees(cfg: Config, authority: map<InstanceId, Epoch>, t: Tables)
    requires Gathered(authority, t.records) && Invariant(cfg, t)
    ensures AuthorityAgrees(authority, t.records)
  {
    forall i
      ensures EpochIs(t.records, i, EpochAt(authority, i))
    {
      if i in authority {
        var k :| k in t.records && k.instance == i && t.records[k].authorityEpoch == authority[i];
        assert t.records[k].requestEpoch >= 1;
      }
    }
  }

  /** The owner row's instance has ended: its latest record is stopped or failed and not older than the row. */
  ghost predicate StaleOwner(t: Tables, i: InstanceId) {
    i in t.ownership
    && exists k :: k in t.records && k.instance == i
         && (t.records[k].state.Stopped? || t.records[k].state.Failed?)
         && (forall j :: j in t.records && j.instance == i ==> t.records[j].sequence <= t.records[k].sequence)
         && t.records[k].sequence >= t.ownership[i].sequence
  }

  lemma StaleByRow(a: Tables, b: Tables, i: InstanceId)
    requires a.records == b.records && i in a.ownership && i in b.ownership && a.ownership[i] == b.ownership[i]
    ensures StaleOwner(a, i) <==> StaleOwner(b, i)
  {
  }

  /** An owner row for a newest active record occupies nothing new. */
  lemma AdoptionOccupies(t: Tables, row: Ownership)
    requires Key(row.instance, row.operation) in t.records && Newest(t.records, Key(row.instance, row.operation))
    requires t.records[Key(row.instance, row.operation)].state.Active()
    ensures Occupied(t.(ownership := t.ownership[row.instance := row])) == Occupied(t)
  {
  }

  ghost predicate ForeignOwner(ownership: map<InstanceId, Ownership>) {
    exists i :: i in ownership && ownership[i].process.Some? && ownership[i].process.value.instance != i
  }
}
