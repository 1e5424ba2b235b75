/**
 The durable record store shared by lifecycle coordinators. Every mutation is one transaction: it
 may fail without effect at any time, and it is refused unless the caller holds the coordinator
 token written by the latest open.
 */
module LifecycleStore {
  import opened Outcomes
  import opened LifecycleTypes
  import opened LifecycleLog

  /** Tokens and call numbers still to be handed out are above those already in the log. */
  ghost predicate Numbered(log: seq<Entry>, nextToken: nat, nextCall: nat) {
    forall j :: 0 <= j < |log| ==>
      (log[j].Opened? ==> log[j].token < nextToken) && (log[j].Begun? ==> log[j].call < nextCall)
  }

  lemma NumberedAppend(log: seq<Entry>, e: Entry, nextToken: nat, nextCall: nat)
    requires Numbered(log, nextToken, nextCall)
    requires (e.Opened? ==> e.token < nextToken) && (e.Begun? ==> e.call < nextCall)
    ensures Numbered(log + [e], nextToken, nextCall)
  {
  }

  class Journal {
    const config: Config
    var records: map<Key, Operation>
    var ownership: map<InstanceId, Ownership>
    var token: Option<nat>
    /** Source of fresh coordinator tokens. */
    var nextToken: nat
    /** Everything coordinators did with this journal and the process port. */
    ghost var log: seq<Entry>
    ghost var nextCall: nat
    /** How often a write failed or was refused. */
    ghost var faults: nat

    function Stored(): Tables
      reads this
    {
      Tables(records, ownership)
    }

    ghost predicate Valid()
      reads this
    {
      && Legal(config, log)
      && Replay(log) == Stored()
      && Holder(log) == token
      && (forall id :: id in config.profiles ==> config.profiles[id].id == id)
      && Numbered(log, nextToken, nextCall)
    }

    constructor (config: Config)
      requires forall id :: id in config.profiles ==> config.profiles[id].id == id
      ensures Valid() && this.config == config && log == [] && Stored() == Tables(map[], map[])
    {
      this.config := config;
      records, ownership, token := map[], map[], None;
      nextToken, nextCall, log, faults := 0, 0, [], 0;
    }

    /** The journal as a crash left it. */
    constructor Restored(config: Config, tables: Tables, holder: Option<nat>, nextToken: nat,
                         ghost log: seq<Entry>, ghost nextCall: nat)
      requires forall id :: id in config.profiles ==> config.profiles[id].id == id
      requires Legal(config, log) && Replay(log) == tables && Holder(log) == holder && Numbered(log, nextToken, nextCall)
      ensures Valid() && this.config == config && this.log == log && Stored() == tables
    {
      this.config := config;
      records, ownership, token := tables.records, tables.ownership, holder;
      this.nextToken, this.nextCall, this.log := nextToken, nextCall, log;
      faults := 0;
    }

    /** Append an entry the history so far permits. */
    ghost method Record(e: Entry)
      requires Legal(config, log) && Permitted(config, log, e)
      requires Numbered(log, nextToken, nextCall)
      requires e.Opened? ==> e.token < nextToken
      requires e.Begun? ==> e.call < nextCall
      modifies this`log
      ensures log == old(log) + [e] && Legal(config, log)
      ensures Replay(log) == Commit(Replay(old(log)), e)
      ensures Holder(log) == if e.Opened? then Some(e.token) else Holder(old(log))
      ensures Numbered(log, nextToken, nextCall)
    {
      LegalAppend(config, log, e);
      NumberedAppend(log, e, nextToken, nextCall);
      log := log + [e];
    }

    /** Replace the coordinator token, fencing every earlier opener. */
    method TakeToken() returns (mine: nat)
      requires Valid()
      modifies this`token, this`nextToken, this`log
      ensures Valid() && token == Some(mine) && mine == old(nextToken) && nextToken == mine + 1
      ensures log == old(log) + [Opened(mine)]
    {
      mine := nextToken;
      nextToken := nextToken + 1;
      token := Some(mine);
      Record(Opened(mine));
    }

    ghost method BeginCall(mine: nat) returns (call: nat)
      requires Valid()
      modifies this`nextCall, this`log
      ensures Valid() && log == old(log) + [Begun(mine, call)]
      ensures forall j :: 0 <= j < |old(log)| && old(log)[j].Begun? ==> old(log)[j].call < call
    {
      call := nextCall;
      nextCall := nextCall + 1;
      Record(Begun(mine, call));
    }

    /** The outcome of a write; every failure is counted. */
    ghost method Count(ok: bool)
      modifies this`faults
      ensures faults == if ok then old(faults) else old(faults) + 1
    {
      if !ok { faults := faults + 1; }
    }

    /** A new active record is refused while the newest one is in flight; a launch also while anything is active or owned. */
    ghost predicate AdmitsInsert(op: Operation)
      reads this
    {
      op.state.Active() ==>
        (forall k :: k in records && k.instance == op.instance && Newest(records, k) ==>
           var s := records[k].state;
           !(s.IntentRecorded? || s.Starting? || s.Stopping? || s.Restarting?)
           && (op.action.LaunchNew? ==> !s.Active()))
        && (op.action.LaunchNew? ==> op.instance !in ownership)
    }

    method Insert(mine: nat, ghost call: nat, op: Operation) returns (r: Result<Unit, StoreError>)
      requires Valid()
      requires token == Some(mine) && KeyOf(op) !in records ==> Permitted(config, log, Inserted(mine, call, op))
      modifies this`records, this`log, this`faults
      ensures Valid() && faults >= old(faults) && (r.Err? <==> faults > old(faults))
      ensures r.Err? ==> records == old(records) && log == old(log)
      ensures r.Err? ==> r.error == Database
                         || (r.error == Conflict && (token != Some(mine) || KeyOf(op) in old(records) || !old(AdmitsInsert(op))))
      ensures r.Ok? ==> token == Some(mine) && KeyOf(op) !in old(records) && old(AdmitsInsert(op))
                        && records == old(records)[KeyOf(op) := op]
                        && log == old(log) + [Inserted(mine, call, op)]
    {
      hide Legal, Replay, Holder, Permitted, Numbered;
      var down: bool := *;
      var inFlight := exists k :: k in records && k.instance == op.instance && Newest(records, k)
                                  && (records[k].state.IntentRecorded? || records[k].state.Starting?
                                      || records[k].state.Stopping? || records[k].state.Restarting?
                                      || (op.action.LaunchNew? && records[k].state.Active()));
      var refused := token != Some(mine) || KeyOf(op) in records
                     || (op.state.Active() && (inFlight || (op.action.LaunchNew? && op.instance in ownership)));
      Count(!down && !refused);
      if down { return Err(Database); }
      if refused { return Err(Conflict); }
      Record(Inserted(mine, call, op));
      records := records[KeyOf(op) := op];
      return Ok(Unit);
    }

    method Update(mine: nat, ghost call: nat, op: Operation) returns (r: Result<Unit, StoreError>)
      requires Valid()
      requires token == Some(mine) && KeyOf(op) in records ==> Permitted(config, log, Updated(mine, call, op))
      modifies this`records, this`log, this`faults
      ensures Valid() && faults >= old(faults) && (r.Err? <==> faults > old(faults))
      ensures r.Err? ==> records == old(records) && log == old(log)
      ensures r.Err? ==> r.error == Database || (r.error == Conflict && token != Some(mine))
                         || (r.error == NotFound && KeyOf(op) !in old(records))
      ensures r.Ok? ==> token == Some(mine) && KeyOf(op) in old(records)
                        && records == old(records)[KeyOf(op) := op]
                        && log == old(log) + [Updated(mine, call, op)]
    {
      var down: bool := *;
      Count(!down && token == Some(mine) && KeyOf(op) in records);
      if down { return Err(Database); }
      if token != Some(mine) { return Err(Conflict); }
      if KeyOf(op) !in records { return Err(NotFound); }
      Record(Updated(mine, call, op));
      records := records[KeyOf(op) := op];
      return Ok(Unit);
    }

    /** An owner row needs an active record, and may replace another operation's row only by a newer non-launch. */
    ghost predicate AdmitsOwner(row: Ownership)
      reads this
    {
      var k := Key(row.instance, row.operation);
      k in records && records[k].state.Active()
      && (row.instance in ownership ==>
            var current := ownership[row.instance];
            if current.operation != row.operation
            then !records[k].action.LaunchNew? && Precedes(current, row)
            else row.sequence >= current.sequence)
    }

    /** The candidate is the newer of two owners: by sequence, which ranks above none, then by operation id. */
    static predicate Precedes(current: Ownership, candidate: Ownership): (r: bool)
      ensures r <==> current.sequence < candidate.sequence
                     || (current.sequence == 0 == candidate.sequence && current.operation < candidate.operation)
    {
      if current.sequence == 0 && candidate.sequence == 0 then candidate.operation > current.operation
      else if current.sequence == 0 then true
      else if candidate.sequence == 0 then false
      else candidate.sequence > current.sequence
    }

    method SetOwnership(mine: nat, row: Ownership) returns (r: Result<Unit, StoreError>)
      requires Valid()
      requires token == Some(mine) && AdmitsOwner(row) ==> Permitted(config, log, OwnerSet(mine, row))
      modifies this`ownership, this`log, this`faults
      ensures Valid() && faults >= old(faults) && (r.Err? <==> faults > old(faults))
      ensures r.Err? ==> ownership == old(ownership) && log == old(log)
      ensures r.Err? ==> r.error == Database || (r.error == Conflict && (token != Some(mine) || !old(AdmitsOwner(row))))
      ensures r.Ok? ==> token == Some(mine) && old(AdmitsOwner(row))
                        && ownership == old(ownership)[row.instance := row]
                        && log == old(log) + [OwnerSet(mine, row)]
    {
      var down: bool := *;
      var k := Key(row.instance, row.operation);
      var held := k in records && records[k].state.Active();
      var later := row.instance !in ownership
                   || (if ownership[row.instance].operation == row.operation
                       then row.sequence >= ownership[row.instance].sequence
                       else held && !records[k].action.LaunchNew? && Precedes(ownership[row.instance], row));
      var refused := token != Some(mine) || !held || !later;
      Count(!down && !refused);
      if down { return Err(Database); }
      if refused { return Err(Conflict); }
      Record(OwnerSet(mine, row));
      ownership := ownership[row.instance := row];
      return Ok(Unit);
    }

    /** Delete an owner row only if it still is the expected one. */
    method ClearOwnershipIf(mine: nat, expected: Ownership) returns (r: Result<Unit, StoreError>)
      requires Valid()
      modifies this`ownership, this`log, this`faults
      ensures Valid() && faults >= old(faults) && (r.Err? <==> faults > old(faults))
      ensures r.Err? ==> ownership == old(ownership) && log == old(log)
      ensures r.Err? ==> r.error == Database
                         || (r.error == Conflict
                             && (token != Some(mine)
                                 || (expected.instance in old(ownership) && old(ownership)[expected.instance] != expected)))
      ensures r.Ok? ==> token == Some(mine)
                        && (expected.instance in old(ownership) ==> old(ownership)[expected.instance] == expected)
                        && ownership == old(ownership) - {expected.instance}
                        && log == if expected.instance in old(ownership)
                                  then old(log) + [OwnerCleared(mine, expected.instance)] else old(log)
    {
      var down: bool := *;
      var refused := token != Some(mine) || (expected.instance in ownership && ownership[expected.instance] != expected);
      Count(!down && !refused);
      if down { return Err(Database); }
      if refused { return Err(Conflict); }
      if expected.instance in ownership {
        Record(OwnerCleared(mine, expected.instance));
        ownership := ownership - {expected.instance};
      }
      return Ok(Unit);
    }
  }
}
