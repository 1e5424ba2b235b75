/**
 Two concrete histories that mark the edge of the lifecycle results: a store that can never be opened
 again, and a coordinator that goes on acting after it was fenced off.
 */
module LifecycleWitnesses {
  import opened Outcomes
  import opened LifecycleTypes
  import opened LifecycleLog
  import opened LifecycleTheorems
  import opened Lifecycle

  const Setup: Config := Config(1, 3, 1, map[1 := Profile(1, 10, 20, 0)])
  const Bound: LeaseProof := LeaseProof(1, 0, 0, 0, 1)
  const K: Key := Key(1, 1)

  /** The launch record of instance 1 in a state, with a process. */
  function Launch(state: OpState, process: Option<ProcessIdentity>, why: Option<Failure>): Operation {
    Operation(1, 1, Bound, 1, 1, 1, LaunchNew(1), state, process, why)
  }

  function Row(process: Option<ProcessIdentity>): Ownership {
    Ownership(1, 1, 1, 1, process)
  }

  function Kept(op: Operation, process: Option<ProcessIdentity>): Tables {
    Tables(map[K := op], map[1 := Row(process)])
  }

  const Attempt: Generation := Generation(1, 1, 1, 1, 1, 1, LaunchGeneration)
  const Intent: Operation := Launch(IntentRecorded, None, None)
  const Begin: Operation := Launch(Starting, None, None)

  /** Open, record the intent, reserve the instance, mark it starting. */
  const Opening: seq<Entry> :=
    [Opened(0), Begun(0, 0), Inserted(0, 0, Intent), OwnerSet(0, Row(None)), Updated(0, 0, Begin)]

  /** The start returns `who`, stopping it fails, and the owner row keeps it. */
  function Stuck(who: ProcessIdentity): seq<Entry> {
    Opening
    + [Called(0, 0, Begin, StartCall(Attempt, 1, 1, Ok(who)))]
    + [Called(0, 0, Begin, StopCall(who.handle, Force, Err(StopFailed)))]
    + [OwnerSet(0, Row(Some(who)))]
  }

  lemma OnlyRecord(op: Operation)
    requires KeyOf(op) == K && !op.state.Rejected?
    ensures Newest(map[K := op], K)
    ensures op.state.Active() ==> Acts(Tables(map[K := op], map[]), op)
  {
  }

  /** A legal history with these tables, this holder, and this view of coordinator 0. */
  ghost predicate Stands(log: seq<Entry>, t: Tables, holder: nat, view: Tables) {
    Legal(Setup, log) && Replay(log) == t && Holder(log) == Some(holder) && ViewOf(log, 0) == view
  }

  lemma Then(log: seq<Entry>, t: Tables, holder: nat, view: Tables, e: Entry, u: Tables)
    requires Stands(log, t, holder, view) && Permitted(Setup, log, e) && u == Commit(t, e) && !e.Opened?
    ensures Stands(log + [e], u, holder, if holder == 0 then u else view)
  {
    hide Legal, Replay, Permitted, Invariant, Commit;
    LegalAppend(Setup, log, e);
    assert (log + [e])[..|log|] == log;
  }

  /** A port call that neither starts nor stops. */
  lemma ThenLook(log: seq<Entry>, t: Tables, holder: nat, view: Tables, token: nat, call: nat, op: Operation, port: PortCall)
    requires Stands(log, t, holder, view) && Begun(token, call) in log && !port.StartCall? && !port.StopCall?
    requires token == 0 || token == holder
    requires Acts(if token == holder then t else view, op)
    ensures Stands(log + [Called(token, call, op, port)], t, holder, view)
    ensures Seen(log + [Called(token, call, op, port)], call, port)
  {
    hide Acts, Legal, Replay, Invariant;
    var e := Called(token, call, op, port);
    assert Holder(log) == Some(0) ==> ViewOf(log, 0) == Replay(log);
    assert Permitted(Setup, log, e);
    Then(log, t, holder, view, e, t);
    SeenLast(log + [e], call, port);
  }

  lemma OpeningStands()
    ensures Stands(Opening, Kept(Begin, None), 0, Kept(Begin, None))
    ensures Begun(0, 0) in Opening && InsertedInCall(Opening, 0, K) && !StartedInCall(Opening, 0)
  {
    var a := [Opened(0)];
    var b := a + [Begun(0, 0)];
    var c := b + [Inserted(0, 0, Intent)];
    var d := c + [OwnerSet(0, Row(None))];
    var none := Tables(map[], map[]);
    var intended := Tables(map[K := Intent], map[]);
    assert Stands(a, none, 0, none) by {
      assert a[..0] == [];
      LegalAppend(Setup, [], Opened(0));
      assert [] + [Opened(0)] == a;
    }
    hide Stands;
    BeginStands(a, none);
    InsertStands(b, none, intended);
    OwnerStands(c, intended, Tables(map[K := Intent], map[1 := Row(None)]), Intent, Row(None));
    BeginningStands(d);
    assert Opening == d + [Updated(0, 0, Begin)];
    assert Opening[1] == Begun(0, 0) && Opening[2] == Inserted(0, 0, Intent);
  }

  lemma BeginStands(log: seq<Entry>, t: Tables)
    requires Stands(log, t, 0, t) && log == [Opened(0)]
    ensures Stands(log + [Begun(0, 0)], t, 0, t)
  {
    hide Legal, Replay, Holder, ViewOf;
    Then(log, t, 0, t, Begun(0, 0), t);
  }

  lemma InsertStands(log: seq<Entry>, t: Tables, u: Tables)
    requires Stands(log, t, 0, t) && t == Tables(map[], map[]) && u == Tables(map[K := Intent], map[])
    requires log == [Opened(0)] + [Begun(0, 0)]
    ensures Stands(log + [Inserted(0, 0, Intent)], u, 0, u)
  {
    assert Occupied(t) == {};
    assert MayInsert(Setup, t, Intent);
    hide Legal, Replay, ViewOf, MayInsert, Occupied;
    assert log[1] == Begun(0, 0);
    InsertPermitted(Setup, log, 0, 0, Intent);
    Then(log, t, 0, t, Inserted(0, 0, Intent), u);
  }

  lemma OwnerStands(log: seq<Entry>, t: Tables, u: Tables, op: Operation, row: Ownership)
    requires Stands(log, t, 0, t) && KeyOf(op) == K && op.state.Active() && op.sequence == 1
    requires t.records == map[K := op] && (1 in t.ownership ==> t.ownership[1].sequence == 1)
    requires row.instance == 1 && row.operation == 1 && row.sequence == 1
    requires u == t.(ownership := t.ownership[1 := row])
    ensures Stands(log + [OwnerSet(0, row)], u, 0, u)
  {
    OnlyRecord(op);
    hide Legal, Replay, ViewOf;
    OwnerPermitted(Setup, log, 0, row);
    Then(log, t, 0, t, OwnerSet(0, row), u);
  }

  lemma BeginningStands(log: seq<Entry>)
    requires var t := Tables(map[K := Intent], map[1 := Row(None)]); Stands(log, t, 0, t)
    ensures Stands(log + [Updated(0, 0, Begin)], Kept(Begin, None), 0, Kept(Begin, None))
  {
    var t := Tables(map[K := Intent], map[1 := Row(None)]);
    OnlyRecord(Intent);
    hide Legal, Replay, ViewOf;
    UpdatePermitted(Setup, log, 0, 0, Begin);
    assert t.records[K := Begin] == map[K := Begin];
    Then(log, t, 0, t, Updated(0, 0, Begin), Kept(Begin, None));
  }

  lemma StuckStands(who: ProcessIdentity)
    ensures Stands(Stuck(who), Kept(Begin, Some(who)), 0, Kept(Begin, Some(who)))
    ensures Begun(0, 0) in Stuck(who)
  {
    hide Stands;
    var t := Kept(Begin, None);
    var e := Called(0, 0, Begin, StartCall(Attempt, 1, 1, Ok(who)));
    var f := Called(0, 0, Begin, StopCall(who.handle, Force, Err(StopFailed)));
    OpeningStands();
    StartStands(Opening, who);
    StopStands(Opening + [e], who);
    assert t.ownership[1 := Row(Some(who))] == map[1 := Row(Some(who))];
    OwnerStands(Opening + [e] + [f], t, Kept(Begin, Some(who)), Begin, Row(Some(who)));
    assert Stuck(who)[1] == Begun(0, 0);
  }

  lemma StartStands(log: seq<Entry>, who: ProcessIdentity)
    requires Stands(log, Kept(Begin, None), 0, Kept(Begin, None))
    requires Begun(0, 0) in log && InsertedInCall(log, 0, K) && !StartedInCall(log, 0)
    ensures Stands(log + [Called(0, 0, Begin, StartCall(Attempt, 1, 1, Ok(who)))], Kept(Begin, None), 0, Kept(Begin, None))
    ensures JustStarted(log + [Called(0, 0, Begin, StartCall(Attempt, 1, 1, Ok(who)))], 0, who)
    ensures Begun(0, 0) in log + [Called(0, 0, Begin, StartCall(Attempt, 1, 1, Ok(who)))]
  {
    var t := Kept(Begin, None);
    var e := Called(0, 0, Begin, StartCall(Attempt, 1, 1, Ok(who)));
    OnlyRecord(Begin);
    hide Legal, Replay, ViewOf, Holder, InsertedInCall, StartedInCall;
    assert Permitted(Setup, log, e);
    Then(log, t, 0, t, e, t);
    StartedNow(log + [e], 0, who);
  }

  lemma StopStands(log: seq<Entry>, who: ProcessIdentity)
    requires Stands(log, Kept(Begin, None), 0, Kept(Begin, None)) && Begun(0, 0) in log && JustStarted(log, 0, who)
    ensures Stands(log + [Called(0, 0, Begin, StopCall(who.handle, Force, Err(StopFailed)))], Kept(Begin, None), 0, Kept(Begin, None))
  {
    var t := Kept(Begin, None);
    var e := Called(0, 0, Begin, StopCall(who.handle, Force, Err(StopFailed)));
    OnlyRecord(Begin);
    hide Legal, Replay, ViewOf, Holder, JustStarted, Observed;
    assert StopFence(Setup, log, 0, 0, Begin, who.handle);
    assert Permitted(Setup, log, e);
    Then(log, t, 0, t, e, t);
  }

  const Foreign: ProcessIdentity := ProcessIdentity(2, 5, 6, 7, Some(10), Some(20))

  /**
   A start that returns a process of another instance, which then cannot be stopped, leaves an owner row
   that every later opening refuses.
   */
  lemma ForeignOwnerIsReachable()
    ensures Legal(Setup, Stuck(Foreign)) && ForeignOwner(Replay(Stuck(Foreign)).ownership)
  {
    hide Legal, Replay, ViewOf, Holder;
    StuckStands(Foreign);
    var rows := Replay(Stuck(Foreign)).ownership;
    assert 1 in rows && rows[1].process == Some(Foreign);
  }

  // ---- a fenced coordinator that stops --------------------------------------------------------

  /** A process of instance 1 that does not match the profile's executable. */
  const Odd: ProcessIdentity := ProcessIdentity(1, 5, 6, 7, Some(99), Some(20))
  const Block: Operation := Launch(Blocked, Some(Odd), Some(ProcessFailure(StopFailed)))
  const End: Operation := Launch(Failed, None, Some(IdentityMismatch))

  function Look(token: nat, call: nat, port: PortCall): Entry {
    Called(token, call, Block, port)
  }

  const SawOdd: PortCall := IdentityCall(5, Ok(Odd))
  const SawNobody: PortCall := DescendantsCall(5, Ok([]))

  /** Coordinator 0 keeps the cleanup obligation; coordinator 1 opens the journal and starts to reconcile it. */
  const Fenced: seq<Entry> := Stuck(Odd) + [Updated(0, 0, Block)] + [Opened(1)] + [Begun(1, 1)]

  /** Coordinator 1 finds the process exited and ends the operation. */
  const Closed: seq<Entry> :=
    Fenced + [Look(1, 1, SawOdd)] + [Look(1, 1, InspectCall(5, Ok(Exited)))] + [Look(1, 1, SawNobody)]
    + [Updated(1, 1, End)]

  /** Coordinator 0, from its old view, sees the process running. */
  const Late: seq<Entry> :=
    Closed + [Begun(0, 2)] + [Look(0, 2, SawOdd)] + [Look(0, 2, SawNobody)] + [Look(0, 2, InspectCall(5, Ok(Running)))]

  const LateStop: Entry := Look(0, 2, StopCall(5, Force, Ok(Unit)))

  lemma BlockActs()
    ensures Acts(Kept(Block, Some(Odd)), Block) && Newest(map[K := Block], K) && Newest(map[K := Begin], K)
  {
    OnlyRecord(Block);
    OnlyRecord(Begin);
  }

  lemma FencedStands()
    ensures Stands(Fenced, Kept(Block, Some(Odd)), 1, Kept(Block, Some(Odd)))
    ensures Begun(1, 1) in Fenced && forall j :: 0 <= j < |Fenced| && Fenced[j].Begun? ==> Fenced[j].call != 2
  {
    var log := Stuck(Odd);
    var t, u := Kept(Begin, Some(Odd)), Kept(Block, Some(Odd));
    StuckStands(Odd);
    BlockActs();
    hide Legal, Replay, ViewOf;
    UpdatePermitted(Setup, log, 0, 0, Block);
    assert t.records[K := Block] == map[K := Block];
    Then(log, t, 0, t, Updated(0, 0, Block), u);
    var blocked := log + [Updated(0, 0, Block)];
    OpenedStands(blocked, u);
    var open := blocked + [Opened(1)];
    hide Stands;
    SecondBegins(open, u);
    assert Fenced == open + [Begun(1, 1)];
    assert Fenced[10] == Begun(1, 1);
  }

  lemma OpenedStands(log: seq<Entry>, t: Tables)
    requires Stands(log, t, 0, t) && forall j :: 0 <= j < |log| && log[j].Opened? ==> log[j].token == 0
    ensures Stands(log + [Opened(1)], t, 1, t)
  {
    hide Legal, Replay, Invariant;
    LegalAppend(Setup, log, Opened(1));
    assert (log + [Opened(1)])[..|log|] == log;
  }

  lemma SecondBegins(log: seq<Entry>, t: Tables)
    requires Stands(log, t, 1, t) && forall j :: 0 <= j < |log| && log[j].Begun? ==> log[j].call == 0
    ensures Stands(log + [Begun(1, 1)], t, 1, t)
  {
    hide Legal, Replay, Holder, ViewOf;
    Then(log, t, 1, t, Begun(1, 1), t);
  }

  lemma ClosedStands()
    ensures Stands(Closed, Tables(map[K := End], map[1 := Row(Some(Odd))]), 1, Kept(Block, Some(Odd)))
    ensures forall j :: 0 <= j < |Closed| && Closed[j].Begun? ==> Closed[j].call != 2
  {
    var t := Kept(Block, Some(Odd));
    FencedStands();
    BlockActs();
    hide Stands, Acts, Newest, Seen;
    var a := Fenced + [Look(1, 1, SawOdd)];
    var b := a + [Look(1, 1, InspectCall(5, Ok(Exited)))];
    var c := b + [Look(1, 1, SawNobody)];
    ThenLook(Fenced, t, 1, t, 1, 1, Block, SawOdd);
    assert Begun(1, 1) in a;
    ThenLook(a, t, 1, t, 1, 1, Block, InspectCall(5, Ok(Exited)));
    assert Begun(1, 1) in b;
    ThenLook(b, t, 1, t, 1, 1, Block, SawNobody);
    ExitEnds(b, 1, 5);
    NowGone(b, c, 1, 5);
    EndStands(c);
    assert Closed == c + [Updated(1, 1, End)];
  }

  lemma EndStands(log: seq<Entry>)
    requires Stands(log, Kept(Block, Some(Odd)), 1, Kept(Block, Some(Odd))) && ConfirmedGone(log, 1, 5)
    ensures Stands(log + [Updated(1, 1, End)], Tables(map[K := End], map[1 := Row(Some(Odd))]), 1, Kept(Block, Some(Odd)))
  {
    var t := Kept(Block, Some(Odd));
    BlockActs();
    hide Legal, Replay, ViewOf, ConfirmedGone, Verified;
    UpdatePermitted(Setup, log, 1, 1, End);
    assert t.records[K := End] == map[K := End];
    Then(log, t, 1, t, Updated(1, 1, End), Tables(map[K := End], map[1 := Row(Some(Odd))]));
  }

  lemma LateStands()
    ensures Stands(Late, Tables(map[K := End], map[1 := Row(Some(Odd))]), 1, Kept(Block, Some(Odd)))
    ensures Begun(0, 2) in Late && Seen(Late, 2, SawOdd) && Seen(Late, 2, SawNobody)
  {
    var t, view := Tables(map[K := End], map[1 := Row(Some(Odd))]), Kept(Block, Some(Odd));
    ClosedStands();
    BlockActs();
    var a := Closed + [Begun(0, 2)];
    assert Stands(a, t, 1, view) by {
      hide Legal, Replay, Holder, ViewOf;
      Then(Closed, t, 1, view, Begun(0, 2), t);
    }
    hide Stands, Acts, Newest, Seen;
    var b := a + [Look(0, 2, SawOdd)];
    var c := b + [Look(0, 2, SawNobody)];
    assert a[|Closed|] == Begun(0, 2);
    ThenLook(a, t, 1, view, 0, 2, Block, SawOdd);
    assert b[|Closed|] == Begun(0, 2);
    ThenLook(b, t, 1, view, 0, 2, Block, SawNobody);
    assert c[|Closed|] == Begun(0, 2);
    ThenLook(c, t, 1, view, 0, 2, Block, InspectCall(5, Ok(Running)));
    assert Late == c + [Look(0, 2, InspectCall(5, Ok(Running)))];
    assert Late[|Closed|] == Begun(0, 2);
    SeenLater(b, Late, 2, SawOdd);
    SeenLater(c, Late, 2, SawNobody);
  }

  lemma LateStopIsFenced()
    ensures StopFence(Setup, Late, 0, 2, Block, 5)
  {
    var p := Setup.profiles[1];
    LateStands();
    hide Legal, Replay, Holder, Seen;
    assert Late[..|Late|] == Late;
    assert Governs(Setup, ViewOf(Late, 0), ViewOf(Late, 0).records[K], p);
    assert Governed(Setup, Late, 0, 2, K, p);
    ObservedByTree(Setup, Late, 0, 2, K, Odd, [], p);
    assert Observed(Setup, Late, 0, 2, K, Block.action, Odd);
  }

  /**
   A coordinator that was fenced off still stops, from its old view, for an operation that has ended
   since. The stop keeps every fence its view can know.
   */
  lemma FencedCoordinatorMayStop()
    ensures Legal(Setup, Late + [LateStop]) && Holder(Late) == Some(1) && LateStop.token == 0
    ensures Closed <= Late && K in Replay(Closed).records && Replay(Closed).records[K].state == Failed
    ensures KeyOf(LateStop.view) == K && LateStop.view.sequence == Replay(Closed).records[K].sequence
  {
    hide Legal, Replay, ViewOf, Holder, Permitted;
    ClosedStands();
    LateStands();
    LateStopPermitted(Late);
    LegalAppend(Setup, Late, LateStop);
    LateFollows(Closed);
  }

  lemma LateStopPermitted(log: seq<Entry>)
    requires Stands(log, Tables(map[K := End], map[1 := Row(Some(Odd))]), 1, Kept(Block, Some(Odd)))
    requires log == Late && Begun(0, 2) in log
    ensures Permitted(Setup, log, LateStop)
  {
    LateStopIsFenced();
    BlockActs();
    hide Legal, Replay, ViewOf, Holder, Acts, StopFence;
  }

  lemma LateFollows(log: seq<Entry>)
    requires log == Closed
    ensures log <= Late
  {
    assert Late == log + ([Begun(0, 2)] + [Look(0, 2, SawOdd)] + [Look(0, 2, SawNobody)]
                          + [Look(0, 2, InspectCall(5, Ok(Running)))]);
  }
}
