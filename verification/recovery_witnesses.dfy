/**
 Two concrete histories that mark the edge of the results: what a renewal clock that runs backwards
 does to the renewal sequence, and what an imported historical ticket does to ticket deadlines.
 */
module RecoveryWitnesses {
  import opened Outcomes
  import opened RecoveryTypes
  import opened RecoveryLog
  import opened RecoveryTheorems
  import opened RecoveryLedger

  const Policy: Config := Config(1, 1, 30, 10)
  const Start: Boot := Boot(1, 1, 1, 1, 1, 0, 0, FenceRequired)
  const Mark: FenceRef := FenceRef(7, 1)
  const First: Lease :=
    Lease(5, 1, 1, 1, 1, 1, 1, 9, 0, 30_000, 30, 10, 0, 2, 3, Active, None, NoHost)
  const Holder: Proof := Proof(1, 1, 1, 1, 1, 5, 1, 9)

  /** Boot, fence and acquire the first lease. */
  const Opening: seq<Entry> := [Booted(Start, false), Fenced(Mark, 0), Acquired(First)]

  const Opened: Tables :=
    Tables(Some(Authority(Start.(state := Ready), Some(Mark), 0)), map[5 := First], map[], map[], map[], map[])

  lemma Append(log: seq<Entry>, t: Tables, e: Entry, u: Tables)
    requires Legal(Policy, log) && Replay(log) == t && Permitted(Policy, t, e) && u == Commit(t, e)
    ensures Legal(Policy, log + [e]) && Replay(log + [e]) == u
  {
    hide Permitted, Commit;
    LegalAppend(Policy, log, e);
  }

  lemma OpeningIsLegal()
    ensures Legal(Policy, Opening) && Replay(Opening) == Opened
  {
    var booted := Tables(Some(Authority(Start, None, 0)), map[], map[], map[], map[], map[]);
    var fenced := booted.(authority := Opened.authority);
    assert booted == Commit(Empty, Booted(Start, false));
    Append([], Empty, Booted(Start, false), booted);
    Append([Booted(Start, false)], booted, Fenced(Mark, 0), fenced);
    Append([Booted(Start, false), Fenced(Mark, 0)], fenced, Acquired(First), Opened);
    assert Opening == [] + [Booted(Start, false)] + [Fenced(Mark, 0)] + [Acquired(First)];
  }

  lemma StepLease(log: seq<Entry>, row: Lease, step: LeaseStep)
    requires Legal(Policy, log) && Replay(log) == Opened.(leases := map[5 := row])
    requires StepAllowed(Opened.(leases := map[5 := row]), 5, step)
    ensures Legal(Policy, log + [LeaseStepped(5, step)])
    ensures Replay(log + [LeaseStepped(5, step)]) == Opened.(leases := map[5 := LeaseAfter(row, step)])
  {
    var t := Opened.(leases := map[5 := row]);
    assert map[5 := row][5 := LeaseAfter(row, step)] == map[5 := LeaseAfter(row, step)];
    Append(log, t, LeaseStepped(5, step), t.(leases := map[5 := LeaseAfter(row, step)]));
  }

  const Backwards: seq<LeaseStep> :=
    [PrepareInstall(4, 6, Mark, 0), AckInstall(4, 6, 1, Ack(8, 0)), PrepareRenew(Holder, 1, 20_000),
     Renew(Holder, 2, 10_000), CommitRenew(4, 6, Pending(1, 50_000), 1, Ack(8, 0))]

  /** The opening followed by the first `n` of those steps. */
  function Story(n: nat): (log: seq<Entry>)
    requires n <= |Backwards|
    ensures |log| == 3 + n
  {
    if n == 0 then Opening else Story(n - 1) + [LeaseStepped(5, Backwards[n - 1])]
  }

  function Row(n: nat): Lease
    requires n <= |Backwards|
  {
    if n == 0 then First else LeaseAfter(Row(n - 1), Backwards[n - 1])
  }

  /** The row after each step, written out. */
  lemma RowsWrittenOut()
    ensures var bound := Host(PendingInstall, Some(Mark), Some(4), Some(6), 0, 0, None, None);
            var live := bound.(state := Installed, generation := 1, ack := Some(Ack(8, 0)));
            var waiting := live.(state := PendingRenew, pending := Some(Pending(1, 50_000)));
            Row(1) == First.(host := bound) && Row(2) == First.(host := live) && Row(3) == First.(host := waiting)
            && Row(4) == First.(host := waiting, expiresAt := 40_000, lastRenew := 2)
            && Row(5) == First.(host := live.(renewSequence := 1), expiresAt := 50_000, lastRenew := 1)
  {
    assert Row(1) == LeaseAfter(First, Backwards[0]);
    assert Row(2) == LeaseAfter(Row(1), Backwards[1]);
    assert Row(3) == LeaseAfter(Row(2), Backwards[2]);
    assert Row(4) == LeaseAfter(Row(3), Backwards[3]);
  }

  lemma Allowed(n: nat)
    requires n < |Backwards|
    ensures StepAllowed(Opened.(leases := map[5 := Row(n)]), 5, Backwards[n])
  {
    RowsWrittenOut();
    assert n == 0 || n == 1 || n == 2 || n == 3 || n == 4;
  }

  lemma {:induction false} StoryIsLegal(n: nat)
    requires n <= |Backwards|
    ensures Legal(Policy, Story(n)) && Replay(Story(n)) == Opened.(leases := map[5 := Row(n)])
  {
    hide Legal, Replay, StepAllowed, LeaseAfter;
    if n == 0 {
      OpeningIsLegal();
    } else {
      StoryIsLegal(n - 1);
      Allowed(n - 1);
      StepLease(Story(n - 1), Row(n - 1), Backwards[n - 1]);
    }
  }

  lemma StoryRunsBackwards()
    ensures forall c :: !RenewClock(Story(5), c)
  {
    assert Story(5)[..7] == Story(4) && Story(4)[..6] == Story(3) && Story(5)[7] == LeaseStepped(5, Backwards[4]);
    assert Story(4)[6] == LeaseStepped(5, Backwards[3]) && Story(3)[5] == LeaseStepped(5, Backwards[2]);
    assert !RenewClock(Story(3), 10_000);
    assert forall c :: !RenewClock(Story(4), c);
  }

  /**
   The host renewal is prepared at 20 s and a local renewal arrives with an earlier clock reading, 10 s:
   completing the host renewal lowers the renewal sequence from 2 to 1. The deadline still only moves
   forward.
   */
  lemma BackwardClockLowersRenewSequence()
    ensures Legal(Policy, Story(5)) && forall c :: !RenewClock(Story(5), c)
    ensures At(Story(5), 7).leases == map[5 := Row(4)] && Row(4).lastRenew == 2 && Row(4).expiresAt == 40_000
    ensures At(Story(5), 8).leases == map[5 := Row(5)] && Row(5).lastRenew == 1 && Row(5).expiresAt == 50_000
  {
    hide Legal, Replay, LeaseAfter, RenewClock;
    StoryIsLegal(4);
    StoryIsLegal(5);
    assert Story(5)[..7] == Story(4) && Story(5)[..8] == Story(5);
    RowsWrittenOut();
    StoryRunsBackwards();
  }

  const Plan: Intent := Intent(11, 1, 1, 1, 1, 1, 5, 1, 0, 0, 12, 0, 0, 0, 0)
  const Ledger: Op := Op(Plan, MayHaveBeenDispatched, None, None, None, None, 0)
  const Foreign: Ticket := Ticket(13, 1, 11, 12, 1, 1, 1, 7, Issued, 0, 99_000)
  const Imported: seq<Entry> :=
    Opening + [IntentStored(Holder, Plan)] + [Dispatched(Holder, OpKey(1, 11), 0)] + [TicketStored(Foreign, ByHistory)]

  /**
   A historical import is not checked against any lease: a live, dispatched operation can end up with
   a ticket that outlives its lease, and issuing a ticket for it then returns that one.
   */
  lemma HistoricalTicketMayOutliveItsLease()
    ensures Legal(Policy, Imported)
    ensures var t := Replay(Imported);
            InContext(t, Holder, 0) && Lookup(t, OpKey(1, 11)) == Some(Ledger)
            && 13 in t.tickets && t.tickets[13].Key() == OpKey(1, 11) && t.tickets[13].epoch == t.leases[5].epoch
            && t.tickets[13].expiresAt > t.leases[5].expiresAt
  {
    hide Legal, Replay;
    OpeningIsLegal();
    var key := OpKey(1, 11);
    var planned := Opened.(operations := map[key := Op(Plan, IntentRecorded, None, None, None, None, 0)]);
    var sent := Opened.(operations := map[key := Ledger]);
    PlanPermitted(planned);
    Append(Opening, Opened, IntentStored(Holder, Plan), planned);
    SendPermitted(planned, sent);
    Append(Opening + [IntentStored(Holder, Plan)], planned, Dispatched(Holder, key, 0), sent);
    ImportPermitted(sent);
    Append(Opening + [IntentStored(Holder, Plan)] + [Dispatched(Holder, key, 0)], sent, TicketStored(Foreign, ByHistory),
           sent.(tickets := map[13 := Foreign]));
  }

  lemma PlanPermitted(planned: Tables)
    requires planned == Opened.(operations := map[OpKey(1, 11) := Op(Plan, IntentRecorded, None, None, None, None, 0)])
    ensures Permitted(Policy, Opened, IntentStored(Holder, Plan)) && planned == Commit(Opened, IntentStored(Holder, Plan))
  {
    assert Unresolved(Opened) == {};
  }

  lemma SendPermitted(planned: Tables, sent: Tables)
    requires planned == Opened.(operations := map[OpKey(1, 11) := Op(Plan, IntentRecorded, None, None, None, None, 0)])
    requires sent == Opened.(operations := map[OpKey(1, 11) := Ledger])
    ensures Permitted(Policy, planned, Dispatched(Holder, OpKey(1, 11), 0))
    ensures sent == Commit(planned, Dispatched(Holder, OpKey(1, 11), 0))
  {
    assert planned.operations[OpKey(1, 11) := Ledger] == sent.operations;
  }

  lemma ImportPermitted(sent: Tables)
    requires sent == Opened.(operations := map[OpKey(1, 11) := Ledger])
    ensures Permitted(Policy, sent, TicketStored(Foreign, ByHistory))
    ensures sent.(tickets := map[13 := Foreign]) == Commit(sent, TicketStored(Foreign, ByHistory))
  {
  }
}
