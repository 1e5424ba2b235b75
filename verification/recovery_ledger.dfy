/** The operation ledger and the renewal handshake over whole histories of a recovery store. */
module RecoveryLedger {
  import opened Outcomes
  import opened RecoveryTypes
  import opened RecoveryLog
  import opened RecoveryTheorems

  // ---- operations -------------------------------------------------------------------------------

  /** An operation keeps its intent, never loses rank, and keeps a terminal state. */
  ghost predicate OpEvolves(before: Op, after: Op) {
    after.intent == before.intent && before.state.Rank() <= after.state.Rank()
    && (!before.state.Unresolved() ==> after.state == before.state)
  }

  /** The change forgets `k`, two full retention periods after its last recorded update. */
  ghost predicate Forgets(t: Tables, e: Entry, k: OpKey) {
    e.Purged? && Lookup(t, k).Some? && Lookup(Commit(t, e), k).None?
    && Lookup(t, k).value.updatedAt + 2 * 86_400_000 <= e.now
  }

  lemma OpStep(cfg: Config, t: Tables, e: Entry, k: OpKey)
    requires Permitted(cfg, t, e) && OperationsFit(t) && Lookup(t, k).Some?
    ensures (Lookup(Commit(t, e), k).Some? && OpEvolves(Lookup(t, k).value, Lookup(Commit(t, e), k).value))
            || Forgets(t, e, k)
  {
    if e.Shelved? {
      ShelvedLookup(t, e, k);
    } else if e.Purged? {
      PurgeStep(t, e, k);
    } else {
      LedgerStep(cfg, t, e, k);
    }
  }

  lemma PurgeStep(t: Tables, e: Entry, k: OpKey)
    requires OperationsFit(t) && e.Purged? && Lookup(t, k).Some?
    ensures Lookup(Commit(t, e), k) == Lookup(t, k) || Forgets(t, e, k)
  {
    hide AuthorityAfter, LeasesAfter, TicketsAfter, ClaimsAfter, EvidenceFits;
  }

  lemma LedgerStep(cfg: Config, t: Tables, e: Entry, k: OpKey)
    requires Permitted(cfg, t, e) && !e.Shelved? && !e.Purged? && Lookup(t, k).Some?
    ensures Lookup(Commit(t, e), k).Some? && OpEvolves(Lookup(t, k).value, Lookup(Commit(t, e), k).value)
  {
    hide AuthorityAfter, LeasesAfter, TicketsAfter, ClaimsAfter, StepAllowed, EvidenceFits, Holds, VouchedFor, InContext;
  }

  ghost predicate ForgottenBetween(log: seq<Entry>, a: nat, b: nat, k: OpKey)
    requires a <= b <= |log|
  {
    exists n :: a <= n < b && Forgets(At(log, n), log[n], k)
  }

  /**
   Between two points of a run a retained operation only advances: no step, boot rotation and
   shelving included, lowers its rank or reopens a terminal state. It leaves the store only by being
   forgotten.
   */
  lemma {:induction false} OperationsOnlyAdvance(cfg: Config, log: seq<Entry>, a: nat, b: nat, k: OpKey)
    requires Legal(cfg, log) && a <= b <= |log| && Lookup(At(log, a), k).Some?
    ensures (Lookup(At(log, b), k).Some? && OpEvolves(Lookup(At(log, a), k).value, Lookup(At(log, b), k).value))
            || ForgottenBetween(log, a, b, k)
    decreases b
  {
    hide Permitted, Commit, Legal, Replay, Lookup, Invariant, OpEvolves, Forgets;
    if a == b {
      OpEvolvesSelf(Lookup(At(log, a), k).value);
    } else {
      OperationsOnlyAdvance(cfg, log, a, b - 1, k);
      if ForgottenBetween(log, a, b - 1, k) {
        var n :| a <= n < b - 1 && Forgets(At(log, n), log[n], k);
      } else {
        StepAt(cfg, log, b - 1);
        LedgerFits(cfg, At(log, b - 1));
        OpStep(cfg, At(log, b - 1), log[b - 1], k);
        if !Forgets(At(log, b - 1), log[b - 1], k) {
          OpEvolvesOn(Lookup(At(log, a), k).value, Lookup(At(log, b - 1), k).value, Lookup(At(log, b), k).value);
        }
      }
    }
  }

  lemma OpEvolvesSelf(op: Op)
    ensures OpEvolves(op, op)
  {
  }

  lemma OpEvolvesOn(a: Op, b: Op, c: Op)
    requires OpEvolves(a, b) && OpEvolves(b, c)
    ensures OpEvolves(a, c)
  {
  }

  /** An operation id is accepted again only after its earlier record was forgotten. */
  lemma IdsAreReusedOnlyWhenForgotten(cfg: Config, log: seq<Entry>, a: nat, b: nat, k: OpKey)
    requires Legal(cfg, log) && a <= b < |log| && Lookup(At(log, a), k).Some?
    requires log[b].IntentStored? && log[b].intent.Key() == k
    ensures ForgottenBetween(log, a, b, k)
  {
    hide Commit, Invariant, OpEvolves, Forgets, StepAllowed;
    StepAt(cfg, log, b);
    OperationsOnlyAdvance(cfg, log, a, b, k);
  }

  lemma DispatchFacts(cfg: Config, t: Tables, e: Entry)
    requires Permitted(cfg, t, e) && e.Dispatched?
    ensures Lookup(t, e.key).Some? && Lookup(t, e.key).value.state.IntentRecorded?
    ensures Lookup(Commit(t, e), e.key).Some? && Lookup(Commit(t, e), e.key).value.state.MayHaveBeenDispatched?
  {
  }

  /** An operation is marked dispatched at most once while it is retained. */
  lemma DispatchedAtMostOnce(cfg: Config, log: seq<Entry>, a: nat, b: nat, k: OpKey)
    requires Legal(cfg, log) && a < b < |log|
    requires log[a].Dispatched? && log[a].key == k && log[b].Dispatched? && log[b].key == k
    ensures ForgottenBetween(log, a + 1, b, k)
  {
    hide Permitted, Commit, Invariant, Forgets, Lookup;
    StepAt(cfg, log, a);
    StepAt(cfg, log, b);
    DispatchFacts(cfg, At(log, a), log[a]);
    DispatchFacts(cfg, At(log, b), log[b]);
    OperationsOnlyAdvance(cfg, log, a + 1, b, k);
  }

  /**
   At every point: a reason of uncertainty exactly on unknown operations; a bound witness on every
   settled or reconciled one; one unresolved operation per incarnation; capacity; disjoint tables.
   */
  lemma LedgerIsSound(cfg: Config, log: seq<Entry>, n: nat, k: OpKey)
    requires Legal(cfg, log) && n <= |log| && Lookup(At(log, n), k).Some?
    ensures var t, op := At(log, n), Lookup(At(log, n), k).value;
            op.intent.Key() == k
            && (op.uncertainty.Some? <==> op.state.Unknown?)
            && (op.state.Settled? || op.state.Reconciled? ==> op.evidence.Some? && op.Bound(op.evidence.value))
            && (op.state.Unresolved() ==> k in t.operations && k !in t.archive)
            && (forall j :: j in Unresolved(t) && op.state.Unresolved() && j.instance == k.instance && j != k
                            ==> t.operations[j].intent.incarnation != op.intent.incarnation)
            && |Unresolved(t)| <= cfg.unresolvedCapacity && |t.operations| + |t.archive| <= cfg.retainedCapacity
  {
    hide Permitted, Commit, LeasesFit, EpochsOrdered, TicketsFit, ClaimsFit;
    InvariantAt(cfg, log, n);
  }

  // ---- renewal sequence ---------------------------------------------------------------------------

  /** The clock reading of a renewal or renewal preparation. */
  function RenewTime(e: Entry): Option<Millis> {
    match e
    case LeaseStepped(_, Renew(_, _, now)) => Some(now)
    case LeaseStepped(_, PrepareRenew(_, _, now)) => Some(now)
    case _ => None
  }

  /** Renewal clock readings never decrease along the log and stay at or below `c`. */
  predicate RenewClock(log: seq<Entry>, c: Millis) {
    log == []
    || var last := RenewTime(log[|log| - 1]);
       if last.Some? then last.value <= c && RenewClock(log[..|log| - 1], last.value)
       else RenewClock(log[..|log| - 1], c)
  }

  /** A pending host renewal is still the newest, or a local renewal has already overtaken its deadline. */
  ghost predicate PendingFits(row: Lease, c: Millis) {
    row.host.state.PendingRenew? ==>
      row.host.pending.Some? && row.host.pending.value.expiresAt <= c + row.ttl * 1000
      && (row.lastRenew < row.host.pending.value.sequence || row.host.pending.value.expiresAt <= row.expiresAt)
  }

  lemma PendingRowStep(t: Tables, id: Id, step: LeaseStep, c: Millis)
    requires id in t.leases && StepAllowed(t, id, step) && PendingFits(t.leases[id], c)
    requires step.Renew? || step.PrepareRenew? ==> step.now == c
    ensures PendingFits(LeaseAfter(t.leases[id], step), c)
    ensures t.leases[id].lastRenew <= LeaseAfter(t.leases[id], step).lastRenew
  {
  }

  lemma PendingStep(cfg: Config, t: Tables, e: Entry, c: Millis, id: Id)
    requires Permitted(cfg, t, e) && id in Commit(t, e).leases
    requires forall j :: j in t.leases ==> PendingFits(t.leases[j], c)
    requires RenewTime(e).Some? ==> RenewTime(e).value == c
    ensures PendingFits(Commit(t, e).leases[id], c)
    ensures id in t.leases ==> t.leases[id].lastRenew <= Commit(t, e).leases[id].lastRenew
  {
    hide AuthorityAfter, OperationsAfter, ArchiveAfter, TicketsAfter, ClaimsAfter, StepAllowed, LeaseAfter;
    if e.LeaseStepped? {
      PendingRowStep(t, e.id, e.step, c);
    }
  }

  lemma {:induction false} PendingKept(cfg: Config, log: seq<Entry>, c: Millis)
    requires Legal(cfg, log) && RenewClock(log, c)
    ensures forall id :: id in Replay(log).leases ==> PendingFits(Replay(log).leases[id], c)
  {
    hide Permitted, Commit;
    if log != [] {
      var n := |log| - 1;
      var at := if RenewTime(log[n]).Some? then RenewTime(log[n]).value else c;
      PendingKept(cfg, log[..n], at);
      forall id | id in Replay(log).leases
        ensures PendingFits(Replay(log).leases[id], c)
      {
        PendingStep(cfg, Replay(log[..n]), log[n], at, id);
        assert PendingFits(Replay(log).leases[id], at);
      }
    }
  }

  lemma {:induction false} ClockOfPrefix(log: seq<Entry>, c: Millis, n: nat) returns (d: Millis)
    requires n <= |log| && RenewClock(log, c)
    ensures RenewClock(log[..n], d)
    ensures n < |log| && RenewTime(log[n]).Some? ==> d == RenewTime(log[n]).value
  {
    if n == |log| {
      assert log[..n] == log;
      d := c;
    } else {
      var m := |log| - 1;
      var last := RenewTime(log[m]);
      d := if last.Some? then last.value else c;
      if n < m {
        d := ClockOfPrefix(log[..m], d, n);
        assert log[..m][..n] == log[..n];
      }
    }
  }

  /**
   With renewal clocks that never run backwards, no interleaving of local and host renewals ever
   lowers a lease's renewal sequence.
   */
  lemma {:induction false} RenewSequenceNeverDecreases(cfg: Config, log: seq<Entry>, c: Millis, a: nat, b: nat, id: Id)
    requires Legal(cfg, log) && RenewClock(log, c) && a <= b <= |log| && id in At(log, a).leases
    ensures id in At(log, b).leases && At(log, a).leases[id].lastRenew <= At(log, b).leases[id].lastRenew
    decreases b
  {
    hide Permitted, Commit, Invariant, PendingFits;
    if a < b {
      RenewSequenceNeverDecreases(cfg, log, c, a, b - 1, id);
      LeasesEvolve(cfg, log, b - 1, b, id);
      StepAt(cfg, log, b - 1);
      PrefixLegal(cfg, log, b - 1);
      var d := ClockOfPrefix(log, c, b - 1);
      PendingKept(cfg, log[..b - 1], d);
      PendingStep(cfg, At(log, b - 1), log[b - 1], d, id);
    }
  }

  // ---- exactly when a renewal sequence drops ----------------------------------------------------

  predicate Prepares(e: Entry, id: Id) {
    e.LeaseStepped? && e.id == id && e.step.PrepareRenew?
  }

  predicate Renews(e: Entry, id: Id) {
    e.LeaseStepped? && e.id == id && e.step.Renew?
  }

  predicate Completes(e: Entry, id: Id) {
    e.LeaseStepped? && e.id == id && e.step.CommitRenew?
  }

  /** The host renewal completed at `n` is the one prepared at `p`. */
  ghost predicate PreparedAt(log: seq<Entry>, p: nat, n: nat, id: Id) {
    p < n <= |log| && Prepares(log[p], id) && forall m :: p < m < n ==> !Prepares(log[m], id)
  }

  /** How one step moves a row that awaits a host renewal. */
  lemma AwaitingStep(cfg: Config, t: Tables, e: Entry, id: Id)
    requires Permitted(cfg, t, e) && id in t.leases && !Prepares(e, id)
    ensures id in Commit(t, e).leases
    ensures var before, after := t.leases[id], Commit(t, e).leases[id];
            (after.host.state.PendingRenew? ==> before.host.state.PendingRenew? && after.host.pending == before.host.pending)
            && (!Completes(e, id) ==> after.lastRenew == if Renews(e, id) then e.step.sequence else before.lastRenew)
            && (Renews(e, id) ==> e.step.sequence > before.lastRenew && after.expiresAt >= e.step.now + before.ttl * 1000)
            && (Completes(e, id) ==> before.host.state.PendingRenew? && before.host.pending == Some(e.step.pending)
                                     && e.step.pending.expiresAt > before.expiresAt && !after.host.state.PendingRenew?
                                     && after.lastRenew == e.step.pending.sequence)
            && before.ttl == after.ttl && before.expiresAt <= after.expiresAt
  {
    hide AuthorityAfter, OperationsAfter, ArchiveAfter, TicketsAfter, ClaimsAfter;
  }

  lemma PrepareStep(cfg: Config, t: Tables, e: Entry, id: Id)
    requires Permitted(cfg, t, e) && Prepares(e, id)
    ensures id in t.leases && id in Commit(t, e).leases
    ensures var before, after := t.leases[id], Commit(t, e).leases[id];
            after.host.state.PendingRenew? && after.host.pending == Some(Pending(e.step.sequence, e.step.now + before.ttl * 1000))
            && after.lastRenew == before.lastRenew < e.step.sequence && after.ttl == before.ttl
  {
    hide AuthorityAfter, OperationsAfter, ArchiveAfter, TicketsAfter, ClaimsAfter;
  }

  /** A row awaits a host renewal only after one was prepared, and since then without interruption. */
  lemma {:induction false} AwaitingSince(cfg: Config, log: seq<Entry>, n: nat, id: Id) returns (p: nat)
    requires Legal(cfg, log) && n <= |log| && id in At(log, n).leases && At(log, n).leases[id].host.state.PendingRenew?
    ensures PreparedAt(log, p, n, id)
    decreases n
  {
    hide Permitted, Commit, Invariant, Legal;
    assert n != 0;
    StepAt(cfg, log, n - 1);
    if Prepares(log[n - 1], id) {
      p := n - 1;
    } else {
      Present(cfg, At(log, n - 1), log[n - 1], id);
      AwaitingStep(cfg, At(log, n - 1), log[n - 1], id);
      p := AwaitingSince(cfg, log, n - 1, id);
    }
  }

  /** A lease that awaits a host renewal existed before the step. */
  lemma Present(cfg: Config, t: Tables, e: Entry, id: Id)
    requires Permitted(cfg, t, e) && id in Commit(t, e).leases && Commit(t, e).leases[id].host.state.PendingRenew?
    ensures id in t.leases
  {
    hide AuthorityAfter, OperationsAfter, ArchiveAfter, TicketsAfter, ClaimsAfter, StepAllowed;
  }

  /** Some renewal between `p` and `n` carries a larger sequence than the one prepared at `p`. */
  ghost predicate Overtaken(log: seq<Entry>, p: nat, n: nat, id: Id)
    requires p < n <= |log| && Prepares(log[p], id)
  {
    exists r :: p < r < n && Renews(log[r], id) && log[r].step.sequence > log[p].step.sequence
  }

  /**
   While a host renewal prepared at `p` is awaited: it stays the pending one, the sequence passes it
   exactly if a larger local renewal came in between, and the deadline has every such renewal's time in it.
   */
  lemma {:induction false} Awaiting(cfg: Config, log: seq<Entry>, p: nat, n: nat, id: Id)
    requires Legal(cfg, log) && PreparedAt(log, p, n, id)
    requires id in At(log, n).leases && At(log, n).leases[id].host.state.PendingRenew?
    ensures var row := At(log, n).leases[id];
            row.host.pending == Some(Pending(log[p].step.sequence, log[p].step.now + row.ttl * 1000))
            && (row.lastRenew > log[p].step.sequence <==> Overtaken(log, p, n, id))
            && forall r :: p < r < n && Renews(log[r], id) ==> row.expiresAt >= log[r].step.now + row.ttl * 1000
    decreases n
  {
    hide Permitted, Commit, Invariant, Legal;
    StepAt(cfg, log, n - 1);
    if n == p + 1 {
      PrepareStep(cfg, At(log, p), log[p], id);
    } else {
      Present(cfg, At(log, n - 1), log[n - 1], id);
      AwaitingStep(cfg, At(log, n - 1), log[n - 1], id);
      Awaiting(cfg, log, p, n - 1, id);
      if Overtaken(log, p, n - 1, id) {
        var r :| p < r < n - 1 && Renews(log[r], id) && log[r].step.sequence > log[p].step.sequence;
        assert Overtaken(log, p, n, id);
      }
    }
  }

  /**
   Whatever the clocks: completing a host renewal lowers the renewal sequence exactly if, since that
   renewal was prepared, a local renewal with a larger sequence was accepted. Every local renewal
   accepted in between carried a clock reading earlier than the preparation's. No other step lowers it.
   */
  lemma RenewSequenceDropsExactlyWhenOvertaken(cfg: Config, log: seq<Entry>, n: nat, id: Id) returns (p: nat)
    requires Legal(cfg, log) && n < |log| && Completes(log[n], id)
    ensures PreparedAt(log, p, n, id) && id in At(log, n).leases && id in At(log, n + 1).leases
    ensures At(log, n + 1).leases[id].lastRenew < At(log, n).leases[id].lastRenew <==> Overtaken(log, p, n, id)
    ensures forall r :: p < r < n && Renews(log[r], id) ==> log[r].step.now < log[p].step.now
  {
    hide Commit, Invariant, Legal;
    StepAt(cfg, log, n);
    AwaitingStep(cfg, At(log, n), log[n], id);
    hide Permitted;
    p := AwaitingSince(cfg, log, n, id);
    Awaiting(cfg, log, p, n, id);
  }

  /** Only completing a host renewal can lower a renewal sequence at all. */
  lemma OnlyCompletionLowersSequence(cfg: Config, log: seq<Entry>, n: nat, id: Id)
    requires Legal(cfg, log) && n < |log| && id in At(log, n).leases && !Completes(log[n], id)
    ensures id in At(log, n + 1).leases && At(log, n).leases[id].lastRenew <= At(log, n + 1).leases[id].lastRenew
  {
    hide Permitted, Commit, Invariant, Legal;
    StepAt(cfg, log, n);
    if Prepares(log[n], id) {
      PrepareStep(cfg, At(log, n), log[n], id);
    } else {
      AwaitingStep(cfg, At(log, n), log[n], id);
    }
  }
}
