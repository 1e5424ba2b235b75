/** What holds over every legal history of a recovery store. */
module RecoveryTheorems {
  import opened Outcomes
  import opened RecoveryTypes
  import opened RecoveryLog

  /** Rows after the first `n` changes. */
  function At(log: seq<Entry>, n: nat): Tables
    requires n <= |log|
  {
    Replay(log[..n])
  }

  /** The facts every point of a legal history offers about its next change. */
  lemma StepAt(cfg: Config, log: seq<Entry>, n: nat)
    requires Legal(cfg, log) && n < |log|
    ensures Permitted(cfg, At(log, n), log[n]) && At(log, n + 1) == Commit(At(log, n), log[n])
    ensures Invariant(cfg, At(log, n))
  {
    hide Permitted, Commit, Invariant;
    PrefixLegal(cfg, log, n + 1);
    assert log[..n + 1][..n] == log[..n];
    LegalKeepsInvariant(cfg, log[..n]);
  }

  /** The invariant holds throughout. */
  lemma InvariantAt(cfg: Config, log: seq<Entry>, n: nat)
    requires Legal(cfg, log) && n <= |log|
    ensures Invariant(cfg, At(log, n))
  {
    hide Permitted, Commit, Invariant;
    PrefixLegal(cfg, log, n);
    LegalKeepsInvariant(cfg, log[..n]);
  }

  // ---- authority --------------------------------------------------------------------------------

  lemma GenerationStep(cfg: Config, t: Tables, e: Entry)
    requires Permitted(cfg, t, e)
    ensures Generation(Commit(t, e)) == if e.Booted? then Generation(t) + 1 else Generation(t)
  {
    hide LeasesAfter, OperationsAfter, ArchiveAfter, TicketsAfter, ClaimsAfter, StepAllowed;
  }

  /** The authority generation counts the boots and rekeys, so each of them strictly increases it. */
  lemma {:induction false} GenerationsRise(cfg: Config, log: seq<Entry>, a: nat, b: nat)
    requires Legal(cfg, log) && a <= b <= |log|
    ensures Generation(At(log, a)) <= Generation(At(log, b))
    ensures (exists n :: a <= n < b && log[n].Booted?) ==> Generation(At(log, a)) < Generation(At(log, b))
    decreases b
  {
    hide Permitted, Commit, Invariant;
    if a < b {
      GenerationsRise(cfg, log, a, b - 1);
      StepAt(cfg, log, b - 1);
      GenerationStep(cfg, At(log, b - 1), log[b - 1]);
    }
  }

  /** Active leases are revoked for this reason and live host states invalidated; nothing else differs. */
  ghost predicate Revokes(before: map<Id, Lease>, after: map<Id, Lease>, reason: Reason) {
    after.Keys == before.Keys
    && forall id :: id in after ==>
         var now, was := after[id], before[id];
         && now == was.(status := now.status, reason := now.reason, host := was.host.(state := now.host.state))
         && (was.status == Active ==> now.status == Revoked && now.reason == Some(reason))
         && (was.status != Active ==> now.status == was.status && now.reason == was.reason)
         && now.host.state == (if was.host.state.PendingInstall? || was.host.state.Installed? || was.host.state.PendingRenew?
                                  || was.host.state.PendingRevoke? then RestartInvalidated else was.host.state)
  }

  /** Unresolved operations became unknown, with the rotation as the reason; resolved ones are as they were. */
  ghost predicate Rotates(before: map<OpKey, Op>, after: map<OpKey, Op>, now: Millis) {
    after.Keys == before.Keys
    && forall k :: k in after ==>
         after[k] == if before[k].state.IntentRecorded? || before[k].state.MayHaveBeenDispatched?
                        || before[k].state.Accepted? || before[k].state.Unknown?
                     then before[k].(state := Unknown, uncertainty := Some(AuthorityRotated), updatedAt := now)
                     else before[k]
  }

  lemma BootRows(t: Tables, e: Entry)
    requires e.Booted?
    ensures Revokes(t.leases, Commit(t, e).leases, if e.rekey then Rekeyed else IncarnationReplaced)
    ensures Rotates(t.operations, Commit(t, e).operations, e.boot.createdAt)
  {
  }

  /**
   What every boot and rekey of a history did: each unresolved operation is unknown from then on, with
   the rotation as its reason and the time of the boot; each resolved one, the archive, the tickets and
   the claims are as they were; no lease is active and no host state live.
   */
  lemma BootsLeaveNothingInFlight(cfg: Config, log: seq<Entry>, n: nat)
    requires Legal(cfg, log) && n < |log| && log[n].Booted?
    ensures var t, u, boot := At(log, n), At(log, n + 1), log[n].boot;
            && u.authority == Some(Authority(boot, None, 0))
            && Revokes(t.leases, u.leases, if log[n].rekey then Rekeyed else IncarnationReplaced)
            && u.archive == t.archive && u.tickets == t.tickets && u.claims == t.claims
            && u.operations.Keys == t.operations.Keys
            && (forall k :: k in u.operations ==>
                  var was, now := t.operations[k], u.operations[k];
                  && now.intent == was.intent
                  && (was.state.IntentRecorded? || was.state.MayHaveBeenDispatched? || was.state.Accepted? || was.state.Unknown?
                      ==> now.state == Unknown && now.uncertainty == Some(AuthorityRotated) && now.updatedAt == boot.createdAt)
                  && (was.state.Settled? || was.state.Rejected? || was.state.Reconciled? ==> now == was)
                  && !now.state.IntentRecorded? && !now.state.MayHaveBeenDispatched? && !now.state.Accepted?)
            && (forall id :: id in u.leases ==>
                  && !u.leases[id].status.Active? && !u.leases[id].host.state.PendingInstall?
                  && !u.leases[id].host.state.Installed? && !u.leases[id].host.state.PendingRenew?
                  && !u.leases[id].host.state.PendingRevoke?)
  {
    hide Permitted, LeasesAfter, OperationsAfter, Invariant;
    StepAt(cfg, log, n);
    BootRows(At(log, n), log[n]);
  }

  lemma ProofIsCurrent(cfg: Config, t: Tables, e: Entry)
    requires Permitted(cfg, t, e) && Invariant(cfg, t) && ProofOf(e).Some?
    ensures ProofOf(e).value.generation == Generation(t)
    ensures t.authority.Some? && t.authority.value.boot.state.Ready?
  {
    hide Commit, OperationsFit, OneUnresolvedPerIncarnation, CapacityKept, TicketsFit, ClaimsFit, EpochsOrdered;
    var p := ProofOf(e).value;
    assert Presents(t, p);
    assert LeaseFits(t, t.leases[p.lease]);
  }

  /**
   Fencing: a change made under a lease proof happens only while the proof's generation is the
   authority's. So once a boot or rekey has happened, no proof issued before it changes any row again.
   */
  lemma EarlierProofsChangeNothing(cfg: Config, log: seq<Entry>, a: nat, n: nat, p: Proof)
    requires Legal(cfg, log) && a <= n < |log| && ProofOf(log[n]) == Some(p)
    ensures p.generation == Generation(At(log, n))
    ensures p.generation >= Generation(At(log, a))
    ensures (exists m :: a <= m < n && log[m].Booted?) ==> p.generation > Generation(At(log, a))
  {
    hide Permitted, Commit, Invariant;
    StepAt(cfg, log, n);
    ProofIsCurrent(cfg, At(log, n), log[n]);
    GenerationsRise(cfg, log, a, n);
  }

  // ---- leases -----------------------------------------------------------------------------------

  /** How a lease row may change in one step, whatever the step. */
  ghost predicate LeaseEvolves(before: Lease, after: Lease) {
    && after.id == before.id && after.epoch == before.epoch && after.generation == before.generation
    && after.token == before.token && after.session == before.session && after.ttl == before.ttl
    && before.expiresAt <= after.expiresAt
    && (!before.status.Active? ==> after.status == before.status)
    && (before.host.state.HostRevoked? || before.host.state.RestartInvalidated? ==> after.host.state == before.host.state)
    && (before.host.installation.Some? ==> after.host.installation == before.host.installation)
  }

  lemma RowStep(t: Tables, id: Id, step: LeaseStep)
    requires LeasesFit(t) && id in t.leases && StepAllowed(t, id, step)
    ensures LeaseEvolves(t.leases[id], LeaseAfter(t.leases[id], step))
    ensures t.leases[id].generation == Generation(t)
  {
    assert LeaseFits(t, t.leases[id]);
  }

  lemma LeaseStepEvolves(cfg: Config, t: Tables, e: Entry, id: Id)
    requires Permitted(cfg, t, e) && LeasesFit(t) && id in t.leases
    ensures id in Commit(t, e).leases && LeaseEvolves(t.leases[id], Commit(t, e).leases[id])
    ensures t.leases[id].generation < Generation(t) ==> Commit(t, e).leases[id] == t.leases[id]
  {
    hide AuthorityAfter, OperationsAfter, ArchiveAfter, TicketsAfter, ClaimsAfter, StepAllowed, LeaseAfter;
    if e.LeaseStepped? {
      RowStep(t, e.id, e.step);
    }
    assert LeaseFits(t, t.leases[id]);
  }

  /**
   Leases are never deleted; their deadlines never move back, whatever the clocks say; ended leases
   stay ended; host states `HostRevoked` and `RestartInvalidated` are never left; an installation
   identity is never replaced.
   */
  lemma {:induction false} LeasesEvolve(cfg: Config, log: seq<Entry>, a: nat, b: nat, id: Id)
    requires Legal(cfg, log) && a <= b <= |log| && id in At(log, a).leases
    ensures id in At(log, b).leases && LeaseEvolves(At(log, a).leases[id], At(log, b).leases[id])
    decreases b
  {
    hide Permitted, Commit, LeaseFits, OperationsFit, EpochsOrdered, TicketsFit, ClaimsFit, OneUnresolvedPerIncarnation;
    if a < b {
      LeasesEvolve(cfg, log, a, b - 1, id);
      StepAt(cfg, log, b - 1);
      LeaseStepEvolves(cfg, At(log, b - 1), log[b - 1], id);
    }
  }

  /** A lease of an earlier generation is frozen: no later change of any kind touches its row. */
  lemma {:induction false} EarlierLeasesAreFrozen(cfg: Config, log: seq<Entry>, a: nat, b: nat, id: Id)
    requires Legal(cfg, log) && a <= b <= |log| && id in At(log, a).leases
    requires At(log, a).leases[id].generation < Generation(At(log, a))
    ensures id in At(log, b).leases && At(log, b).leases[id] == At(log, a).leases[id]
    decreases b
  {
    hide Permitted, Commit, LeaseFits, OperationsFit, EpochsOrdered, TicketsFit, ClaimsFit, OneUnresolvedPerIncarnation;
    if a < b {
      EarlierLeasesAreFrozen(cfg, log, a, b - 1, id);
      GenerationsRise(cfg, log, a, b - 1);
      StepAt(cfg, log, b - 1);
      LeaseStepEvolves(cfg, At(log, b - 1), log[b - 1], id);
    }
  }

  /** At most one lease is active; it belongs to the current ready boot and has the largest epoch ever issued. */
  lemma ActiveLeaseIsUniqueAndNewest(cfg: Config, log: seq<Entry>, n: nat, i: Id, j: Id)
    requires Legal(cfg, log) && n <= |log|
    requires i in At(log, n).leases && j in At(log, n).leases && At(log, n).leases[i].status.Active?
    ensures At(log, n).leases[j].epoch <= At(log, n).leases[i].epoch
    ensures At(log, n).leases[j].status.Active? ==> i == j
    ensures At(log, n).authority.Some? && At(log, n).authority.value.boot.state.Ready?
            && At(log, n).leases[i].IssuedUnder(At(log, n).authority.value.boot)
  {
    hide Permitted, Commit, OperationsFit, TicketsFit, ClaimsFit, OneUnresolvedPerIncarnation;
    InvariantAt(cfg, log, n);
    assert LeaseFits(At(log, n), At(log, n).leases[i]);
  }

  // ---- tickets ----------------------------------------------------------------------------------

  ghost predicate TicketEvolves(before: Ticket, after: Ticket) {
    after.Same(before) && before.state.Rank() <= after.state.Rank()
    && (!before.state.Open() ==> after == before)
  }

  lemma TicketStepEvolves(cfg: Config, t: Tables, e: Entry, id: Id)
    requires Permitted(cfg, t, e) && TicketsFit(t) && id in t.tickets
    ensures id in Commit(t, e).tickets && TicketEvolves(t.tickets[id], Commit(t, e).tickets[id])
  {
    hide AuthorityAfter, LeasesAfter, OperationsAfter, ArchiveAfter, ClaimsAfter, StepAllowed;
  }

  /** Tickets are never deleted or altered, their states only advance, and terminal states are final. */
  lemma {:induction false} TicketsOnlyAdvance(cfg: Config, log: seq<Entry>, a: nat, b: nat, id: Id)
    requires Legal(cfg, log) && a <= b <= |log| && id in At(log, a).tickets
    ensures id in At(log, b).tickets && TicketEvolves(At(log, a).tickets[id], At(log, b).tickets[id])
    decreases b
  {
    hide Permitted, Commit, LeasesFit, OperationsFit, EpochsOrdered, TicketsFit, ClaimsFit, OneUnresolvedPerIncarnation;
    if a < b {
      TicketsOnlyAdvance(cfg, log, a, b - 1, id);
      StepAt(cfg, log, b - 1);
      TicketStepEvolves(cfg, At(log, b - 1), log[b - 1], id);
    }
  }

  /** The ticket a change stored or imported under a live lease. */
  function VouchedTicket(log: seq<Entry>, n: nat): Option<(Id, Proof)>
    requires n < |log|
  {
    match log[n]
    case TicketStored(ticket, ByLease(p)) => Some((ticket.id, p))
    case TicketMoved(id, _, ByLease(p)) => Some((id, p))
    case _ => None
  }

  lemma VouchedAtOnce(cfg: Config, t: Tables, e: Entry, id: Id, p: Proof)
    requires Permitted(cfg, t, e)
    requires (e.TicketStored? && e.voucher == ByLease(p) && id == e.ticket.id)
             || (e.TicketMoved? && e.voucher == ByLease(p) && id == e.id)
    ensures id in Commit(t, e).tickets && p.lease in Commit(t, e).leases
    ensures Commit(t, e).tickets[id].expiresAt <= Commit(t, e).leases[p.lease].expiresAt
    ensures Commit(t, e).tickets[id].epoch == Commit(t, e).leases[p.lease].epoch
  {
    hide AuthorityAfter, OperationsAfter, ArchiveAfter, ClaimsAfter, StepAllowed;
  }

  /** A ticket issued, or imported under the current fence, never outlives the lease that vouched for it. */
  lemma VouchedTicketsNeverOutliveTheirLease(cfg: Config, log: seq<Entry>, n: nat, m: nat, id: Id, p: Proof)
    requires Legal(cfg, log) && n < m <= |log| && VouchedTicket(log, n) == Some((id, p))
    ensures id in At(log, m).tickets && p.lease in At(log, m).leases
    ensures At(log, m).tickets[id].expiresAt <= At(log, m).leases[p.lease].expiresAt
    ensures At(log, m).tickets[id].epoch == At(log, m).leases[p.lease].epoch
  {
    hide Permitted, Commit, Invariant;
    StepAt(cfg, log, n);
    VouchedAtOnce(cfg, At(log, n), log[n], id, p);
    TicketsOnlyAdvance(cfg, log, n + 1, m, id);
    LeasesEvolve(cfg, log, n + 1, m, p.lease);
  }

  // ---- continuation claims ------------------------------------------------------------------------

  lemma {:induction false} ClaimsPersist(cfg: Config, log: seq<Entry>, a: nat, b: nat, o: Id)
    requires Legal(cfg, log) && a <= b <= |log| && o in At(log, a).claims
    ensures o in At(log, b).claims && At(log, b).claims[o] == At(log, a).claims[o]
    decreases b
  {
    hide Invariant, AuthorityAfter, LeasesAfter, OperationsAfter, ArchiveAfter, TicketsAfter, StepAllowed;
    if a < b {
      ClaimsPersist(cfg, log, a, b - 1, o);
      StepAt(cfg, log, b - 1);
    }
  }

  /** Two operations that claimed the same lease, at whatever points of a run, are the same operation. */
  lemma LeaseIsClaimedByOneOperation(cfg: Config, log: seq<Entry>, a: nat, b: nat, o: Id, q: Id)
    requires Legal(cfg, log) && a <= b <= |log| && o in At(log, a).claims && q in At(log, b).claims
    requires At(log, a).claims[o].owner.lease == At(log, b).claims[q].owner.lease
    requires At(log, a).claims[o].owner.epoch == At(log, b).claims[q].owner.epoch
    ensures o == q
  {
    hide Permitted, Commit, LeasesFit, OperationsFit, EpochsOrdered, TicketsFit, OneUnresolvedPerIncarnation;
    ClaimsPersist(cfg, log, a, b, o);
    InvariantAt(cfg, log, b);
  }
}
