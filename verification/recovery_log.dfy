/**
 The history of a recovery store: every committed change, what each one requires of the rows before
 it, and the invariant that all of them keep together.
 */
module RecoveryLog {
  import opened Outcomes
  import opened RecoveryTypes

  datatype Tables = Tables(
    authority: Option<Authority>, leases: map<Id, Lease>, operations: map<OpKey, Op>,
    archive: map<OpKey, Archived>, tickets: map<Id, Ticket>, claims: map<Id, Claim>)

  const Empty: Tables := Tables(None, map[], map[], map[], map[], map[])

  /** A change to one lease row. */
  datatype LeaseStep =
    | Lapse(proof: Proof, now: Millis)
    | Renew(proof: Proof, sequence: nat, now: Millis)
    | Revoke(proof: Proof, text: nat)
    | PrepareInstall(installation: Id, digest: nat, fence: FenceRef, now: Millis)
    | SetDigest(installation: Id, digest: nat)
    | AckInstall(installation: Id, digest: nat, generation: nat, ack: Ack)
    | PrepareRenew(proof: Proof, sequence: nat, now: Millis)
    | CommitRenew(installation: Id, digest: nat, pending: Pending, generation: nat, ack: Ack)
    | BeginRevoke(proof: Proof, text: nat)
    | AckRevoke(installation: Id, digest: nat, generation: nat, ack: Ack)

  /** Who vouches for a ticket change. */
  datatype Voucher = ByLease(proof: Proof) | ByTransition(proof: Proof) | ByHistory

  datatype Entry =
    | Booted(boot: Boot, rekey: bool)
    | Fenced(mark: FenceRef, at: Millis)
    | Acquired(lease: Lease)
    | LeasesExpired(now: Millis)
    | LeaseStepped(id: Id, step: LeaseStep)
    | HostsInvalidated
    | IntentStored(proof: Proof, intent: Intent)
    | Dispatched(proof: Proof, key: OpKey, now: Millis)
    | OutcomeStored(op: Op)
    | Shelved(cutoff: Millis, now: Millis)
    | Purged(now: Millis)
    | TicketStored(ticket: Ticket, voucher: Voucher)
    | TicketMoved(id: Id, state: TicketState, voucher: Voucher)
    | TicketsExpired(now: Millis)
    | Claimed(claim: Claim)

  /** The lease proof a change was made under, if its caller presented one. */
  function ProofOf(e: Entry): Option<Proof> {
    match e
    case LeaseStepped(_, Lapse(p, _)) => Some(p)
    case LeaseStepped(_, Renew(p, _, _)) => Some(p)
    case LeaseStepped(_, Revoke(p, _)) => Some(p)
    case LeaseStepped(_, PrepareRenew(p, _, _)) => Some(p)
    case LeaseStepped(_, BeginRevoke(p, _)) => Some(p)
    case IntentStored(p, _) => Some(p)
    case Dispatched(p, _, _) => Some(p)
    case TicketStored(_, ByLease(p)) => Some(p)
    case TicketMoved(_, _, ByLease(p)) => Some(p)
    case TicketMoved(_, _, ByTransition(p)) => Some(p)
    case _ => None
  }

  // ---- effects --------------------------------------------------------------------------------

  function LeaseAfter(row: Lease, step: LeaseStep): Lease {
    match step
    case Lapse(_, _) => row.(status := Expired, reason := Some(Ttl))
    case Renew(_, sequence, now) =>
      row.(expiresAt := Later(row.expiresAt, now + row.ttl * 1000), lastRenew := sequence)
    case Revoke(_, text) => row.(status := Revoked, reason := Some(Stated(text)))
    case PrepareInstall(installation, digest, fence, _) =>
      row.(host := Host(PendingInstall, Some(fence), Some(installation), Some(digest), 0, 0, None, None))
    case SetDigest(_, digest) => row.(host := row.host.(digest := Some(digest)))
    case AckInstall(_, _, generation, ack) =>
      row.(host := row.host.(state := Installed, generation := generation, renewSequence := 0, ack := Some(ack)))
    case PrepareRenew(_, sequence, now) =>
      row.(host := row.host.(state := PendingRenew, pending := Some(Pending(sequence, now + row.ttl * 1000))))
    case CommitRenew(_, _, pending, generation, ack) =>
      row.(expiresAt := pending.expiresAt, lastRenew := pending.sequence,
           host := row.host.(state := Installed, generation := generation, renewSequence := pending.sequence,
                             ack := Some(ack), pending := None))
    case BeginRevoke(_, text) =>
      row.(status := Revoked, reason := Some(Stated(text)), host := row.host.(state := PendingRevoke))
    case AckRevoke(_, _, generation, ack) =>
      row.(host := row.host.(state := HostRevoked, generation := generation, renewSequence := 0, ack := Some(ack)))
  }

  function Invalidated(row: Lease): Lease {
    if row.host.state.Live() then row.(host := row.host.(state := RestartInvalidated)) else row
  }

  /** What a boot or rekey does to a lease. */
  function Superseded(row: Lease, reason: Reason): Lease {
    Invalidated(if row.status.Active? then row.(status := Revoked, reason := Some(reason)) else row)
  }

  function Lapsed(row: Lease, now: Millis): Lease {
    if row.status.Active? && row.expiresAt <= now then row.(status := Expired, reason := Some(Ttl)) else row
  }

  function Rotated(op: Op, now: Millis): Op {
    if op.state.Unresolved() then op.(state := Unknown, uncertainty := Some(AuthorityRotated), updatedAt := now) else op
  }

  predicate Shelvable(op: Op, cutoff: Millis) {
    !op.state.Unresolved() && op.updatedAt <= cutoff
  }

  function PurgeCutoff(now: Millis): Millis {
    if now < RETENTION then 0 else now - RETENTION
  }

  function TicketLapsed(t: Ticket, now: Millis): Ticket {
    if t.expiresAt <= now && t.state.Open() then t.(state := TicketUnknown) else t
  }

  function AuthorityAfter(authority: Option<Authority>, e: Entry): Option<Authority> {
    match e
    case Booted(boot, _) => Some(Authority(boot, None, 0))
    case Fenced(mark, at) =>
      if authority.None? then None else Some(Authority(authority.value.boot.(state := Ready), Some(mark), at))
    case _ => authority
  }

  function LeasesAfter(leases: map<Id, Lease>, e: Entry): map<Id, Lease> {
    match e
    case Booted(_, rekey) =>
      map id | id in leases :: Superseded(leases[id], if rekey then Rekeyed else IncarnationReplaced)
    case Acquired(lease) => leases[lease.id := lease]
    case LeasesExpired(now) => map id | id in leases :: Lapsed(leases[id], now)
    case LeaseStepped(id, step) => if id !in leases then leases else leases[id := LeaseAfter(leases[id], step)]
    case HostsInvalidated => map id | id in leases :: Invalidated(leases[id])
    case _ => leases
  }

  function OperationsAfter(operations: map<OpKey, Op>, e: Entry): map<OpKey, Op> {
    match e
    case Booted(boot, _) => map k | k in operations :: Rotated(operations[k], boot.createdAt)
    case IntentStored(_, intent) =>
      operations[intent.Key() := Op(intent, IntentRecorded, None, None, None, None, intent.now)]
    case Dispatched(_, key, now) =>
      if key !in operations then operations
      else operations[key := operations[key].(state := MayHaveBeenDispatched, updatedAt := now)]
    case OutcomeStored(op) => operations[op.intent.Key() := op]
    case Shelved(cutoff, _) => map k | k in operations && !Shelvable(operations[k], cutoff) :: operations[k]
    case _ => operations
  }

  function ArchiveAfter(operations: map<OpKey, Op>, archive: map<OpKey, Archived>, e: Entry): map<OpKey, Archived> {
    match e
    case Shelved(cutoff, now) =>
      archive + map k | k in operations && Shelvable(operations[k], cutoff) :: Archived(operations[k], now)
    case Purged(now) => map k | k in archive && archive[k].at > PurgeCutoff(now) :: archive[k]
    case _ => archive
  }

  function TicketsAfter(tickets: map<Id, Ticket>, e: Entry): map<Id, Ticket> {
    match e
    case TicketStored(ticket, _) => tickets[ticket.id := ticket]
    case TicketMoved(id, state, _) =>
      if id !in tickets then tickets else tickets[id := tickets[id].(state := state)]
    case TicketsExpired(now) => map id | id in tickets :: TicketLapsed(tickets[id], now)
    case _ => tickets
  }

  function ClaimsAfter(claims: map<Id, Claim>, e: Entry): map<Id, Claim> {
    match e
    case Claimed(claim) => claims[claim.operation := claim]
    case _ => claims
  }

  function Commit(t: Tables, e: Entry): Tables {
    Tables(AuthorityAfter(t.authority, e), LeasesAfter(t.leases, e), OperationsAfter(t.operations, e),
           ArchiveAfter(t.operations, t.archive, e), TicketsAfter(t.tickets, e), ClaimsAfter(t.claims, e))
  }

  // ---- what each change requires ----------------------------------------------------------------

  /** The proof names this row, with its token. */
  predicate Presents(t: Tables, p: Proof) {
    p.lease in t.leases && t.leases[p.lease].token == p.token && t.leases[p.lease].ProvedBy(p)
  }

  predicate AuthorityMatches(t: Tables, p: Proof) {
    t.authority.Some?
    && var b := t.authority.value.boot;
       b.state.Ready? && b.id == p.boot && b.incarnation == p.incarnation && b.generation == p.generation
  }

  /** The proof is that of a live lease under the current, fenced boot. */
  predicate InContext(t: Tables, p: Proof, now: Millis) {
    Presents(t, p) && t.leases[p.lease].status.Active? && t.leases[p.lease].expiresAt > now && AuthorityMatches(t, p)
  }

  predicate StepAllowed(t: Tables, id: Id, step: LeaseStep)
    requires id in t.leases
  {
    var row := t.leases[id];
    match step
    case Lapse(p, now) => Presents(t, p) && p.lease == id && row.status.Active? && row.expiresAt <= now
    case Renew(p, sequence, now) =>
      InContext(t, p, now) && p.lease == id && sequence > row.lastRenew
    case Revoke(p, _) => Presents(t, p) && p.lease == id && row.status.Active?
    case PrepareInstall(installation, _, fence, now) =>
      row.status.Active? && row.expiresAt > now && row.host.installation.None?
      && t.authority.Some? && row.IssuedUnder(t.authority.value.boot) && t.authority.value.fence == Some(fence)
      && (forall j :: j in t.leases ==> t.leases[j].host.installation != Some(installation))
    case SetDigest(installation, _) =>
      row.host.installation == Some(installation)
      && (row.host.state.PendingInstall? || row.host.state.PendingRenew? || row.host.state.PendingRevoke?)
    case AckInstall(installation, digest, _, ack) =>
      row.host.installation == Some(installation) && row.host.digest == Some(digest)
      && row.host.state.PendingInstall? && ack.at < row.expiresAt
    case PrepareRenew(p, sequence, now) =>
      InContext(t, p, now) && p.lease == id && row.host.state.Installed? && sequence > row.lastRenew
      && now + row.ttl * 1000 > row.expiresAt
    case CommitRenew(installation, digest, pending, _, ack) =>
      row.status.Active? && row.host.installation == Some(installation) && row.host.digest == Some(digest)
      && row.host.state.PendingRenew? && row.host.pending == Some(pending) && pending.expiresAt > row.expiresAt
      && ack.at < pending.expiresAt
    case BeginRevoke(p, _) => Presents(t, p) && p.lease == id && row.status.Active? && row.host.state.Installed?
    case AckRevoke(installation, digest, _, _) =>
      row.host.installation == Some(installation) && row.host.digest == Some(digest) && row.host.state.PendingRevoke?
  }

  function Lookup(t: Tables, key: OpKey): Option<Op> {
    if key in t.operations then Some(t.operations[key])
    else if key in t.archive then Some(t.archive[key].op)
    else None
  }

  function Unresolved(t: Tables): set<OpKey> {
    set k | k in t.operations && t.operations[k].state.Unresolved()
  }

  predicate EvidenceFits(op: Op) {
    (op.uncertainty.Some? <==> op.state.Unknown?)
    && (op.state.Settled? || op.state.Reconciled? ==> op.evidence.Some?)
    && (op.evidence.Some? ==> op.Bound(op.evidence.value))
  }

  ghost predicate Permitted(cfg: Config, t: Tables, e: Entry) {
    match e
    case Booted(boot, rekey) =>
      boot.state.FenceRequired? && boot.generation <= MAX_WIRE
      && (if t.authority.None? then !rekey && boot.generation == 1
          else var last := t.authority.value.boot;
               boot.generation == last.generation + 1 && boot.instance == last.instance && boot.release == last.release
               && (!rekey ==> boot.deployment == last.deployment))
    case Fenced(_, _) => t.authority.Some? && t.authority.value.boot.state.FenceRequired?
    case Acquired(lease) =>
      lease.id !in t.leases && lease.status.Active? && lease.host == NoHost
      && t.authority.Some? && t.authority.value.boot.state.Ready? && lease.IssuedUnder(t.authority.value.boot)
      && (forall j :: j in t.leases ==> !t.leases[j].status.Active?)
      && (forall j :: j in t.leases ==> t.leases[j].epoch < lease.epoch)
    case LeaseStepped(id, step) => id in t.leases && StepAllowed(t, id, step)
    case IntentStored(p, intent) =>
      InContext(t, p, intent.now) && intent.For(p) && Lookup(t, intent.Key()).None?
      && (forall k :: k in Unresolved(t) && k.instance == intent.instance ==>
            t.operations[k].intent.incarnation != intent.incarnation)
      && |Unresolved(t)| < cfg.unresolvedCapacity
      && |t.operations| + |t.archive| < cfg.retainedCapacity
    case Dispatched(p, key, now) =>
      InContext(t, p, now) && key in t.operations && t.operations[key].state.IntentRecorded?
      && t.operations[key].intent.lease == p.lease && t.operations[key].intent.generation == p.generation
      && t.operations[key].intent.boot == p.boot && t.operations[key].intent.incarnation == p.incarnation
      && t.operations[key].intent.epoch == p.epoch
    case OutcomeStored(op) =>
      op.intent.Key() in t.operations
      && var before := t.operations[op.intent.Key()];
         before.intent == op.intent && ValidTransition(before.state, op.state) && EvidenceFits(op)
    case Shelved(cutoff, now) => cutoff + RETENTION <= now
    case TicketStored(ticket, voucher) =>
      ticket.id !in t.tickets && (forall j :: j in t.tickets ==> t.tickets[j].Key() != ticket.Key())
      && Lookup(t, ticket.Key()).Some? && ticket.Fits(Lookup(t, ticket.Key()).value)
      && !voucher.ByTransition? && (voucher.ByLease? ==> VouchedFor(t, voucher.proof, ticket))
    case TicketMoved(id, state, voucher) =>
      id in t.tickets && (t.tickets[id].state == state || ValidTicketTransition(t.tickets[id].state, state))
      && (voucher.ByLease? ==> VouchedFor(t, voucher.proof, t.tickets[id]))
      && (voucher.ByTransition? ==> Presents(t, voucher.proof) && AuthorityMatches(t, voucher.proof)
                                    && t.tickets[id].epoch == voucher.proof.epoch)
    case Claimed(claim) =>
      claim.operation !in t.claims && |t.claims| < MAX_CLAIMS && Holds(t, claim.owner, claim.at)
      && (forall o :: o in t.claims ==>
            !(t.claims[o].owner.lease == claim.owner.lease && t.claims[o].owner.epoch == claim.owner.epoch))
    case _ => true
  }

  /** A live lease under the current boot presented the ticket, and its deadline covers the ticket's. */
  predicate VouchedFor(t: Tables, p: Proof, ticket: Ticket) {
    Presents(t, p) && t.leases[p.lease].status.Active? && AuthorityMatches(t, p)
    && ticket.epoch == p.epoch && ticket.expiresAt <= t.leases[p.lease].expiresAt
  }

  /** The owner is an active, unexpired, installed lease, described as it stands. */
  predicate Holds(t: Tables, owner: Owner, now: Millis) {
    owner.lease in t.leases
    && var row := t.leases[owner.lease];
       row.status.Active? && row.expiresAt > now && row.host.state.Installed?
       && row.epoch == owner.epoch && row.session == owner.session && row.expiresAt == owner.expiresAt
       && row.generation == owner.generation
  }

  /** Rows after a log, from an empty store. */
  function Replay(log: seq<Entry>): Tables {
    if log == [] then Empty else Commit(Replay(log[..|log| - 1]), log[|log| - 1])
  }

  ghost predicate Legal(cfg: Config, log: seq<Entry>) {
    log == [] || (Legal(cfg, log[..|log| - 1]) && Permitted(cfg, Replay(log[..|log| - 1]), log[|log| - 1]))
  }

  // ---- invariant --------------------------------------------------------------------------------

  function Generation(t: Tables): nat {
    if t.authority.Some? then t.authority.value.boot.generation else 0
  }

  /** A fence is recorded exactly when the boot is ready. */
  ghost predicate AuthorityFits(t: Tables) {
    t.authority.Some? ==> t.authority.value.boot.generation >= 1
                          && (t.authority.value.boot.state.Ready? <==> t.authority.value.fence.Some?)
  }

  /** Leases of the current generation belong to the current ready boot; earlier ones have no live state left. */
  ghost predicate LeaseFits(t: Tables, row: Lease) {
    && row.generation <= Generation(t)
    && (row.generation == Generation(t) ==> t.authority.Some? && t.authority.value.boot.state.Ready?
                                            && row.IssuedUnder(t.authority.value.boot))
    && (row.generation < Generation(t) ==> !row.status.Active? && !row.host.state.Live())
    && (row.host.state.Uninstalled? <==> row.host.installation.None?)
    && (row.host.state.Uninstalled? <==> row.host.fence.None?)
    && (row.generation == Generation(t) && !row.host.state.Uninstalled? ==> row.host.fence == t.authority.value.fence)
  }

  ghost predicate LeasesFit(t: Tables) {
    forall id :: id in t.leases ==> t.leases[id].id == id && LeaseFits(t, t.leases[id])
  }

  /** Epochs are unique, and an active lease has the largest. */
  ghost predicate EpochsOrdered(t: Tables) {
    && (forall i, j :: i in t.leases && j in t.leases && t.leases[i].epoch == t.leases[j].epoch ==> i == j)
    && (forall i, j :: i in t.leases && j in t.leases && t.leases[i].status.Active? ==>
          t.leases[j].epoch <= t.leases[i].epoch)
  }

  ghost predicate OperationsFit(t: Tables) {
    && (forall k :: k in t.operations ==> t.operations[k].intent.Key() == k && EvidenceFits(t.operations[k]))
    && (forall k :: k in t.archive ==>
          k !in t.operations && t.archive[k].op.intent.Key() == k && EvidenceFits(t.archive[k].op)
          && !t.archive[k].op.state.Unresolved() && t.archive[k].op.updatedAt + RETENTION <= t.archive[k].at)
  }

  ghost predicate OneUnresolvedPerIncarnation(t: Tables) {
    forall j, k :: (j in Unresolved(t) && k in Unresolved(t) && j.instance == k.instance
                    && t.operations[j].intent.incarnation == t.operations[k].intent.incarnation) ==> j == k
  }

  ghost predicate CapacityKept(cfg: Config, t: Tables) {
    |Unresolved(t)| <= cfg.unresolvedCapacity && |t.operations| + |t.archive| <= cfg.retainedCapacity
  }

  ghost predicate TicketsFit(t: Tables) {
    && (forall id :: id in t.tickets ==> t.tickets[id].id == id)
    && (forall i, j :: i in t.tickets && j in t.tickets && t.tickets[i].Key() == t.tickets[j].Key() ==> i == j)
  }

  ghost predicate ClaimsFit(t: Tables) {
    && |t.claims| <= MAX_CLAIMS
    && (forall o :: o in t.claims ==> t.claims[o].operation == o)
    && (forall o, q :: (o in t.claims && q in t.claims && t.claims[o].owner.lease == t.claims[q].owner.lease
                        && t.claims[o].owner.epoch == t.claims[q].owner.epoch) ==> o == q)
  }

  ghost predicate Invariant(cfg: Config, t: Tables) {
    && AuthorityFits(t) && LeasesFit(t) && EpochsOrdered(t)
    && OperationsFit(t) && OneUnresolvedPerIncarnation(t) && CapacityKept(cfg, t)
    && TicketsFit(t) && ClaimsFit(t)
  }

  lemma LedgerFits(cfg: Config, t: Tables)
    requires Invariant(cfg, t)
    ensures OperationsFit(t)
  {
  }

  // ---- every change keeps the invariant -----------------------------------------------------------

  lemma StepKeepsAuthority(cfg: Config, t: Tables, e: Entry)
    requires AuthorityFits(t) && Permitted(cfg, t, e)
    ensures AuthorityFits(Commit(t, e))
  {
    hide LeasesAfter, OperationsAfter, ArchiveAfter, TicketsAfter, ClaimsAfter;
  }

  lemma LeaseStepKeeps(t: Tables, id: Id, step: LeaseStep)
    requires LeasesFit(t) && id in t.leases && StepAllowed(t, id, step)
    ensures LeaseFits(t, LeaseAfter(t.leases[id], step)) && LeaseAfter(t.leases[id], step).id == id
  {
  }

  lemma LeaseFitsByAuthority(t: Tables, u: Tables, row: Lease)
    requires t.authority == u.authority && LeaseFits(t, row)
    ensures LeaseFits(u, row)
  {
  }

  lemma BootKeeps(t: Tables, e: Entry, row: Lease)
    requires e.Booted? && AuthorityFits(t) && LeaseFits(t, row)
    requires e.boot.generation == Generation(t) + 1
    ensures LeaseFits(Commit(t, e), Superseded(row, if e.rekey then Rekeyed else IncarnationReplaced))
  {
    hide LeasesAfter, OperationsAfter, ArchiveAfter, TicketsAfter, ClaimsAfter;
  }

  /** Changes that neither boot nor step a lease leave every row fitting. */
  lemma OtherLeaseChange(cfg: Config, t: Tables, e: Entry, id: Id)
    requires AuthorityFits(t) && LeasesFit(t) && Permitted(cfg, t, e) && !e.Booted? && !e.LeaseStepped?
    requires id in Commit(t, e).leases
    ensures Commit(t, e).leases[id].id == id && LeaseFits(Commit(t, e), Commit(t, e).leases[id])
  {
    hide OperationsAfter, ArchiveAfter, TicketsAfter, ClaimsAfter, LeaseAfter, StepAllowed, Holds, Lookup, EvidenceFits;
    assert id in t.leases ==> LeaseFits(t, t.leases[id]);
  }

  lemma SteppedLease(cfg: Config, t: Tables, e: Entry, id: Id)
    requires LeasesFit(t) && Permitted(cfg, t, e) && e.LeaseStepped? && id in Commit(t, e).leases
    ensures Commit(t, e).leases[id].id == id && LeaseFits(Commit(t, e), Commit(t, e).leases[id])
  {
    hide OperationsAfter, ArchiveAfter, TicketsAfter, ClaimsAfter, LeaseAfter, StepAllowed, LeaseFits;
    LeaseStepKeeps(t, e.id, e.step);
    LeaseFitsByAuthority(t, Commit(t, e), Commit(t, e).leases[id]);
  }

  lemma BootedLease(cfg: Config, t: Tables, e: Entry, id: Id)
    requires AuthorityFits(t) && LeasesFit(t) && Permitted(cfg, t, e) && e.Booted? && id in Commit(t, e).leases
    ensures Commit(t, e).leases[id].id == id && LeaseFits(Commit(t, e), Commit(t, e).leases[id])
  {
    hide OperationsAfter, ArchiveAfter, TicketsAfter, ClaimsAfter, LeaseFits;
    BootKeeps(t, e, t.leases[id]);
  }

  lemma StepKeepsLeases(cfg: Config, t: Tables, e: Entry)
    requires AuthorityFits(t) && LeasesFit(t) && Permitted(cfg, t, e)
    ensures LeasesFit(Commit(t, e))
  {
    hide Commit, Permitted, LeaseFits, AuthorityFits;
    forall id | id in Commit(t, e).leases
      ensures Commit(t, e).leases[id].id == id && LeaseFits(Commit(t, e), Commit(t, e).leases[id])
    {
      if e.Booted? {
        BootedLease(cfg, t, e, id);
      } else if e.LeaseStepped? {
        SteppedLease(cfg, t, e, id);
      } else {
        OtherLeaseChange(cfg, t, e, id);
      }
    }
  }

  lemma StepKeepsEpochs(cfg: Config, t: Tables, e: Entry)
    requires EpochsOrdered(t) && Permitted(cfg, t, e)
    ensures EpochsOrdered(Commit(t, e))
  {
    hide AuthorityAfter, LeasesAfter, OperationsAfter, ArchiveAfter, TicketsAfter, ClaimsAfter, StepAllowed;
    var u := Commit(t, e);
    forall id | id in u.leases
      ensures (id in t.leases && u.leases[id].epoch == t.leases[id].epoch
               && (u.leases[id].status.Active? ==> t.leases[id].status.Active?))
              || (e.Acquired? && u.leases[id] == e.lease && id == e.lease.id)
    {
      LeaseOrigin(t, e, id);
    }
  }

  lemma LeaseOrigin(t: Tables, e: Entry, id: Id)
    requires id in Commit(t, e).leases
    ensures (id in t.leases && Commit(t, e).leases[id].epoch == t.leases[id].epoch
             && (Commit(t, e).leases[id].status.Active? ==> t.leases[id].status.Active?))
            || (e.Acquired? && Commit(t, e).leases[id] == e.lease && id == e.lease.id)
  {
    hide AuthorityAfter, OperationsAfter, ArchiveAfter, TicketsAfter, ClaimsAfter, LeaseAfter;
    if e.LeaseStepped? && id == e.id {
      StepKeepsEpoch(t.leases[e.id], e.step);
    }
  }

  lemma StepKeepsEpoch(row: Lease, step: LeaseStep)
    ensures LeaseAfter(row, step).epoch == row.epoch
    ensures LeaseAfter(row, step).status.Active? ==> row.status.Active?
  {
  }

  lemma OperationFitsAfter(cfg: Config, t: Tables, e: Entry, k: OpKey)
    requires OperationsFit(t) && Permitted(cfg, t, e) && k in Commit(t, e).operations
    ensures Commit(t, e).operations[k].intent.Key() == k && EvidenceFits(Commit(t, e).operations[k])
  {
    hide AuthorityAfter, LeasesAfter, ArchiveAfter, TicketsAfter, ClaimsAfter, StepAllowed;
  }

  lemma ArchiveFitsAfter(cfg: Config, t: Tables, e: Entry, k: OpKey)
    requires OperationsFit(t) && Permitted(cfg, t, e) && k in Commit(t, e).archive
    ensures var a := Commit(t, e).archive[k];
            k !in Commit(t, e).operations && a.op.intent.Key() == k && EvidenceFits(a.op)
            && !a.op.state.Unresolved() && a.op.updatedAt + RETENTION <= a.at
  {
    hide AuthorityAfter, LeasesAfter, TicketsAfter, ClaimsAfter, StepAllowed;
  }

  lemma StepKeepsOperations(cfg: Config, t: Tables, e: Entry)
    requires OperationsFit(t) && Permitted(cfg, t, e)
    ensures OperationsFit(Commit(t, e))
  {
    hide Permitted, Commit;
    forall k | k in Commit(t, e).operations
      ensures Commit(t, e).operations[k].intent.Key() == k && EvidenceFits(Commit(t, e).operations[k])
    {
      OperationFitsAfter(cfg, t, e, k);
    }
    forall k | k in Commit(t, e).archive
      ensures var a := Commit(t, e).archive[k];
              k !in Commit(t, e).operations && a.op.intent.Key() == k && EvidenceFits(a.op)
              && !a.op.state.Unresolved() && a.op.updatedAt + RETENTION <= a.at
    {
      ArchiveFitsAfter(cfg, t, e, k);
    }
  }

  /** Operations keep their intent; whatever is unresolved afterwards was unresolved before, unless just recorded. */
  lemma UnresolvedShrinks(cfg: Config, t: Tables, e: Entry, k: OpKey)
    requires OperationsFit(t) && Permitted(cfg, t, e) && k in Unresolved(Commit(t, e))
    ensures (k in Unresolved(t) && Commit(t, e).operations[k].intent == t.operations[k].intent)
            || (e.IntentStored? && k == e.intent.Key() && k !in t.operations)
  {
    hide AuthorityAfter, LeasesAfter, ArchiveAfter, TicketsAfter, ClaimsAfter, StepAllowed;
  }

  lemma StepKeepsUnresolved(cfg: Config, t: Tables, e: Entry)
    requires OperationsFit(t) && OneUnresolvedPerIncarnation(t) && Permitted(cfg, t, e)
    ensures OneUnresolvedPerIncarnation(Commit(t, e))
  {
    hide AuthorityAfter, LeasesAfter, OperationsAfter, ArchiveAfter, TicketsAfter, ClaimsAfter, StepAllowed;
    var u := Commit(t, e);
    forall k | k in Unresolved(u)
      ensures (k in Unresolved(t) && u.operations[k].intent == t.operations[k].intent)
              || (e.IntentStored? && k == e.intent.Key() && u.operations[k].intent == e.intent)
    {
      UnresolvedShrinks(cfg, t, e, k);
      IntentStoredAt(t, e, k);
    }
  }

  lemma IntentStoredAt(t: Tables, e: Entry, k: OpKey)
    ensures e.IntentStored? && k == e.intent.Key() ==>
              k in Commit(t, e).operations && Commit(t, e).operations[k].intent == e.intent
  {
  }

  lemma TicketOrigin(cfg: Config, t: Tables, e: Entry, id: Id)
    requires Permitted(cfg, t, e) && id in Commit(t, e).tickets
    ensures (id in t.tickets && Commit(t, e).tickets[id].id == t.tickets[id].id
             && Commit(t, e).tickets[id].Key() == t.tickets[id].Key())
            || (e.TicketStored? && id == e.ticket.id && Commit(t, e).tickets[id] == e.ticket)
  {
    hide AuthorityAfter, LeasesAfter, OperationsAfter, ArchiveAfter, ClaimsAfter, StepAllowed, Lookup, EvidenceFits, Holds;
  }

  lemma StepKeepsTickets(cfg: Config, t: Tables, e: Entry)
    requires TicketsFit(t) && Permitted(cfg, t, e)
    ensures TicketsFit(Commit(t, e))
  {
    hide Commit, StepAllowed, Lookup, EvidenceFits, Holds, VouchedFor, InContext;
    var u := Commit(t, e);
    forall id | id in u.tickets
      ensures (id in t.tickets && u.tickets[id].id == t.tickets[id].id && u.tickets[id].Key() == t.tickets[id].Key())
              || (e.TicketStored? && id == e.ticket.id && u.tickets[id] == e.ticket)
    {
      TicketOrigin(cfg, t, e, id);
    }
  }

  lemma StepKeepsClaims(cfg: Config, t: Tables, e: Entry)
    requires ClaimsFit(t) && Permitted(cfg, t, e)
    ensures ClaimsFit(Commit(t, e))
  {
    hide AuthorityAfter, LeasesAfter, OperationsAfter, ArchiveAfter, TicketsAfter, StepAllowed;
  }

  /** The two tables after shelving partition the rows of the two tables before it. */
  lemma ShelvedRows(operations: map<OpKey, Op>, archive: map<OpKey, Archived>, cutoff: Millis, now: Millis)
    requires operations.Keys !! archive.Keys
    ensures var left := OperationsAfter(operations, Shelved(cutoff, now));
            var kept := ArchiveAfter(operations, archive, Shelved(cutoff, now));
            left.Keys !! kept.Keys && |left| + |kept| == |operations| + |archive|
  {
    var left := OperationsAfter(operations, Shelved(cutoff, now));
    var kept := ArchiveAfter(operations, archive, Shelved(cutoff, now));
    var moved := set k | k in operations && Shelvable(operations[k], cutoff);
    Moved(operations.Keys, left.Keys, archive.Keys, kept.Keys, moved);
  }

  lemma Moved<T>(from: set<T>, left: set<T>, into: set<T>, grown: set<T>, moved: set<T>)
    requires moved <= from && left == from - moved && from !! into && grown == into + moved
    ensures left !! grown && |left| + |grown| == |from| + |into|
  {
  }

  lemma ShelvedLookup(t: Tables, e: Entry, k: OpKey)
    requires e.Shelved? && (k in t.archive ==> k !in t.operations)
    ensures Lookup(Commit(t, e), k) == Lookup(t, k)
  {
    hide AuthorityAfter, LeasesAfter, TicketsAfter, ClaimsAfter;
  }

  /** Shelving moves operations from one table to the other: every lookup and the total are unchanged. */
  lemma ShelvingConserves(t: Tables, e: Entry)
    requires OperationsFit(t) && e.Shelved?
    ensures forall k :: Lookup(Commit(t, e), k) == Lookup(t, k)
    ensures |Commit(t, e).operations| + |Commit(t, e).archive| == |t.operations| + |t.archive|
  {
    hide AuthorityAfter, LeasesAfter, OperationsAfter, ArchiveAfter, TicketsAfter, ClaimsAfter, Lookup;
    forall k
      ensures Lookup(Commit(t, e), k) == Lookup(t, k)
    {
      ShelvedLookup(t, e, k);
    }
    ShelvedRows(t.operations, t.archive, e.cutoff, e.now);
  }

  /** Only a new intent adds a retained row. */
  lemma RetainedRows(t: Tables, e: Entry)
    requires OperationsFit(t) && !e.IntentStored? && (e.OutcomeStored? ==> e.op.intent.Key() in t.operations)
    ensures |Commit(t, e).operations| + |Commit(t, e).archive| <= |t.operations| + |t.archive|
  {
    hide AuthorityAfter, LeasesAfter, TicketsAfter, ClaimsAfter, EvidenceFits;
    var u := Commit(t, e);
    match e
    case Shelved(_, _) => ShelvingConserves(t, e);
    case Purged(_) => SubsetSize(u.archive.Keys, t.archive.Keys);
    case Booted(_, _) => SubsetSize(u.operations.Keys, t.operations.Keys);
    case Dispatched(_, _, _) => SubsetSize(u.operations.Keys, t.operations.Keys);
    case OutcomeStored(_) => SubsetSize(u.operations.Keys, t.operations.Keys);
    case _ =>
  }

  lemma StepKeepsRetained(cfg: Config, t: Tables, e: Entry)
    requires OperationsFit(t) && CapacityKept(cfg, t) && Permitted(cfg, t, e)
    ensures |Commit(t, e).operations| + |Commit(t, e).archive| <= cfg.retainedCapacity
  {
    hide AuthorityAfter, LeasesAfter, TicketsAfter, ClaimsAfter, StepAllowed;
    if !e.IntentStored? {
      RetainedRows(t, e);
    }
  }

  lemma StepKeepsCapacity(cfg: Config, t: Tables, e: Entry)
    requires OperationsFit(t) && CapacityKept(cfg, t) && Permitted(cfg, t, e)
    ensures CapacityKept(cfg, Commit(t, e))
  {
    hide AuthorityAfter, LeasesAfter, OperationsAfter, ArchiveAfter, TicketsAfter, ClaimsAfter, StepAllowed;
    StepKeepsRetained(cfg, t, e);
    var bound := if e.IntentStored? then Unresolved(t) + {e.intent.Key()} else Unresolved(t);
    forall k | k in Unresolved(Commit(t, e))
      ensures k in bound
    {
      UnresolvedShrinks(cfg, t, e, k);
    }
    SubsetSize(Unresolved(Commit(t, e)), bound);
  }

  lemma StepKeepsInvariant(cfg: Config, t: Tables, e: Entry)
    requires Invariant(cfg, t) && Permitted(cfg, t, e)
    ensures Invariant(cfg, Commit(t, e))
  {
    hide AuthorityFits, LeasesFit, EpochsOrdered, OperationsFit, OneUnresolvedPerIncarnation, CapacityKept;
    hide TicketsFit, ClaimsFit, Permitted, Commit;
    StepKeepsAuthority(cfg, t, e);
    StepKeepsLeases(cfg, t, e);
    StepKeepsEpochs(cfg, t, e);
    StepKeepsOperations(cfg, t, e);
    StepKeepsUnresolved(cfg, t, e);
    StepKeepsCapacity(cfg, t, e);
    StepKeepsTickets(cfg, t, e);
    StepKeepsClaims(cfg, t, e);
  }

  /** Every legal history leaves rows that satisfy the invariant. */
  lemma {:induction false} LegalKeepsInvariant(cfg: Config, log: seq<Entry>)
    requires Legal(cfg, log)
    ensures Invariant(cfg, Replay(log))
  {
    if log == [] {
      assert Unresolved(Empty) == {};
    } else {
      hide Invariant, Permitted, Commit;
      var n := |log| - 1;
      LegalKeepsInvariant(cfg, log[..n]);
      StepKeepsInvariant(cfg, Replay(log[..n]), log[n]);
    }
  }

  lemma {:induction false} PrefixLegal(cfg: Config, log: seq<Entry>, n: nat)
    requires n <= |log| && Legal(cfg, log)
    ensures Legal(cfg, log[..n])
  {
    hide Permitted, Commit;
    if n == |log| {
      assert log[..n] == log;
    } else {
      PrefixLegal(cfg, log[..|log| - 1], n);
      assert log[..|log| - 1][..n] == log[..n];
    }
  }

  lemma LegalAppend(cfg: Config, log: seq<Entry>, e: Entry)
    requires Legal(cfg, log) && Permitted(cfg, Replay(log), e)
    ensures Legal(cfg, log + [e]) && Replay(log + [e]) == Commit(Replay(log), e)
    ensures Invariant(cfg, Replay(log + [e]))
  {
    hide Invariant, Permitted, Commit;
    assert (log + [e])[..|log|] == log;
    LegalKeepsInvariant(cfg, log + [e]);
  }
}
