/**
 The gateway recovery store. Each method is one or more transactions over the tables; a transaction
 may fail without effect at any time, and format checks on opaque values may refuse a call.
 */
module RecoveryStore {
  import opened Outcomes
  import opened RecoveryTypes
  import opened RecoveryLog
  import opened RecoveryTheorems

  /** Refusals that depend on the database, on formats or on counter ranges rather than on the rows. */
  predicate Transient(error: Error) {
    error.SqlFailure? || error.InvalidInput? || error.CounterExhausted?
  }

  datatype AckKind = InstallAck | RevokeAck

  class GatewayRecoveryStore {
    const config: Config
    var authority: Option<Authority>
    var leases: map<Id, Lease>
    var operations: map<OpKey, Op>
    var archive: map<OpKey, Archived>
    var tickets: map<Id, Ticket>
    var claims: map<Id, Claim>
    /** Every committed change. */
    ghost var log: seq<Entry>
    /** How often the database failed, a format was refused or a drawn identifier was taken. */
    ghost var faults: nat

    function Rows(): Tables
      reads this
    {
      Tables(authority, leases, operations, archive, tickets, claims)
    }

    ghost predicate Valid()
      reads this
    {
      Legal(config, log) && Replay(log) == Rows()
    }

    constructor (config: Config)
      requires config.Valid()
      ensures Valid() && this.config == config && log == [] && Rows() == Empty && faults == 0
    {
      this.config := config;
      authority, leases, operations, archive, tickets, claims := None, map[], map[], map[], map[], map[];
      log, faults := [], 0;
    }

    lemma Sound()
      requires Valid()
      ensures Invariant(config, Rows())
    {
      LegalKeepsInvariant(config, log);
    }

    ghost method Record(e: Entry)
      requires Legal(config, log) && Permitted(config, Replay(log), e)
      modifies this`log
      ensures log == old(log) + [e] && Legal(config, log) && Replay(log) == Commit(Replay(old(log)), e)
    {
      LegalAppend(config, log, e);
      log := log + [e];
    }

    /** The rows changed exactly by this change. */
    twostate predicate Did(e: Entry)
      reads this
    {
      log == old(log) + [e] && Rows() == Commit(old(Rows()), e)
    }

    twostate predicate Untouched()
      reads this
    {
      log == old(log) && Rows() == old(Rows())
    }

    /** The proof belongs to an earlier authority generation. */
    predicate Outdated(p: Proof)
      reads this
    {
      p.generation < Generation(Rows())
    }

    /** A change under an outdated proof is never permitted. */
    lemma OutdatedIsRefused(e: Entry)
      requires Valid() && ProofOf(e).Some? && Outdated(ProofOf(e).value)
      ensures !Permitted(config, Rows(), e)
    {
      hide Legal, Permitted, Invariant;
      Sound();
      if Permitted(config, Rows(), e) {
        ProofIsCurrent(config, Rows(), e);
      }
    }

    /** Every value fits the integers of the wire format. */
    static predicate Exact(values: seq<nat>) {
      forall v :: v in values ==> v <= 9_007_199_254_740_991
    }

    static lemma ExactNone()
      ensures Exact([])
    {
    }

    static lemma ExactOne(v: nat)
      ensures Exact([v]) <==> v <= MAX_WIRE
    {
      assert v in [v];
    }

    static lemma ExactPart(values: seq<nat>, i: nat)
      requires i < |values| && Exact(values)
      ensures Exact([values[i]])
    {
      assert values[i] in values;
    }

    /** Wire integers are bounded by 2^53 - 1; formats of opaque values may be refused. */
    method Validate(values: seq<nat>) returns (r: Result<Unit, Error>)
      modifies this`faults
      ensures r.Err? <==> faults > old(faults) || !Exact(values)
      ensures faults >= old(faults) && (r.Err? ==> r.error.InvalidInput?)
    {
      var malformed: bool := *;
      if malformed { faults := faults + 1; }
      if malformed || exists v :: v in values && v > MAX_WIRE { return Err(InvalidInput); }
      return Ok(Unit);
    }

    /** A statement or transaction may fail. */
    method Transact() returns (r: Result<Unit, Error>)
      modifies this`faults
      ensures r.Err? <==> faults > old(faults)
      ensures faults >= old(faults) && (r.Err? ==> r.error.SqlFailure?)
    {
      var down: bool := *;
      if down { faults := faults + 1; }
      return if down then Err(SqlFailure) else Ok(Unit);
    }

    /** A generated identifier; one that is taken fails the insertion. */
    method Draw(taken: set<Id>) returns (r: Result<Id, Error>)
      modifies this`faults
      ensures r.Err? <==> faults > old(faults)
      ensures faults >= old(faults) && (r.Ok? ==> r.value !in taken) && (r.Err? ==> r.error.SqlFailure?)
    {
      var id: Id := *;
      if id in taken { faults := faults + 1; }
      return if id in taken then Err(SqlFailure) else Ok(id);
    }

    function CurrentFence(): Option<HostFence>
      reads this
    {
      if authority.None? || authority.value.fence.None? then None
      else
        var b := authority.value.boot;
        Some(HostFence(authority.value.fence.value, b.deployment, b.instance, b.incarnation, b.id, b.generation,
                       authority.value.fencedAt))
    }

    // ---- authority ----------------------------------------------------------------------------

    /** Start a boot: supersede every lease, mark unresolved operations unknown, require a new fence. */
    method StartBoot(deployment: Id, instance: Id, incarnation: Id, release: nat, now: Millis)
      returns (r: Result<Boot, Error>)
      requires Valid()
      modifies this`authority, this`leases, this`operations, this`log, this`faults
      ensures Valid()
      ensures r.Err? ==> Untouched()
      ensures r.Ok? ==> Did(Booted(r.value, false))
                        && authority == Some(Authority(r.value, None, 0)) && Revokes(old(leases), leases, IncarnationReplaced)
                        && Rotates(old(operations), operations, now)
      ensures r.Ok? ==> r.value == Boot(deployment, instance, incarnation, r.value.id,
                                        if old(authority).None? then 1 else old(authority).value.boot.generation + 1,
                                        release, now, FenceRequired)
      ensures r.Ok? ==> forall k :: k in operations ==>
                          !operations[k].state.IntentRecorded? && !operations[k].state.MayHaveBeenDispatched?
                          && !operations[k].state.Accepted?
      ensures r.Err? <==> faults > old(faults) || !Exact([now])
                          || (old(authority).Some? && (old(authority).value.boot.deployment != deployment
                                                       || old(authority).value.boot.instance != instance
                                                       || old(authority).value.boot.release != release
                                                       || old(authority).value.boot.generation >= MAX_WIRE))
    {
      hide Exact, Legal, Replay, LeasesAfter, OperationsAfter;
      var _ :- Validate([now]);
      var generation := 1;
      if authority.Some? {
        var last := authority.value.boot;
        if last.deployment != deployment || last.instance != instance { return Err(ContractMismatch); }
        if last.release != release { return Err(ReleaseMismatch); }
        if last.generation + 1 > MAX_WIRE { return Err(CounterExhausted); }
        generation := last.generation + 1;
      }
      var id: Id := *;
      var boot := Boot(deployment, instance, incarnation, id, generation, release, now, FenceRequired);
      var _ :- Transact();
      Supersede(boot, false);
      return Ok(boot);
    }

    /** Replace the deployment namespace of a restored store and start a fresh boot. */
    method RekeyNamespace(deployment: Id, instance: Id, release: nat, now: Millis) returns (r: Result<Boot, Error>)
      requires Valid()
      modifies this`authority, this`leases, this`operations, this`log, this`faults
      ensures Valid()
      ensures r.Err? ==> Untouched()
      ensures r.Ok? ==> Did(Booted(r.value, true))
                        && authority == Some(Authority(r.value, None, 0)) && Revokes(old(leases), leases, Rekeyed)
                        && Rotates(old(operations), operations, now)
      ensures r.Ok? ==> r.value == Boot(deployment, instance, r.value.incarnation, r.value.id,
                                        old(authority).value.boot.generation + 1, release, now, FenceRequired)
      ensures r.Ok? ==> forall k :: k in operations ==>
                          !operations[k].state.IntentRecorded? && !operations[k].state.MayHaveBeenDispatched?
                          && !operations[k].state.Accepted?
      ensures r.Err? <==> faults > old(faults) || !Exact([now]) || old(authority).None?
                          || old(authority).value.boot.instance != instance
                          || old(authority).value.boot.release != release
                          || old(authority).value.boot.generation >= MAX_WIRE
    {
      hide Exact, Legal, Replay, LeasesAfter, OperationsAfter;
      var _ :- Validate([now]);
      if authority.None? { return Err(AuthorityNotFound); }
      var last := authority.value.boot;
      if last.instance != instance { return Err(ContractMismatch); }
      if last.release != release { return Err(ReleaseMismatch); }
      if last.generation + 1 > MAX_WIRE { return Err(CounterExhausted); }
      var id: Id, incarnation: Id := *, *;
      var boot := Boot(deployment, instance, incarnation, id, last.generation + 1, release, now, FenceRequired);
      var _ :- Transact();
      Supersede(boot, true);
      return Ok(boot);
    }

    /** The transaction common to a boot and a rekey. */
    method Supersede(boot: Boot, rekey: bool)
      requires Valid() && Permitted(config, Rows(), Booted(boot, rekey))
      modifies this`authority, this`leases, this`operations, this`log
      ensures Valid() && Did(Booted(boot, rekey))
      ensures authority == Some(Authority(boot, None, 0)) && Rotates(old(operations), operations, boot.createdAt)
      ensures Revokes(old(leases), leases, if rekey then Rekeyed else IncarnationReplaced)
    {
      hide Revokes, Rotates, Superseded, Rotated, Legal, Replay, Permitted, LeasesAfter, OperationsAfter;
      Record(Booted(boot, rekey));
      var reason := if rekey then Rekeyed else IncarnationReplaced;
      var revoked := RevokeAll(reason);
      var rotated := RotateAll(boot.createdAt);
      SupersededRows(leases, boot, rekey, revoked);
      RotatedRows(operations, boot, rekey, rotated);
      leases, operations, authority := revoked, rotated, Some(Authority(boot, None, 0));
    }

    /** The leases with every active one revoked and every live host state invalidated. */
    method RevokeAll(reason: Reason) returns (rows: map<Id, Lease>)
      ensures rows.Keys == leases.Keys && forall id :: id in rows ==> rows[id] == Superseded(leases[id], reason)
    {
      var revoked := map id | id in leases ::
        if leases[id].status.Active? then leases[id].(status := Revoked, reason := Some(reason)) else leases[id];
      rows := map id | id in revoked ::
        if revoked[id].host.state.Live()
        then revoked[id].(host := revoked[id].host.(state := RestartInvalidated)) else revoked[id];
    }

    /** The operations with every unresolved one unknown since the rotation. */
    method RotateAll(now: Millis) returns (rows: map<OpKey, Op>)
      ensures rows.Keys == operations.Keys && forall k :: k in rows ==> rows[k] == Rotated(operations[k], now)
    {
      rows := map k | k in operations ::
        if operations[k].state.Unresolved()
        then operations[k].(state := Unknown, uncertainty := Some(AuthorityRotated), updatedAt := now)
        else operations[k];
    }

    /** The host answered the fence handshake of exactly this boot. */
    method CompleteHostFence(boot: Boot, mark: FenceRef, now: Millis) returns (r: Result<HostFence, Error>)
      requires Valid()
      modifies this`authority, this`log, this`faults
      ensures Valid()
      ensures r.Err? ==> Untouched()
      ensures r.Ok? ==> Did(Fenced(mark, now)) && authority == Some(Authority(boot.(state := Ready), Some(mark), now))
      ensures r.Ok? ==> r.value == HostFence(mark, boot.deployment, boot.instance, boot.incarnation, boot.id,
                                             boot.generation, now)
                        && CurrentFence() == Some(r.value)
      ensures r.Err? <==> faults > old(faults) || !Exact([mark.generation, now]) || old(authority).None?
                          || old(authority).value.boot != boot || boot.state != FenceRequired
    {
      hide Exact, Legal, Replay;
      var _ :- Validate([mark.generation, now]);
      if authority.None? { return Err(AuthorityNotFound); }
      if authority.value.boot != boot || !boot.state.FenceRequired? { return Err(StaleLease); }
      var _ :- Transact();
      Record(Fenced(mark, now));
      authority := Some(Authority(boot.(state := Ready), Some(mark), now));
      return Ok(HostFence(mark, boot.deployment, boot.instance, boot.incarnation, boot.id, boot.generation, now));
    }

    // ---- leases -------------------------------------------------------------------------------

    /** The live lease a proof stands for, or why it stands for none. */
    function EnsureContext(p: Proof, now: Millis): (r: Result<Lease, Error>)
      reads this
      ensures r.Ok? <==> InContext(Rows(), p, now)
      ensures r.Ok? <==> p.lease in leases && leases[p.lease].token == p.token
                         && leases[p.lease].deployment == p.deployment && leases[p.lease].instance == p.instance
                         && leases[p.lease].incarnation == p.incarnation && leases[p.lease].boot == p.boot
                         && leases[p.lease].generation == p.generation && leases[p.lease].epoch == p.epoch
                         && leases[p.lease].status == Active && leases[p.lease].expiresAt > now
                         && authority.Some? && authority.value.boot.state == Ready
                         && authority.value.boot.id == p.boot && authority.value.boot.incarnation == p.incarnation
                         && authority.value.boot.generation == p.generation
      ensures r.Ok? ==> r.value == leases[p.lease]
      ensures r.Err? ==> !Transient(r.error)
    {
      if p.lease !in leases || leases[p.lease].token != p.token then Err(LeaseNotFound)
      else
        var row := leases[p.lease];
        if !row.ProvedBy(p) then Err(StaleLease)
        else if row.status.Expired? then Err(LeaseExpired)
        else if row.status.Revoked? then Err(LeaseRevoked)
        else if row.expiresAt <= now then Err(LeaseExpired)
        else if authority.None? then Err(AuthorityNotFound)
        else
          var b := authority.value.boot;
          if !b.state.Ready? || b.id != p.boot || b.incarnation != p.incarnation || b.generation != p.generation
          then Err(StaleLease)
          else Ok(row)
    }

    /** An active lease was issued under the current, fenced boot. */
    lemma ActiveIsCurrent(id: Id)
      requires Valid() && id in leases && leases[id].status.Active?
      ensures authority.Some? && authority.value.boot.state.Ready? && leases[id].IssuedUnder(authority.value.boot)
    {
      hide Legal, Replay, Permitted;
      Sound();
      assert LeaseFits(Rows(), leases[id]);
    }

    /** Write one lease row. */
    method Write(id: Id, ghost step: LeaseStep, row: Lease)
      requires Valid() && id in leases && StepAllowed(Rows(), id, step) && row == LeaseAfter(leases[id], step)
      modifies this`leases, this`log
      ensures Valid() && Did(LeaseStepped(id, step)) && leases == old(leases)[id := row]
    {
      hide Exact, Legal, Replay, StepAllowed, LeaseAfter;
      Record(LeaseStepped(id, step));
      leases := leases[id := row];
    }

    /** Exactly the active leases past their deadline have ended. */
    static ghost predicate Lapses(before: map<Id, Lease>, after: map<Id, Lease>, now: Millis) {
      after.Keys == before.Keys
      && forall id :: id in after ==>
           after[id] == if before[id].status == Active && before[id].expiresAt <= now
                        then before[id].(status := Expired, reason := Some(Ttl)) else before[id]
    }

    static lemma LapsedFacts(before: map<Id, Lease>, after: map<Id, Lease>, now: Millis)
      requires Lapses(before, after, now)
      ensures after.Keys == before.Keys && forall id :: id in after ==> after[id].epoch == before[id].epoch
      ensures forall id :: id in after ==>
                (after[id].status.Active? <==> before[id].status.Active? && before[id].expiresAt > now)
    {
    }

    /** End every active lease whose deadline has passed. */
    method ExpireLeases(now: Millis) returns (r: Result<Unit, Error>)
      requires Valid()
      modifies this`leases, this`log, this`faults
      ensures Valid() && faults >= old(faults)
      ensures r.Err? ==> Untouched() && Transient(r.error)
      ensures r.Ok? ==> Did(LeasesExpired(now)) && Lapses(old(leases), leases, now)
      ensures r.Err? <==> faults > old(faults) || !Exact([now])
    {
      hide Exact, Legal, Replay;
      var _ :- Validate([now]);
      var _ :- Transact();
      Record(LeasesExpired(now));
      leases := map id | id in leases ::
        if leases[id].status.Active? && leases[id].expiresAt <= now
        then leases[id].(status := Expired, reason := Some(Ttl)) else leases[id];
      return Ok(Unit);
    }

    /** One more than the largest epoch ever issued. */
    method NextEpoch() returns (next: nat)
      ensures forall id :: id in leases ==> leases[id].epoch < next
      ensures next == 1 || exists id :: id in leases && leases[id].epoch + 1 == next
    {
      next := 1;
      var rest := leases.Keys;
      while rest != {}
        invariant rest <= leases.Keys
        invariant next == 1 || exists id :: id in leases && leases[id].epoch + 1 == next
        invariant forall id :: id in leases && id !in rest ==> leases[id].epoch < next
        decreases rest
      {
        var id :| id in rest;
        if leases[id].epoch >= next { next := leases[id].epoch + 1; }
        rest := rest - {id};
      }
    }

    /** The request names the current, fenced boot and its fence. */
    predicate UnderFence(request: LeaseRequest)
      reads this`authority
    {
      authority.Some? && authority.value.fence == Some(request.fence)
      && var b := authority.value.boot;
         b.state == Ready && b.deployment == request.deployment && b.instance == request.instance
         && b.incarnation == request.incarnation && b.id == request.boot && b.generation == request.generation
    }

    /**
     Issue the one active lease. Due leases are expired first, and stay expired even if the request is
     then refused.
     */
    method AcquireLease(request: LeaseRequest) returns (r: Result<Lease, Error>)
      requires Valid()
      modifies this`leases, this`log, this`faults
      ensures Valid()
      ensures r.Ok? ==>
                log == old(log) + [LeasesExpired(request.now), Acquired(r.value)]
                && r.value.id !in old(leases) && r.value.id in leases && Lapses(old(leases), leases - {r.value.id}, request.now)
                && leases[r.value.id] == r.value
      ensures r.Ok? ==>
                r.value == Lease(r.value.id, request.deployment, request.instance, request.incarnation, request.boot,
                                 request.generation, r.value.epoch, r.value.token, request.now,
                                 request.now + request.ttl * 1000, request.ttl, request.renewalInterval, 0,
                                 request.caller, request.session, Active, None,
                                 Host(Uninstalled, None, None, None, 0, 0, None, None))
                && (forall id :: id in old(leases) ==> old(leases)[id].epoch < r.value.epoch)
                && (r.value.epoch == 1 || exists id :: id in old(leases) && old(leases)[id].epoch + 1 == r.value.epoch)
      ensures r.Err? ==> Untouched() || (Did(LeasesExpired(request.now)) && Lapses(old(leases), leases, request.now))
      ensures r.Err? <==> faults > old(faults) || !Exact([request.now, request.generation, request.fence.generation])
                          || request.ttl != config.ttl || request.renewalInterval != config.renewalInterval
                          || !(5 <= request.ttl <= 300 && 0 < request.renewalInterval < request.ttl)
                          || !UnderFence(request)
                          || (exists id :: id in old(leases) && old(leases)[id].status == Active
                                           && old(leases)[id].expiresAt > request.now)
                          || (exists id :: id in old(leases) && old(leases)[id].epoch >= MAX_WIRE)
    {
      hide Exact, Legal, Replay, Commit, Lapses, UnderFence;
      var _ :- CheckRequest(request);
      ExactPart([request.now, request.generation, request.fence.generation], 0);
      var _ :- ExpireLeases(request.now);
      LapsedFacts(old(leases), leases, request.now);
      label Expired:
      if exists id :: id in leases && leases[id].status.Active? { return Err(LeaseBusy); }
      r := Issue(request);
      assert r.Ok? ==> leases - {r.value.id} == old@Expired(leases);
    }

    method CheckRequest(request: LeaseRequest) returns (r: Result<Unit, Error>)
      modifies this`faults
      ensures faults >= old(faults)
      ensures r.Err? <==> faults > old(faults) || !Exact([request.now, request.generation, request.fence.generation])
                          || request.ttl != config.ttl || request.renewalInterval != config.renewalInterval
                          || !(5 <= request.ttl <= 300 && 0 < request.renewalInterval < request.ttl)
                          || !UnderFence(request)
      ensures r != Err(LeaseBusy)
    {
      hide Exact;
      var _ :- Validate([request.now, request.generation, request.fence.generation]);
      if !(5 <= request.ttl <= 300) || request.renewalInterval == 0 || request.renewalInterval >= request.ttl {
        return Err(InvalidInput);
      }
      if request.ttl != config.ttl || request.renewalInterval != config.renewalInterval { return Err(InvalidInput); }
      if authority.None? { return Err(AuthorityNotFound); }
      var b := authority.value.boot;
      if !b.state.Ready? || b.deployment != request.deployment || b.instance != request.instance
         || b.incarnation != request.incarnation || b.id != request.boot || b.generation != request.generation {
        return Err(HostFenceRequired);
      }
      if authority.value.fence != Some(request.fence) { return Err(StaleLease); }
      return Ok(Unit);
    }

    /** Insert the next lease; no lease is active now. */
    method Issue(request: LeaseRequest) returns (r: Result<Lease, Error>)
      requires Valid() && UnderFence(request) && forall id :: id in leases ==> !leases[id].status.Active?
      modifies this`leases, this`log, this`faults
      ensures Valid() && faults >= old(faults)
      ensures r.Ok? ==> Did(Acquired(r.value)) && r.value.id !in old(leases) && leases == old(leases)[r.value.id := r.value]
      ensures r.Ok? ==>
                r.value == Lease(r.value.id, request.deployment, request.instance, request.incarnation, request.boot,
                                 request.generation, r.value.epoch, r.value.token, request.now,
                                 request.now + request.ttl * 1000, request.ttl, request.renewalInterval, 0,
                                 request.caller, request.session, Active, None,
                                 Host(Uninstalled, None, None, None, 0, 0, None, None))
                && (forall id :: id in old(leases) ==> old(leases)[id].epoch < r.value.epoch)
                && (r.value.epoch == 1 || exists id :: id in old(leases) && old(leases)[id].epoch + 1 == r.value.epoch)
      ensures r.Err? ==> Untouched() && !r.error.LeaseBusy?
      ensures r.Err? <==> faults > old(faults) || exists id :: id in old(leases) && old(leases)[id].epoch >= MAX_WIRE
    {
      hide Exact, Legal, Replay, Commit;
      var epoch := NextEpoch();
      ExactOne(epoch);
      var _ :- Validate([epoch]);
      var id :- Draw(leases.Keys);
      var token: nat := *;
      var lease := Lease(id, request.deployment, request.instance, request.incarnation, request.boot, request.generation,
                         epoch, token, request.now, request.now + request.ttl * 1000, request.ttl,
                         request.renewalInterval, 0, request.caller, request.session, Active, None, NoHost);
      var _ :- Transact();
      Insert(lease);
      return Ok(lease);
    }

    method Insert(lease: Lease)
      requires Valid() && Permitted(config, Rows(), Acquired(lease))
      modifies this`leases, this`log
      ensures Valid() && Did(Acquired(lease)) && leases == old(leases)[lease.id := lease]
    {
      hide Exact, Legal, Replay, Permitted;
      Record(Acquired(lease));
      leases := leases[lease.id := lease];
    }

    /** Extend a lease; the deadline never shortens, and a lease found past its deadline is ended instead. */
    method RenewLease(p: Proof, sequence: nat, now: Millis) returns (r: Result<Lease, Error>)
      requires Valid()
      modifies this`leases, this`log, this`faults
      ensures Valid()
      ensures r.Ok? ==> Did(LeaseStepped(p.lease, Renew(p, sequence, now)))
      ensures r.Ok? ==> var was := old(leases)[p.lease];
                        r.value == was.(expiresAt := if was.expiresAt > now + was.ttl * 1000 then was.expiresAt
                                                     else now + was.ttl * 1000, lastRenew := sequence)
                        && leases == old(leases)[p.lease := r.value]
      ensures r.Err? ==> Untouched()
                         || (r.error.LeaseExpired? && Did(LeaseStepped(p.lease, Lapse(p, now)))
                             && old(leases)[p.lease].expiresAt <= now && old(leases)[p.lease].status == Active
                             && leases == old(leases)[p.lease := old(leases)[p.lease].(status := Expired, reason := Some(Ttl))])
      ensures faults == old(faults) && Exact([sequence, now, p.generation, p.epoch]) && sequence > 0
              && Presents(old(Rows()), p) && old(leases)[p.lease].status == Active && old(leases)[p.lease].expiresAt <= now
              && AuthorityMatches(old(Rows()), p)
              ==> leases == old(leases)[p.lease := old(leases)[p.lease].(status := Expired, reason := Some(Ttl))]
      ensures r.Err? <==> faults > old(faults) || !Exact([sequence, now, p.generation, p.epoch]) || sequence == 0
                          || old(EnsureContext(p, now)).Err? || sequence <= old(leases)[p.lease].lastRenew
                          || !Exact([Later(old(leases)[p.lease].expiresAt, now + old(leases)[p.lease].ttl * 1000)])
      ensures old(Outdated(p)) ==> r.Err? && Untouched()
    {
      hide Exact, Legal, Replay, Commit;
      var _ :- Validate([sequence, now, p.generation, p.epoch]);
      if sequence == 0 { return Err(InvalidInput); }
      if authority.None? { return Err(AuthorityNotFound); }
      var b := authority.value.boot;
      Sound();
      if !b.state.Ready? || b.id != p.boot || b.incarnation != p.incarnation || b.generation != p.generation
         || b.deployment != p.deployment || b.instance != p.instance {
        return Err(StaleLease);
      }
      if p.lease !in leases || leases[p.lease].token != p.token { return Err(LeaseNotFound); }
      var row := leases[p.lease];
      if !row.ProvedBy(p) { return Err(StaleLease); }
      assert Presents(Rows(), p) && AuthorityMatches(Rows(), p);
      if row.status.Expired? { return Err(LeaseExpired); }
      if row.status.Revoked? { return Err(LeaseRevoked); }
      if row.expiresAt <= now {
        var _ :- Transact();
        Write(p.lease, Lapse(p, now), row.(status := Expired, reason := Some(Ttl)));
        return Err(LeaseExpired);
      }
      if sequence <= row.lastRenew { return Err(StaleLease); }
      var expires := Later(row.expiresAt, now + row.ttl * 1000);
      var _ :- Validate([expires]);
      var _ :- Transact();
      Write(p.lease, Renew(p, sequence, now), row.(expiresAt := expires, lastRenew := sequence));
      return Ok(leases[p.lease]);
    }

    method RevokeLease(p: Proof, text: nat) returns (r: Result<Unit, Error>)
      requires Valid()
      modifies this`leases, this`log, this`faults
      ensures Valid()
      ensures r.Ok? ==> Did(LeaseStepped(p.lease, Revoke(p, text)))
                        && leases == old(leases)[p.lease := old(leases)[p.lease].(status := Revoked, reason := Some(Stated(text)))]
      ensures r.Err? ==> Untouched()
      ensures r.Err? <==> faults > old(faults) || !Exact([p.generation, p.epoch]) || !Presents(old(Rows()), p)
                          || old(leases)[p.lease].status != Active
      ensures old(Outdated(p)) ==> r.Err?
    {
      hide Exact, Legal, Replay, Commit;
      var _ :- Validate([p.generation, p.epoch]);
      if p.lease !in leases || leases[p.lease].token != p.token { return Err(LeaseNotFound); }
      var row := leases[p.lease];
      if !row.ProvedBy(p) { return Err(StaleLease); }
      assert Presents(Rows(), p);
      if !row.status.Active? { return Err(LeaseRevoked); }
      if Outdated(p) { OutdatedIsRefused(LeaseStepped(p.lease, Revoke(p, text))); }
      var _ :- Transact();
      Write(p.lease, Revoke(p, text), row.(status := Revoked, reason := Some(Stated(text))));
      return Ok(Unit);
    }

    // ---- host half of a lease -------------------------------------------------------------------

    /** Record the installation identity before the host is asked to install the lease. */
    method PrepareHostInstall(id: Id, installation: Id, digest: nat, fence: FenceRef, now: Millis)
      returns (r: Result<Host, Error>)
      requires Valid()
      modifies this`leases, this`log, this`faults
      ensures Valid()
      ensures r.Ok? ==> id in old(leases)
                        && if old(leases)[id].host.installation.Some?
                           then Untouched() && r.value == old(leases)[id].host
                                && r.value.installation == Some(installation) && r.value.digest == Some(digest)
                                && r.value.state in {PendingInstall, Installed}
                           else Did(LeaseStepped(id, PrepareInstall(installation, digest, fence, now)))
                                && r.value == Host(PendingInstall, Some(fence), Some(installation), Some(digest), 0, 0, None, None)
                                && leases == old(leases)[id := old(leases)[id].(host := r.value)]
      ensures r.Err? ==> Untouched()
      ensures r.Err? <==> faults > old(faults) || !Exact([fence.generation, now]) || id !in old(leases)
                          || now >= old(leases)[id].expiresAt || old(leases)[id].status != Active
                          || authority.None? || authority.value.fence != Some(fence)
                          || (old(leases)[id].host.installation.Some?
                              && (old(leases)[id].host.installation != Some(installation)
                                  || old(leases)[id].host.digest != Some(digest)
                                  || old(leases)[id].host.state !in {PendingInstall, Installed}))
                          || (old(leases)[id].host.installation.None?
                              && exists j :: j in old(leases) && j != id
                                             && old(leases)[j].host.installation == Some(installation))
    {
      hide Exact, Legal, Replay, Commit;
      var _ :- Validate([fence.generation, now]);
      if id !in leases { return Err(LeaseNotFound); }
      var row := leases[id];
      if now >= row.expiresAt { return Err(LeaseExpired); }
      if !row.status.Active? { return Err(if row.status.Expired? then LeaseExpired else LeaseRevoked); }
      ActiveIsCurrent(id);
      if authority.None? { return Err(AuthorityNotFound); }
      var b := authority.value.boot;
      if !b.state.Ready? || !row.IssuedUnder(b) || authority.value.fence != Some(fence) { return Err(StaleLease); }
      if row.host.installation.Some? {
        if row.host.installation != Some(installation) || row.host.digest != Some(digest) { return Err(OperationConflict); }
        if row.host.state.PendingInstall? || row.host.state.Installed? { return Ok(row.host); }
        return Err(OperationConflict);
      }
      if exists j :: j in leases && j != id && leases[j].host.installation == Some(installation) {
        return Err(OperationConflict);
      }
      var _ :- Transact();
      Write(id, PrepareInstall(installation, digest, fence, now),
            row.(host := Host(PendingInstall, Some(fence), Some(installation), Some(digest), 0, 0, None, None)));
      return Ok(leases[id].host);
    }

    method SetGrantDigest(id: Id, installation: Id, digest: nat) returns (r: Result<Unit, Error>)
      requires Valid()
      modifies this`leases, this`log, this`faults
      ensures Valid()
      ensures r.Ok? ==> Did(LeaseStepped(id, SetDigest(installation, digest)))
                        && leases == old(leases)[id := old(leases)[id].(host := old(leases)[id].host.(digest := Some(digest)))]
      ensures r.Err? ==> Untouched()
      ensures r.Err? <==> faults > old(faults) || id !in old(leases)
                          || old(leases)[id].host.installation != Some(installation)
                          || !(old(leases)[id].host.state.PendingInstall? || old(leases)[id].host.state.PendingRenew?
                               || old(leases)[id].host.state.PendingRevoke?)
    {
      hide Exact, Legal, Replay, Commit;
      ExactNone();
      var _ :- Validate([]);
      if id !in leases || leases[id].host.installation != Some(installation) { return Err(StaleLease); }
      var host := leases[id].host;
      if !host.state.PendingInstall? && !host.state.PendingRenew? && !host.state.PendingRevoke? { return Err(StaleLease); }
      var _ :- Transact();
      Write(id, SetDigest(installation, digest), leases[id].(host := host.(digest := Some(digest))));
      return Ok(Unit);
    }

    /** Commit an installation or revocation the host acknowledged; a duplicate replays the first. */
    method CompleteHostAck(kind: AckKind, id: Id, installation: Id, digest: nat, generation: nat, ack: Ack)
      returns (r: Result<Host, Error>)
      requires Valid()
      modifies this`leases, this`log, this`faults
      ensures Valid()
      ensures r.Ok? ==>
                id in old(leases)
                && var was := old(leases)[id];
                if was.host.state == (if kind.InstallAck? then PendingInstall else PendingRevoke)
                then Did(LeaseStepped(id, if kind.InstallAck? then AckInstall(installation, digest, generation, ack)
                                          else AckRevoke(installation, digest, generation, ack)))
                     && r.value == was.host.(state := if kind.InstallAck? then Installed else HostRevoked,
                                             generation := generation, renewSequence := 0, ack := Some(ack))
                     && leases == old(leases)[id := was.(host := r.value)]
                else Untouched() && r.value == was.host && was.host.generation == generation
                     && was.host.state == if kind.InstallAck? then Installed else HostRevoked
      ensures r.Err? ==> Untouched()
      ensures r.Err? <==> faults > old(faults) || !Exact([generation, ack.at]) || generation == 0 || id !in old(leases)
                          || (kind.InstallAck? && ack.at >= old(leases)[id].expiresAt)
                          || old(leases)[id].host.installation != Some(installation)
                          || old(leases)[id].host.digest != Some(digest)
                          || (old(leases)[id].host.state != (if kind.InstallAck? then PendingInstall else PendingRevoke)
                              && (old(leases)[id].host.state != (if kind.InstallAck? then Installed else HostRevoked)
                                  || old(leases)[id].host.generation != generation))
    {
      hide Exact, Legal, Replay, Commit;
      var _ :- Validate([generation, ack.at]);
      if generation == 0 { return Err(InvalidInput); }
      if id !in leases { return Err(LeaseNotFound); }
      var row := leases[id];
      if kind.InstallAck? && ack.at >= row.expiresAt { return Err(LeaseExpired); }
      if row.host.installation != Some(installation) || row.host.digest != Some(digest) { return Err(StaleLease); }
      var target := if kind.InstallAck? then Installed else HostRevoked;
      if row.host.state == target && row.host.generation == generation { return Ok(row.host); }
      if row.host.state != if kind.InstallAck? then PendingInstall else PendingRevoke { return Err(StaleLease); }
      var _ :- Transact();
      var host := row.host.(state := target, generation := generation, renewSequence := 0, ack := Some(ack));
      Write(id, if kind.InstallAck? then AckInstall(installation, digest, generation, ack)
                else AckRevoke(installation, digest, generation, ack), row.(host := host));
      return Ok(host);
    }

    /** Propose a renewal to the host; the local deadline moves only when the host acknowledges it. */
    method PrepareHostRenew(p: Proof, sequence: nat, now: Millis) returns (r: Result<Pending, Error>)
      requires Valid()
      modifies this`leases, this`log, this`faults
      ensures Valid()
      ensures r.Ok? ==>
                p.lease in old(leases)
                && var was := old(leases)[p.lease];
                   if was.host.state.PendingRenew?
                   then Untouched() && was.host.pending == Some(r.value) && r.value.sequence == sequence
                   else Did(LeaseStepped(p.lease, PrepareRenew(p, sequence, now)))
                        && r.value == Pending(sequence, now + was.ttl * 1000)
                        && leases == old(leases)[p.lease :=
                                                   was.(host := was.host.(state := PendingRenew, pending := Some(r.value)))]
      ensures r.Err? ==> Untouched()
      ensures r.Err? <==> faults > old(faults) || !Exact([sequence, now, p.generation, p.epoch]) || sequence == 0
                          || old(EnsureContext(p, now)).Err?
                          || !(old(leases)[p.lease].host.state.Installed? || old(leases)[p.lease].host.state.PendingRenew?)
                          || (old(leases)[p.lease].host.state.PendingRenew?
                              && (old(leases)[p.lease].host.pending.None?
                                  || old(leases)[p.lease].host.pending.value.sequence != sequence))
                          || (old(leases)[p.lease].host.state.Installed?
                              && (sequence <= old(leases)[p.lease].lastRenew
                                  || now + old(leases)[p.lease].ttl * 1000 <= old(leases)[p.lease].expiresAt))
      ensures old(Outdated(p)) ==> r.Err?
    {
      hide Exact, Legal, Replay, Commit;
      var _ :- Validate([sequence, now, p.generation, p.epoch]);
      if sequence == 0 { return Err(InvalidInput); }
      var row :- EnsureContext(p, now);
      if !row.host.state.Installed? && !row.host.state.PendingRenew? { return Err(HostFenceRequired); }
      if row.host.state.PendingRenew? {
        if row.host.pending.Some? && row.host.pending.value.sequence == sequence { return Ok(row.host.pending.value); }
        return Err(StaleLease);
      }
      if sequence <= row.lastRenew { return Err(StaleLease); }
      var expires := Later(row.expiresAt, now + row.ttl * 1000);
      if expires <= row.expiresAt { return Err(LeaseExpired); }
      var _ :- Transact();
      var pending := Pending(sequence, expires);
      Write(p.lease, PrepareRenew(p, sequence, now),
            row.(host := row.host.(state := PendingRenew, pending := Some(pending))));
      return Ok(pending);
    }

    /** The active lease waits for the host to acknowledge exactly this later deadline. */
    static predicate RenewPending(row: Lease, pending: Pending) {
      row.host.state.PendingRenew? && row.host.pending == Some(pending) && row.status.Active?
      && pending.expiresAt > row.expiresAt
    }

    /** Commit a pending renewal: host acknowledgment, deadline and sequence in one transaction. */
    method CompleteHostRenew(id: Id, installation: Id, digest: nat, pending: Pending, generation: nat, ack: Ack)
      returns (r: Result<Host, Error>)
      requires Valid()
      modifies this`leases, this`log, this`faults
      ensures Valid()
      ensures r.Ok? ==>
                id in old(leases)
                && var was := old(leases)[id];
                if was.host.state.PendingRenew?
                then Did(LeaseStepped(id, CommitRenew(installation, digest, pending, generation, ack)))
                     && r.value == was.host.(state := Installed, generation := generation,
                                             renewSequence := pending.sequence, ack := Some(ack), pending := None)
                     && leases == old(leases)[id := was.(expiresAt := pending.expiresAt, lastRenew := pending.sequence,
                                                         host := r.value)]
                else Untouched() && r.value == was.host
      ensures r.Err? ==> Untouched()
      ensures r.Err? <==> faults > old(faults)
                          || !Exact([pending.sequence, pending.expiresAt, generation, ack.at])
                          || pending.sequence == 0 || pending.expiresAt == 0 || generation == 0 || id !in old(leases)
                          || old(leases)[id].host.installation != Some(installation)
                          || ack.at >= pending.expiresAt || old(leases)[id].host.digest != Some(digest)
                          || old(leases)[id].host.generation != generation
                          || !(RenewPending(old(leases)[id], pending)
                               || (old(leases)[id].host.state.Installed?
                                   && old(leases)[id].host.renewSequence == pending.sequence))
    {
      hide Exact, Legal, Replay, Commit;
      var _ :- Validate([pending.sequence, pending.expiresAt, generation, ack.at]);
      if pending.sequence == 0 || pending.expiresAt == 0 || generation == 0 { return Err(InvalidInput); }
      if id !in leases { return Err(LeaseNotFound); }
      var row := leases[id];
      if row.host.installation != Some(installation) { return Err(StaleLease); }
      if ack.at >= pending.expiresAt { return Err(LeaseExpired); }
      if row.host.state.Installed? && row.host.generation == generation && row.host.renewSequence == pending.sequence
         && row.host.digest == Some(digest) {
        return Ok(row.host);
      }
      if !row.host.state.PendingRenew? || row.host.pending != Some(pending) || row.host.generation != generation
         || pending.expiresAt <= row.expiresAt {
        return Err(StaleLease);
      }
      if row.host.digest != Some(digest) || !row.status.Active? { return Err(StaleLease); }
      var _ :- Transact();
      var host := row.host.(state := Installed, generation := generation, renewSequence := pending.sequence,
                            ack := Some(ack), pending := None);
      Write(id, CommitRenew(installation, digest, pending, generation, ack),
            row.(expiresAt := pending.expiresAt, lastRenew := pending.sequence, host := host));
      return Ok(host);
    }

    /** Disable a lease locally and leave the host revocation pending. */
    method BeginHostRevoke(p: Proof, text: nat) returns (r: Result<Lease, Error>)
      requires Valid()
      modifies this`leases, this`log, this`faults
      ensures Valid()
      ensures r.Ok? ==>
                p.lease in old(leases) && r.value == old(leases)[p.lease]
                && if r.value.host.state.PendingRevoke? then Untouched()
                   else Did(LeaseStepped(p.lease, BeginRevoke(p, text)))
                        && leases == old(leases)[p.lease := r.value.(status := Revoked, reason := Some(Stated(text)),
                                                                     host := r.value.host.(state := PendingRevoke))]
      ensures r.Err? ==> Untouched()
      ensures r.Err? <==> faults > old(faults) || !Exact([p.generation, p.epoch]) || !Presents(old(Rows()), p)
                          || !(old(leases)[p.lease].host.state.PendingRevoke?
                               || (old(leases)[p.lease].host.state.Installed? && old(leases)[p.lease].status.Active?))
      ensures old(Outdated(p)) ==> r.Err?
    {
      hide Exact, Legal, Replay, Commit;
      var _ :- Validate([p.generation, p.epoch]);
      if p.lease !in leases || leases[p.lease].token != p.token { return Err(LeaseNotFound); }
      var row := leases[p.lease];
      if !row.ProvedBy(p) { return Err(StaleLease); }
      assert Presents(Rows(), p);
      Sound();
      assert LeaseFits(Rows(), row);
      if !row.host.state.Installed? && !row.host.state.PendingRevoke? { return Err(HostFenceRequired); }
      if row.host.state.PendingRevoke? { return Ok(row); }
      if !row.status.Active? { return Err(StaleLease); }
      var _ :- Transact();
      Write(p.lease, BeginRevoke(p, text),
            row.(status := Revoked, reason := Some(Stated(text)), host := row.host.(state := PendingRevoke)));
      return Ok(row);
    }

    method InvalidateHosts() returns (r: Result<Unit, Error>)
      requires Valid()
      modifies this`leases, this`log, this`faults
      ensures Valid()
      ensures r.Ok? ==> Did(HostsInvalidated) && leases.Keys == old(leases).Keys
      ensures r.Ok? ==> forall id :: id in leases ==>
                          var was := old(leases)[id];
                          leases[id] == if was.host.state.PendingInstall? || was.host.state.Installed?
                                           || was.host.state.PendingRenew? || was.host.state.PendingRevoke?
                                        then was.(host := was.host.(state := RestartInvalidated)) else was
      ensures r.Err? ==> Untouched()
      ensures r.Err? <==> faults > old(faults)
    {
      hide Exact, Legal, Replay;
      var _ :- Transact();
      Record(HostsInvalidated);
      leases := map id | id in leases ::
        if leases[id].host.state.Live() then leases[id].(host := leases[id].host.(state := RestartInvalidated))
        else leases[id];
      return Ok(Unit);
    }

    // ---- operations ---------------------------------------------------------------------------

    /** The intent is that of the lease presented. */
    static predicate Names(p: Proof, intent: Intent) {
      intent.deployment == p.deployment && intent.instance == p.instance && intent.incarnation == p.incarnation
      && intent.boot == p.boot && intent.generation == p.generation && intent.lease == p.lease && intent.epoch == p.epoch
    }

    /** No unresolved operation of the same incarnation, and room in both capacities. */
    predicate HasRoom(intent: Intent)
      reads this
    {
      (forall k :: k in operations && k.instance == intent.instance
                   && operations[k].intent.incarnation == intent.incarnation ==>
                     operations[k].state == Settled || operations[k].state == Rejected || operations[k].state == Reconciled)
      && |set k | k in operations && (operations[k].state.IntentRecorded? || operations[k].state.MayHaveBeenDispatched?
                                      || operations[k].state.Accepted? || operations[k].state.Unknown?)|
         < config.unresolvedCapacity
      && |operations| + |archive| < config.retainedCapacity
    }

    method CheckRoom(intent: Intent) returns (r: Result<Unit, Error>)
      ensures r.Ok? <==> HasRoom(intent)
      ensures r.Ok? ==> |Unresolved(Rows())| < config.unresolvedCapacity
                        && |operations| + |archive| < config.retainedCapacity
                        && forall k :: k in Unresolved(Rows()) && k.instance == intent.instance ==>
                             operations[k].intent.incarnation != intent.incarnation
    {
      assert Unresolved(Rows()) == set k | k in operations && operations[k].state.Unresolved();
      assert Unresolved(Rows())
          == set k | k in operations && (operations[k].state.IntentRecorded? || operations[k].state.MayHaveBeenDispatched?
                                         || operations[k].state.Accepted? || operations[k].state.Unknown?);
      if exists k :: k in operations && k.instance == intent.instance && operations[k].state.Unresolved()
                     && operations[k].intent.incarnation == intent.incarnation {
        return Err(CapacityExceeded);
      }
      if |set k | k in operations && operations[k].state.Unresolved()| >= config.unresolvedCapacity {
        return Err(CapacityExceeded);
      }
      if |operations| + |archive| >= config.retainedCapacity { return Err(CapacityExceeded); }
      return Ok(Unit);
    }

    /** Record an operation before anything is sent for it. A repeated intent is answered, not stored again. */
    method RecordIntent(p: Proof, intent: Intent) returns (r: Result<Op, Error>)
      requires Valid()
      modifies this`operations, this`log, this`faults
      ensures Valid()
      ensures r.Ok? ==> Lookup(Rows(), intent.Key()) == Some(r.value) && r.value.intent == intent.(now := r.value.intent.now)
      ensures r.Ok? ==> if Lookup(old(Rows()), intent.Key()).Some? then Untouched()
                        else Did(IntentStored(p, intent))
                             && r.value == Op(intent, IntentRecorded, None, None, None, None, intent.now)
                             && operations == old(operations)[OpKey(intent.instance, intent.operation) := r.value]
      ensures r.Err? ==> Untouched()
      ensures r.Err? <==> faults > old(faults)
                          || !Exact([intent.generation, intent.epoch, intent.expectedGeneration, intent.now])
                          || !Names(p, intent) || old(EnsureContext(p, intent.now)).Err?
                          || (Lookup(old(Rows()), intent.Key()).Some?
                              && Lookup(old(Rows()), intent.Key()).value.intent.(now := 0) != intent.(now := 0))
                          || (Lookup(old(Rows()), intent.Key()).None? && !old(HasRoom(intent)))
      ensures old(Outdated(p)) ==> r.Err?
    {
      hide HasRoom, Unresolved, Exact, Legal, Replay;
      var _ :- Validate([intent.generation, intent.epoch, intent.expectedGeneration, intent.now]);
      if !intent.For(p) { return Err(StaleLease); }
      if Outdated(p) { OutdatedProof(p, intent.now); }
      var _ :- EnsureContext(p, intent.now);
      var existing := Lookup(Rows(), intent.Key());
      if existing.Some? {
        OperationKeys();
        return if existing.value.intent.Same(intent) then Ok(existing.value) else Err(OperationConflict);
      }
      var _ :- CheckRoom(intent);
      var _ :- Transact();
      var op := Op(intent, IntentRecorded, None, None, None, None, intent.now);
      Record(IntentStored(p, intent));
      operations := operations[intent.Key() := op];
      return Ok(op);
    }

    /** An outdated proof stands for no live lease. */
    lemma OutdatedProof(p: Proof, now: Millis)
      requires Outdated(p)
      ensures !InContext(Rows(), p, now)
    {
    }

    lemma OperationKeys()
      requires Valid()
      ensures forall k :: Lookup(Rows(), k).Some? ==> Lookup(Rows(), k).value.intent.Key() == k
    {
      hide Exact, Legal, Replay, AuthorityFits, LeasesFit, EpochsOrdered, TicketsFit, ClaimsFit, Permitted;
      Sound();
    }

    method MarkDispatched(p: Proof, key: OpKey, now: Millis) returns (r: Result<Op, Error>)
      requires Valid()
      modifies this`operations, this`log, this`faults
      ensures Valid()
      ensures r.Ok? ==> Did(Dispatched(p, key, now)) && key in old(operations)
                        && r.value == old(operations)[key].(state := MayHaveBeenDispatched, updatedAt := now)
                        && operations == old(operations)[key := r.value]
      ensures r.Err? ==> Untouched()
      ensures r.Err? <==> faults > old(faults) || old(EnsureContext(p, now)).Err? || key !in old(operations)
                          || old(operations)[key].state != IntentRecorded
                          || old(operations)[key].intent.boot != p.boot
                          || old(operations)[key].intent.incarnation != p.incarnation
                          || old(operations)[key].intent.generation != p.generation
                          || old(operations)[key].intent.lease != p.lease || old(operations)[key].intent.epoch != p.epoch
      ensures old(Outdated(p)) ==> r.Err?
    {
      hide Exact, Legal, Replay;
      ExactNone();
      var _ :- Validate([]);
      if Outdated(p) { OutdatedProof(p, now); }
      var _ :- EnsureContext(p, now);
      var found := Lookup(Rows(), key);
      if found.None? { return Err(OperationNotFound); }
      var intent := found.value.intent;
      if intent.boot != p.boot || intent.incarnation != p.incarnation || intent.generation != p.generation
         || intent.lease != p.lease || intent.epoch != p.epoch {
        return Err(StaleLease);
      }
      if !found.value.state.IntentRecorded? { return Err(InvalidTransition); }
      ArchivedIsResolved(key);
      var _ :- Transact();
      Record(Dispatched(p, key, now));
      var op := found.value.(state := MayHaveBeenDispatched, updatedAt := now);
      operations := operations[key := op];
      return Ok(op);
    }

    lemma ArchivedIsResolved(key: OpKey)
      requires Valid() && Lookup(Rows(), key).Some? && Lookup(Rows(), key).value.state.Unresolved()
      ensures key in operations
    {
      hide Exact, Legal, Replay, AuthorityFits, LeasesFit, EpochsOrdered, TicketsFit, ClaimsFit, Permitted;
      Sound();
    }

    method TicketFor(key: OpKey) returns (r: Option<Ticket>)
      ensures r.Some? ==> r.value.Key() == key && r.value in tickets.Values
      ensures r.None? ==> forall id :: id in tickets ==> tickets[id].Key() != key
    {
      if exists id :: id in tickets && tickets[id].Key() == key {
        var id :| id in tickets && tickets[id].Key() == key;
        return Some(tickets[id]);
      }
      return None;
    }

    /** What an outcome must satisfy, apart from the row it is for. */
    static predicate WellFormed(key: OpKey, state: OpState, body: Option<seq<nat>>, evidence: Option<Witness>,
                                uncertainty: Option<Uncertainty>)
    {
      (body.Some? ==> |body.value| <= 131_072)
      && (state.Unknown? <==> uncertainty.Some?)
      && (state.Settled? || state.Reconciled? ==> evidence.Some?)
      && (evidence.Some? ==> evidence.value.operation == key.operation
                             && Exact([evidence.value.generation, evidence.value.observedAt]))
    }

    /** The evidence names the operation, its payload, boot and incarnation, and a later generation of the game. */
    static predicate Attests(evidence: Witness, intent: Intent) {
      evidence.operation == intent.operation && evidence.payload == intent.payload && evidence.boot == intent.boot
      && evidence.incarnation == intent.incarnation && evidence.generation > intent.expectedGeneration
    }

    /** Record what became of an operation, with the evidence its new state needs. */
    method RecordOutcome(key: OpKey, state: OpState, status: Option<nat>, body: Option<seq<nat>>,
                         evidence: Option<Witness>, uncertainty: Option<Uncertainty>, now: Millis)
      returns (r: Result<Op, Error>)
      requires Valid()
      modifies this`operations, this`log, this`faults
      ensures Valid()
      ensures r.Ok? ==> key in old(operations) && Did(OutcomeStored(r.value))
                        && r.value == Op(old(operations)[key].intent, state, status, body, evidence, uncertainty, now)
                        && operations == old(operations)[key := r.value]
      ensures r.Err? ==> Untouched()
      ensures r.Err? <==> faults > old(faults) || !Exact([now]) || !WellFormed(key, state, body, evidence, uncertainty)
                          || key !in old(operations) || !ValidTransition(old(operations)[key].state, state)
                          || (evidence.Some? && (!Attests(evidence.value, old(operations)[key].intent)
                                                 || !FenceFits(key, evidence.value.fence)))
    {
      hide Exact, Legal, Replay, Commit, FenceFits, EvidenceFits, WellFormed, Attests, ValidTransition;
      var op :- CheckOutcome(key, state, body, evidence, uncertainty, now);
      var _ :- Transact();
      var next := op.(state := state, status := status, body := body, evidence := evidence,
                      uncertainty := uncertainty, updatedAt := now);
      EvidenceCarries(op.(state := state, evidence := evidence, uncertainty := uncertainty), next);
      StoreOutcome(next);
      return Ok(next);
    }

    /** Everything that must hold before an outcome is written. */
    method CheckOutcome(key: OpKey, state: OpState, body: Option<seq<nat>>, evidence: Option<Witness>,
                        uncertainty: Option<Uncertainty>, now: Millis) returns (r: Result<Op, Error>)
      requires Valid()
      modifies this`faults
      ensures faults >= old(faults)
      ensures r.Ok? ==> key in operations && r.value == operations[key] && r.value.intent.Key() == key
                        && EvidenceFits(r.value.(state := state, evidence := evidence, uncertainty := uncertainty))
      ensures r.Err? <==> faults > old(faults) || !Exact([now]) || !WellFormed(key, state, body, evidence, uncertainty)
                          || key !in operations || !ValidTransition(operations[key].state, state)
                          || (evidence.Some? && (!Attests(evidence.value, operations[key].intent)
                                                 || !FenceFits(key, evidence.value.fence)))
    {
      hide Exact, Legal, Replay, FenceFits;
      if body.Some? && |body.value| > MAX_RESPONSE_BYTES { return Err(InvalidInput); }
      var _ :- Validate([now]);
      if state.Unknown? && uncertainty.None? { return Err(ContractMismatch); }
      if !state.Unknown? && uncertainty.Some? { return Err(ContractMismatch); }
      var _ :- CheckWitness(key.operation, state, evidence);
      var found := Lookup(Rows(), key);
      if found.None? { return Err(OperationNotFound); }
      OperationKeys();
      if evidence.Some? && !found.value.Bound(evidence.value) { return Err(ContractMismatch); }
      var _ :- CheckFence(key, evidence);
      if !ValidTransition(found.value.state, state) { return Err(InvalidTransition); }
      if key !in operations { return Err(OperationNotFound); }
      return Ok(found.value);
    }

    method StoreOutcome(next: Op)
      requires Valid() && Permitted(config, Rows(), OutcomeStored(next))
      modifies this`operations, this`log
      ensures Valid() && Did(OutcomeStored(next)) && operations == old(operations)[next.intent.Key() := next]
    {
      hide Exact, Legal, Replay, Permitted;
      Record(OutcomeStored(next));
      operations := operations[next.intent.Key() := next];
    }

    method CheckWitness(operation: Id, state: OpState, evidence: Option<Witness>) returns (r: Result<Unit, Error>)
      modifies this`faults
      ensures faults >= old(faults)
      ensures r.Err? <==> faults > old(faults) || ((state.Settled? || state.Reconciled?) && evidence.None?)
                          || (evidence.Some? && (evidence.value.operation != operation
                                                 || !Exact([evidence.value.generation, evidence.value.observedAt])))
    {
      hide Exact;
      if (state.Settled? || state.Reconciled?) && evidence.None? { return Err(ContractMismatch); }
      if evidence.Some? {
        if evidence.value.operation != operation { return Err(ContractMismatch); }
        var _ :- Validate([evidence.value.generation, evidence.value.observedAt]);
      }
      return Ok(Unit);
    }

    /** The fence is that of the operation's ticket, or the current one if it has no ticket. */
    predicate FenceFits(key: OpKey, fence: Id)
      reads this`tickets, this`authority
    {
      (exists id :: id in tickets && tickets[id].Key() == key && tickets[id].fence == fence)
      || ((forall id :: id in tickets ==> tickets[id].Key() != key)
          && authority.Some? && authority.value.fence.Some? && authority.value.fence.value.id == fence)
    }

    /** Evidence carries the fence of the operation's ticket, or the current fence if it has no ticket. */
    method CheckFence(key: OpKey, evidence: Option<Witness>) returns (r: Result<Unit, Error>)
      requires Valid()
      ensures r.Ok? <==> (evidence.Some? ==> FenceFits(key, evidence.value.fence))
    {
      hide Legal, Replay;
      TicketIds();
      if evidence.Some? {
        var ticket := TicketFor(key);
        var current := CurrentFence();
        var expected := if ticket.Some? then Some(ticket.value.fence)
                        else if current.Some? then Some(current.value.mark.id) else None;
        if expected != Some(evidence.value.fence) { return Err(ContractMismatch); }
      }
      return Ok(Unit);
    }

    function LookupOperation(key: OpKey, payload: nat): (r: Result<Option<Op>, Error>)
      reads this
      ensures r.Ok? && r.value.Some? ==> Lookup(Rows(), key) == r.value && r.value.value.intent.payload == payload
      ensures r == Ok(None) <==> key !in operations && key !in archive
      ensures r.Ok? && r.value.Some? ==> r.value.value == if key in operations then operations[key] else archive[key].op
      ensures r.Err? <==> Lookup(Rows(), key).Some? && Lookup(Rows(), key).value.intent.payload != payload
    {
      match Lookup(Rows(), key)
      case None => Ok(None)
      case Some(op) => if op.intent.payload == payload then Ok(Some(op)) else Err(OperationConflict)
    }

    /** Settle an unresolved operation by later evidence; the same evidence twice is answered unchanged. */
    method ReconcileOperation(key: OpKey, payload: nat, evidence: Option<Witness>, now: Millis) returns (r: Result<Op, Error>)
      requires Valid()
      modifies this`operations, this`log, this`faults
      ensures Valid()
      ensures r.Ok? ==>
                var was := Lookup(old(Rows()), key);
                was.Some? && was.value.intent.payload == payload && evidence.Some?
                && if was.value.state.Reconciled? then Untouched() && r.value == was.value && was.value.evidence == evidence
                   else Did(OutcomeStored(r.value)) && operations == old(operations)[key := r.value]
                        && r.value == Op(was.value.intent, Reconciled, was.value.status, was.value.body, evidence, None, now)
      ensures r.Err? ==> Untouched()
      ensures r.Err? <==>
                faults > old(faults) || evidence.None? || evidence.value.operation != key.operation
                || !Exact([evidence.value.generation, evidence.value.observedAt])
                || Lookup(old(Rows()), key).None?
                || var was := Lookup(old(Rows()), key).value;
                   || was.intent.payload != payload || !Attests(evidence.value, was.intent)
                   || (was.state.Reconciled? && was.evidence != evidence)
                   || was.state.IntentRecorded? || was.state.Settled? || was.state.Rejected?
                   || (!was.state.Reconciled? && (!Exact([now]) || !FenceFits(key, evidence.value.fence)
                                                  || (was.body.Some? && |was.body.value| > 131_072)))
    {
      hide Exact, Legal, Replay, FenceFits, Commit;
      var found :- LookupOperation(key, payload);
      if found.None? { return Err(OperationNotFound); }
      var op := found.value;
      var _ :- CheckWitness(key.operation, Reconciled, evidence);
      if !op.Bound(evidence.value) { return Err(ContractMismatch); }
      if op.state.Reconciled? {
        if op.evidence != evidence { return Err(OperationConflict); }
        return Ok(op);
      }
      if !op.state.Unresolved() { return Err(InvalidTransition); }
      ArchivedIsResolved(key);
      r := RecordOutcome(key, Reconciled, op.status, op.body, evidence, None, now);
    }

    // ---- archive ------------------------------------------------------------------------------

    /** Exactly the settled, rejected and reconciled operations not updated since the cutoff moved to the archive. */
    static ghost predicate Shelves(before: map<OpKey, Op>, archived: map<OpKey, Archived>,
                                   left: map<OpKey, Op>, kept: map<OpKey, Archived>, cutoff: Millis, now: Millis)
    {
      && (forall k :: k in left <==> k in before
                                     && !((before[k].state.Settled? || before[k].state.Rejected? || before[k].state.Reconciled?)
                                          && before[k].updatedAt <= cutoff))
      && (forall k :: k in left ==> left[k] == before[k])
      && (forall k :: k in kept <==> k in archived || (k in before && k !in left))
      && (forall k :: k in kept ==> kept[k] == if k in before && k !in left then Archived(before[k], now) else archived[k])
    }

    /** Move resolved operations past the horizon to the archive; no lookup can tell. */
    method ArchiveResolved(cutoff: Millis, now: Millis) returns (r: Result<nat, Error>)
      requires Valid()
      modifies this`operations, this`archive, this`log, this`faults
      ensures Valid()
      ensures r.Ok? ==> Did(Shelved(cutoff, now)) && |operations| + r.value == |old(operations)|
      ensures r.Ok? ==> |operations| + |archive| == |old(operations)| + |old(archive)|
      ensures r.Ok? ==> Shelves(old(operations), old(archive), operations, archive, cutoff, now)
      ensures forall k :: Lookup(Rows(), k) == Lookup(old(Rows()), k)
      ensures r.Err? ==> Untouched()
      ensures r.Err? <==> faults > old(faults) || !Exact([cutoff, now]) || cutoff + 86_400_000 > now
    {
      hide Shelves, Exact, Legal, Replay, Invariant, Commit, OperationsAfter, ArchiveAfter, Lookup;
      var _ :- Validate([cutoff, now]);
      if now < RETENTION || cutoff > now - RETENTION { return Err(InvalidInput); }
      var _ :- Transact();
      Sound();
      LedgerFits(config, Rows());
      ShelvingConserves(Rows(), Shelved(cutoff, now));
      var left, moved := SelectShelvable(cutoff, now);
      Shelve(Shelved(cutoff, now), left, archive + moved);
      return Ok(|moved|);
    }

    method SelectShelvable(cutoff: Millis, now: Millis) returns (left: map<OpKey, Op>, moved: map<OpKey, Archived>)
      ensures left == OperationsAfter(operations, Shelved(cutoff, now))
      ensures archive + moved == ArchiveAfter(operations, archive, Shelved(cutoff, now))
      ensures |left| + |moved| == |operations| && Shelves(operations, archive, left, archive + moved, cutoff, now)
    {
      hide Shelves, OperationsAfter, ArchiveAfter;
      moved := map k | k in operations && !operations[k].state.Unresolved() && operations[k].updatedAt <= cutoff
        :: Archived(operations[k], now);
      left := map k | k in operations && k !in moved :: operations[k];
      ShelvedParts(operations, archive, cutoff, now, moved, left);
      Split(operations.Keys, left.Keys, moved.Keys);
    }

    method Shelve(ghost e: Entry, left: map<OpKey, Op>, kept: map<OpKey, Archived>)
      requires Valid() && e.Shelved? && Permitted(config, Rows(), e)
      requires left == OperationsAfter(operations, e) && kept == ArchiveAfter(operations, archive, e)
      modifies this`operations, this`archive, this`log
      ensures Valid() && Did(e) && operations == left && archive == kept
    {
      hide Exact, Legal, Replay, Commit, Permitted, OperationsAfter, ArchiveAfter;
      ShelvedCommit(Rows(), e);
      Record(e);
      operations, archive := left, kept;
    }

    method PurgeArchives(now: Millis) returns (r: Result<Unit, Error>)
      requires Valid()
      modifies this`archive, this`log, this`faults
      ensures Valid()
      ensures r.Ok? ==> Did(Purged(now))
      ensures r.Ok? ==> forall k :: k in archive <==>
                          k in old(archive) && old(archive)[k].at > if now < 86_400_000 then 0 else now - 86_400_000
      ensures r.Ok? ==> forall k :: k in archive ==> archive[k] == old(archive)[k]
      ensures r.Err? ==> Untouched()
      ensures r.Err? <==> faults > old(faults) || !Exact([now])
    {
      hide Exact, Legal, Replay;
      var _ :- Validate([now]);
      var cutoff := if now < RETENTION then 0 else now - RETENTION;
      var _ :- Transact();
      Record(Purged(now));
      archive := map k | k in archive && !(archive[k].at <= cutoff) :: archive[k];
      return Ok(Unit);
    }

    // ---- admission tickets ----------------------------------------------------------------------

    method StoreTicket(ticket: Ticket, ghost voucher: Voucher)
      requires Valid() && Permitted(config, Rows(), TicketStored(ticket, voucher))
      modifies this`tickets, this`log
      ensures Valid() && Did(TicketStored(ticket, voucher)) && tickets == old(tickets)[ticket.id := ticket]
    {
      hide Exact, Legal, Replay, Permitted;
      Record(TicketStored(ticket, voucher));
      tickets := tickets[ticket.id := ticket];
    }

    method MoveTicket(id: Id, state: TicketState, ghost voucher: Voucher)
      requires Valid() && id in tickets && Permitted(config, Rows(), TicketMoved(id, state, voucher))
      modifies this`tickets, this`log
      ensures Valid() && Did(TicketMoved(id, state, voucher))
      ensures tickets == old(tickets)[id := old(tickets)[id].(state := state)]
    {
      hide Exact, Legal, Replay, Permitted;
      Record(TicketMoved(id, state, voucher));
      tickets := tickets[id := tickets[id].(state := state)];
    }

    /** The presented fence is the current one and belongs to the proof's boot. */
    predicate FenceHolds(fence: HostFence, p: Proof)
      reads this
    {
      CurrentFence() == Some(fence) && fence.boot == p.boot && fence.incarnation == p.incarnation
      && fence.generation == p.generation
    }

    static predicate Admitted(tickets: map<Id, Ticket>, key: OpKey) {
      exists id :: id in tickets && tickets[id].instance == key.instance && tickets[id].operation == key.operation
    }

    /** The operation was dispatched under this lease with this payload, and nothing is known of it since. */
    predicate InFlight(p: Proof, key: OpKey, payload: nat)
      reads this
    {
      key in operations && operations[key].state == MayHaveBeenDispatched
      && operations[key].intent.payload == payload && operations[key].intent.boot == p.boot
      && operations[key].intent.incarnation == p.incarnation && operations[key].intent.epoch == p.epoch
    }

    /**
     Issue the admission ticket of a dispatched operation. A new ticket ends no later than the lease;
     a ticket the operation already has is returned as it is.
     */
    method IssueTicket(p: Proof, fence: HostFence, key: OpKey, payload: nat, now: Millis, ttl: nat)
      returns (r: Result<Ticket, Error>)
      requires Valid()
      modifies this`tickets, this`log, this`faults
      ensures Valid()
      ensures r.Ok? ==> p.lease in leases
      ensures r.Ok? ==> if Admitted(old(tickets), key) then Untouched() && r.value in old(tickets).Values && r.value.Key() == key
                        else Did(TicketStored(r.value, ByLease(p))) && r.value.id !in old(tickets)
                             && tickets == old(tickets)[r.value.id := r.value]
                             && r.value == Ticket(r.value.id, key.instance, key.operation, payload, p.boot, p.incarnation,
                                                  p.epoch, fence.mark.id, Issued, now, now + ttl * 1000)
                             && r.value.expiresAt <= leases[p.lease].expiresAt
      ensures r.Ok? ==> (r.value.expiresAt <= leases[p.lease].expiresAt
                         <==> forall id :: id in old(tickets) && old(tickets)[id].Key() == key ==>
                                old(tickets)[id].expiresAt <= leases[p.lease].expiresAt)
      ensures r.Err? ==> Untouched()
      ensures r.Err? <==> faults > old(faults) || !Exact([now, ttl]) || old(EnsureContext(p, now)).Err? || !old(FenceHolds(fence, p))
                          || fence.instance != key.instance || ttl == 0 || ttl > 300 || !Exact([now + ttl * 1000])
                          || now + ttl * 1000 > leases[p.lease].expiresAt || !old(InFlight(p, key, payload))
                          || (exists id :: id in old(tickets) && old(tickets)[id].Key() == key
                                           && old(tickets)[id].payload != payload)
      ensures old(Outdated(p)) ==> r.Err?
    {
      hide Exact, Legal, Replay, Commit;
      var _ :- Validate([now, ttl]);
      if Outdated(p) { OutdatedProof(p, now); }
      var lease :- EnsureContext(p, now);
      if CurrentFence().None? { return Err(HostFenceRequired); }
      if !FenceHolds(fence, p) || fence.instance != key.instance { return Err(StaleLease); }
      if ttl == 0 || ttl > 300 { return Err(InvalidInput); }
      var expires := now + ttl * 1000;
      var _ :- Validate([expires]);
      if expires > lease.expiresAt { return Err(LeaseExpired); }
      var op := Lookup(Rows(), key);
      if op.None? { return Err(OperationNotFound); }
      var intent := op.value.intent;
      if intent.payload != payload || intent.boot != p.boot || intent.incarnation != p.incarnation || intent.epoch != p.epoch {
        return Err(OperationConflict);
      }
      if !op.value.state.MayHaveBeenDispatched? { return Err(InvalidTransition); }
      ArchivedIsResolved(key);
      TicketIds();
      var existing := TicketFor(key);
      if existing.Some? {
        return if existing.value.payload == payload then Ok(existing.value) else Err(OperationConflict);
      }
      var id :- Draw(tickets.Keys);
      var ticket := Ticket(id, key.instance, key.operation, payload, p.boot, p.incarnation, p.epoch, fence.mark.id,
                           Issued, now, expires);
      var _ :- Transact();
      StoreTicket(ticket, ByLease(p));
      return Ok(ticket);
    }

    lemma TicketIds()
      requires Valid()
      ensures forall id :: id in tickets ==> tickets[id].id == id
      ensures forall i, j :: i in tickets && j in tickets && tickets[i].Key() == tickets[j].Key() ==> i == j
    {
      hide Exact, Legal, Replay, AuthorityFits, LeasesFit, EpochsOrdered, OperationsFit, ClaimsFit, Permitted;
      Sound();
    }

    /** Why a ticket may not be imported: another ticket holds the operation or the id, or its state would go back. */
    predicate Clashes(ticket: Ticket)
      reads this
    {
      if exists id :: id in tickets && tickets[id].Key() == ticket.Key()
      then exists id :: id in tickets && tickets[id].Key() == ticket.Key()
                        && (tickets[id].(state := ticket.state) != ticket
                            || (tickets[id].state != ticket.state && !ValidTicketTransition(tickets[id].state, ticket.state)))
      else ticket.id in tickets
    }

    /** The ticket names a retained operation and its payload, boot, incarnation and epoch. */
    predicate Describes(ticket: Ticket)
      reads this
    {
      var op := Lookup(Rows(), OpKey(ticket.instance, ticket.operation));
      op.Some? && op.value.intent.payload == ticket.payload && op.value.intent.boot == ticket.boot
      && op.value.intent.incarnation == ticket.incarnation && op.value.intent.epoch == ticket.epoch
    }

    /** Import a host-owned ticket while reconciling an earlier operation, whatever lease is current. */
    method RecordHistoricalTicket(ticket: Ticket) returns (r: Result<Ticket, Error>)
      requires Valid()
      modifies this`tickets, this`log, this`faults
      ensures Valid()
      ensures r.Ok? ==> r.value == ticket && tickets == old(tickets)[ticket.id := ticket]
                        && (ticket.id in old(tickets) ==> old(tickets)[ticket.id].(state := ticket.state) == ticket)
      ensures r.Ok? ==> Did(TicketStored(ticket, ByHistory)) || Did(TicketMoved(ticket.id, ticket.state, ByHistory))
      ensures r.Err? ==> Untouched()
      ensures r.Err? <==> faults > old(faults) || !Exact([ticket.epoch, ticket.issuedAt, ticket.expiresAt])
                          || ticket.issuedAt >= ticket.expiresAt || !old(Describes(ticket)) || old(Clashes(ticket))
    {
      hide Exact, Legal, Replay, Commit;
      var _ :- Validate([ticket.epoch, ticket.issuedAt, ticket.expiresAt]);
      if ticket.issuedAt >= ticket.expiresAt { return Err(InvalidInput); }
      var op := Lookup(Rows(), ticket.Key());
      if op.None? { return Err(OperationNotFound); }
      if !ticket.Fits(op.value) { return Err(OperationConflict); }
      r := ImportTicket(ticket, ByHistory);
    }

    /** Store the ticket, or advance the state of the same ticket stored before. */
    method ImportTicket(ticket: Ticket, ghost voucher: Voucher) returns (r: Result<Ticket, Error>)
      requires Valid() && !voucher.ByTransition?
      requires Lookup(Rows(), ticket.Key()).Some? && ticket.Fits(Lookup(Rows(), ticket.Key()).value)
      requires voucher.ByLease? ==> VouchedFor(Rows(), voucher.proof, ticket)
      modifies this`tickets, this`log, this`faults
      ensures Valid() && faults >= old(faults)
      ensures r.Ok? ==> r.value == ticket && tickets == old(tickets)[ticket.id := ticket]
                        && (ticket.id in old(tickets) ==> old(tickets)[ticket.id].(state := ticket.state) == ticket)
      ensures r.Ok? ==> Did(TicketStored(ticket, voucher)) || Did(TicketMoved(ticket.id, ticket.state, voucher))
      ensures r.Err? ==> Untouched()
      ensures r.Err? <==> faults > old(faults) || old(Clashes(ticket))
    {
      hide Exact, Legal, Replay, Commit, Lookup;
      TicketIds();
      var existing := TicketFor(ticket.Key());
      if existing.Some? {
        if !existing.value.Same(ticket) { return Err(OperationConflict); }
        if existing.value.state != ticket.state && !ValidTicketTransition(existing.value.state, ticket.state) {
          return Err(InvalidTransition);
        }
        var _ :- Transact();
        MoveTicket(ticket.id, ticket.state, voucher);
      } else {
        if ticket.id in tickets { return Err(SqlFailure); }
        var _ :- Transact();
        StoreTicket(ticket, voucher);
      }
      return Ok(ticket);
    }

    /** The ticket was issued under this live lease and the current fence, and ends within the lease. */
    predicate Current(p: Proof, fence: HostFence, ticket: Ticket, now: Millis)
      reads this
    {
      ticket.issuedAt < ticket.expiresAt && ticket.boot == p.boot && ticket.incarnation == p.incarnation
      && ticket.epoch == p.epoch && ticket.fence == fence.mark.id && FenceHolds(fence, p)
      && EnsureContext(p, now).Ok? && ticket.expiresAt <= leases[p.lease].expiresAt
    }

    /** The operation ended in a way the ticket does not report. */
    predicate Contradicts(ticket: Ticket)
      reads this
    {
      var op := Lookup(Rows(), OpKey(ticket.instance, ticket.operation));
      op.Some? && (op.value.state.Reconciled? || (op.value.state.Settled? && !ticket.state.TicketSettled?)
                   || (op.value.state.Rejected? && !ticket.state.TicketRejected?))
    }

    /** Import the ticket of the current admission; it may not outlive the lease it is presented with. */
    method RecordHostTicket(p: Proof, fence: HostFence, presented: Ticket, now: Millis) returns (r: Result<Ticket, Error>)
      requires Valid()
      modifies this`tickets, this`log, this`faults
      ensures Valid()
      ensures r.Ok? ==> r.value == presented.(instance := p.instance) && tickets == old(tickets)[r.value.id := r.value]
                        && (r.value.id in old(tickets) ==> old(tickets)[r.value.id].(state := r.value.state) == r.value)
      ensures r.Ok? ==> Did(TicketStored(r.value, ByLease(p))) || Did(TicketMoved(r.value.id, r.value.state, ByLease(p)))
      ensures r.Err? ==> Untouched()
      ensures r.Err? <==> faults > old(faults) || !Exact([presented.epoch, presented.issuedAt, presented.expiresAt])
                          || !old(Current(p, fence, presented, now)) || !old(Describes(presented.(instance := p.instance)))
                          || old(Contradicts(presented.(instance := p.instance)))
                          || old(Clashes(presented.(instance := p.instance)))
      ensures old(Outdated(p)) ==> r.Err?
    {
      hide Exact, Legal, Replay, Commit;
      var ticket := presented.(instance := p.instance);
      var _ :- Validate([ticket.epoch, ticket.issuedAt, ticket.expiresAt]);
      if ticket.issuedAt >= ticket.expiresAt { return Err(InvalidInput); }
      if ticket.boot != p.boot || ticket.incarnation != p.incarnation || ticket.epoch != p.epoch
         || ticket.fence != fence.mark.id || !FenceHolds(fence, p) {
        return Err(StaleLease);
      }
      if Outdated(p) { OutdatedProof(p, now); }
      var lease :- EnsureContext(p, now);
      if ticket.expiresAt > lease.expiresAt { return Err(ContractMismatch); }
      var op := Lookup(Rows(), ticket.Key());
      if op.None? { return Err(OperationNotFound); }
      if !ticket.Fits(op.value)
         || (!op.value.state.Unresolved() && !(op.value.state.Settled? && ticket.state.TicketSettled?)
             && !(op.value.state.Rejected? && ticket.state.TicketRejected?)) {
        return Err(OperationConflict);
      }
      r := ImportTicket(ticket, ByLease(p));
    }

    /** A ticket that may still be acted on under this proof and fence. */
    predicate Usable(p: Proof, fence: HostFence, id: Id, now: Millis, allowTerminal: bool)
      reads this
    {
      id in tickets
      && var ticket, op := tickets[id], Lookup(Rows(), OpKey(p.instance, tickets[id].operation));
         ticket.boot == p.boot && ticket.incarnation == p.incarnation && ticket.epoch == p.epoch
         && ticket.fence == fence.mark.id && CurrentFence() == Some(fence) && InContext(Rows(), p, now)
         && op.Some? && ticket.Fits(op.value) && (allowTerminal || op.value.state.Unresolved())
         && ticket.expiresAt > now && ticket.state.Open()
    }

    function CheckTicket(p: Proof, fence: HostFence, id: Id, now: Millis, allowTerminal: bool): (r: Result<Ticket, Error>)
      reads this
      ensures r.Ok? <==> Usable(p, fence, id, now, allowTerminal)
      ensures r.Ok? ==> r.value == tickets[id] && r.value.expiresAt > now && CurrentFence() == Some(fence)
                        && r.value.boot == p.boot && r.value.incarnation == p.incarnation && r.value.epoch == p.epoch
                        && r.value.fence == fence.mark.id && EnsureContext(p, now).Ok?
                        && (r.value.state.Issued? || r.value.state.Admitted? || r.value.state.Executing?
                            || r.value.state.WitnessRecorded?)
      ensures r.Err? ==> !Transient(r.error)
    {
      if id !in tickets then Err(TicketNotFound)
      else
        var ticket := tickets[id];
        if ticket.boot != p.boot || ticket.incarnation != p.incarnation || ticket.epoch != p.epoch
           || ticket.fence != fence.mark.id || CurrentFence() != Some(fence)
        then Err(StaleLease)
        else
          var _ :- EnsureContext(p, now);
          match Lookup(Rows(), OpKey(p.instance, ticket.operation))
          case None => Err(OperationNotFound)
          case Some(op) =>
            if !ticket.Fits(op) then Err(OperationConflict)
            else if !allowTerminal && !op.state.Unresolved() then Err(InvalidTransition)
            else if ticket.expiresAt <= now then Err(TicketExpired)
            else if !ticket.state.Open() then Err(InvalidTransition)
            else Ok(ticket)
    }

    /** A usable ticket may move to a later state that does not contradict a resolved operation. */
    predicate MayMove(p: Proof, fence: HostFence, id: Id, next: TicketState, now: Millis)
      reads this
    {
      Usable(p, fence, id, now, next.WitnessRecorded? || next.TicketSettled? || next.TicketRejected?)
      && ValidTicketTransition(tickets[id].state, next)
      && match Lookup(Rows(), OpKey(p.instance, tickets[id].operation)).value.state
         case Settled => next.TicketSettled?
         case Rejected => next.TicketRejected?
         case Reconciled => next.WitnessRecorded? || next.TicketSettled?
         case _ => true
    }

    method TransitionTicket(p: Proof, fence: HostFence, id: Id, next: TicketState, now: Millis)
      returns (r: Result<Ticket, Error>)
      requires Valid()
      modifies this`tickets, this`log, this`faults
      ensures Valid()
      ensures r.Ok? ==> Did(TicketMoved(id, next, ByTransition(p))) && id in old(tickets)
                        && r.value == old(tickets)[id].(state := next) && tickets == old(tickets)[id := r.value]
      ensures r.Err? ==> Untouched()
      ensures r.Err? <==> faults > old(faults) || !Exact([now]) || !old(MayMove(p, fence, id, next, now))
      ensures old(Outdated(p)) ==> r.Err?
    {
      hide Exact, Legal, Replay, Commit;
      var _ :- Validate([now]);
      if Outdated(p) { OutdatedProof(p, now); }
      var ticket :- CheckTicket(p, fence, id, now, next.WitnessRecorded? || next.TicketSettled? || next.TicketRejected?);
      var state := Lookup(Rows(), OpKey(p.instance, ticket.operation)).value.state;
      if !state.Unresolved()
         && !(state.Settled? && next.TicketSettled?) && !(state.Rejected? && next.TicketRejected?)
         && !(state.Reconciled? && (next.WitnessRecorded? || next.TicketSettled?)) {
        return Err(InvalidTransition);
      }
      if !ValidTicketTransition(ticket.state, next) { return Err(InvalidTransition); }
      var _ :- Transact();
      MoveTicket(id, next, ByTransition(p));
      return Ok(tickets[id]);
    }

    method ExpireTickets(now: Millis) returns (r: Result<Unit, Error>)
      requires Valid()
      modifies this`tickets, this`log, this`faults
      ensures Valid()
      ensures r.Ok? ==> Did(TicketsExpired(now)) && tickets.Keys == old(tickets).Keys
      ensures r.Ok? ==> forall id :: id in tickets ==>
                          var was := old(tickets)[id];
                          tickets[id] == if was.expiresAt <= now && (was.state.Issued? || was.state.Admitted?
                                                                     || was.state.Executing? || was.state.WitnessRecorded?)
                                         then was.(state := TicketUnknown) else was
      ensures r.Err? ==> Untouched()
      ensures r.Err? <==> faults > old(faults) || !Exact([now])
    {
      hide Exact, Legal, Replay;
      var _ :- Validate([now]);
      var _ :- Transact();
      Record(TicketsExpired(now));
      tickets := map id | id in tickets ::
        if tickets[id].expiresAt <= now && tickets[id].state.Open() then tickets[id].(state := TicketUnknown)
        else tickets[id];
      return Ok(Unit);
    }

    // ---- continuation owners ----------------------------------------------------------------------

    /** The lease of this boot with the highest epoch. */
    method NewestLease(boot: Boot) returns (r: Option<Lease>)
      ensures r.None? ==> forall id :: id in leases ==> !leases[id].IssuedUnder(boot)
      ensures r.Some? ==> (exists id :: id in leases && leases[id] == r.value) && r.value.IssuedUnder(boot)
      ensures r.Some? ==> forall id :: id in leases && leases[id].IssuedUnder(boot) ==> leases[id].epoch <= r.value.epoch
    {
      r := None;
      var rest := leases.Keys;
      while rest != {}
        invariant rest <= leases.Keys
        invariant r.None? ==> forall id :: id in leases && id !in rest ==> !leases[id].IssuedUnder(boot)
        invariant r.Some? ==> (exists id :: id in leases && leases[id] == r.value) && r.value.IssuedUnder(boot)
        invariant r.Some? ==> forall id :: id in leases && id !in rest && leases[id].IssuedUnder(boot) ==>
                                leases[id].epoch <= r.value.epoch
        decreases rest
      {
        var id :| id in rest;
        if leases[id].IssuedUnder(boot) && (r.None? || leases[id].epoch > r.value.epoch) {
          r := Some(leases[id]);
        }
        rest := rest - {id};
      }
    }

    /** An active, unexpired lease of the session, installed at the host. */
    predicate OwnedBy(session: Id, now: Millis, id: Id)
      reads this
    {
      id in leases && leases[id].status.Active? && leases[id].expiresAt > now
      && leases[id].host.state.Installed? && leases[id].session == session
    }

    /** The lease with the highest epoch issued under the current, fenced boot. */
    predicate Newest(id: Id)
      reads this
    {
      id in leases && authority.Some? && authority.value.boot.state.Ready? && authority.value.fence.Some?
      && leases[id].IssuedUnder(authority.value.boot)
      && forall j :: j in leases && leases[j].IssuedUnder(authority.value.boot) ==> leases[j].epoch <= leases[id].epoch
    }

    /** What the newest lease says about the owner of a session. */
    static function StateOf(row: Lease, session: Id, now: Millis): OwnerState {
      if row.host.fence.None? || row.session != session then OwnerUnknown
      else match row.status
           case Active => if row.expiresAt <= now then OwnerExpired
                          else if row.host.state.Installed? then Available else OwnerUnknown
           case Revoked => OwnerRevoked
           case Expired => OwnerExpired
    }

    /** A lease of the current boot as an owner. */
    function Described(row: Lease): Owner
      requires authority.Some? && authority.value.fence.Some?
      reads this
    {
      var b := authority.value.boot;
      Owner(b.deployment, b.instance, b.incarnation, b.id, b.generation, authority.value.fence.value,
            row.id, row.epoch, row.session, row.expiresAt)
    }

    /** This is exactly the active, unexpired lease installed at the host under the current fence. */
    predicate LiveOwner(owner: Owner, now: Millis)
      reads this
    {
      authority.Some? && authority.value.fence.Some? && owner.lease in leases
      && leases[owner.lease].status.Active? && leases[owner.lease].expiresAt > now
      && leases[owner.lease].host.state.Installed? && owner == Described(leases[owner.lease])
    }

    /**
     Who owns the session now. Only the highest-epoch lease of the current boot is read; that is
     enough to report `Available` exactly when such an owner exists.
     */
    method CurrentOwner(session: Id, now: Millis) returns (state: OwnerState, owner: Option<Owner>)
      requires Valid()
      ensures state.Available? <==> exists id :: OwnedBy(session, now, id)
      ensures state.Available? ==> owner.Some? && LiveOwner(owner.value, now) && owner.value.session == session
                                   && OwnedBy(session, now, owner.value.lease) && Holds(Rows(), owner.value, now)
      ensures forall o :: LiveOwner(o, now) && o.session == session ==> state.Available? && owner == Some(o)
      ensures authority.None? ==> state.Absent? && owner.None?
      ensures authority.Some? && authority.value.boot.state.FenceRequired? ==> state.OwnerUnknown? && owner.None?
      ensures authority.Some? && authority.value.boot.state.Ready?
              && (forall id :: id in leases ==> !leases[id].IssuedUnder(authority.value.boot))
              ==> state.Absent? && owner.None?
      ensures forall id :: Newest(id) ==> state == StateOf(leases[id], session, now)
                                          && (owner == if leases[id].host.fence.None? then None else Some(Described(leases[id])))
    {
      hide Exact, Legal, Replay, Permitted;
      Sound();
      assert forall id :: OwnedBy(session, now, id) ==> LeaseFits(Rows(), leases[id]);
      if authority.None? { return Absent, None; }
      var boot := authority.value.boot;
      if !boot.state.Ready? || authority.value.fence.None? { return OwnerUnknown, None; }
      var fence := authority.value.fence.value;
      var newest := NewestLease(boot);
      if newest.None? { return Absent, None; }
      var row := newest.value;
      assert row.id in leases && leases[row.id] == row && LeaseFits(Rows(), row);
      assert forall id :: OwnedBy(session, now, id) ==> id == row.id;
      if row.host.fence.None? { return OwnerUnknown, None; }
      owner := Some(Owner(boot.deployment, boot.instance, boot.incarnation, boot.id, boot.generation, fence,
                          row.id, row.epoch, row.session, row.expiresAt));
      if row.host.fence != Some(fence) || row.session != session { return OwnerUnknown, owner; }
      if row.status.Active? && row.expiresAt > now {
        assert row.host.state.Installed? <==> OwnedBy(session, now, row.id);
        return if row.host.state.Installed? then Available else OwnerUnknown, owner;
      }
      return if row.status.Revoked? then OwnerRevoked else OwnerExpired, owner;
    }

    static function Counters(owner: Owner, now: Millis): seq<nat> {
      [owner.generation, owner.fence.generation, owner.epoch, owner.expiresAt, now]
    }

    /** Bind the live owner to one continuation operation, for good. */
    method ClaimOwner(operation: Id, expected: Owner, now: Millis) returns (r: Result<Claim, Error>)
      requires Valid()
      modifies this`claims, this`log, this`faults
      ensures Valid()
      ensures r.Ok? ==> if operation in old(claims) then Untouched() && r.value == old(claims)[operation]
                        else Did(Claimed(r.value)) && r.value == Claim(operation, expected, now)
                             && claims == old(claims)[operation := r.value]
      ensures r.Err? ==> Untouched()
      ensures r.Err? <==> faults > old(faults) || !Exact(Counters(expected, now)) || !old(LiveOwner(expected, now))
                          || (operation in old(claims) && old(claims)[operation].owner != expected)
                          || (operation !in old(claims)
                              && (|old(claims)| >= 4096
                                  || exists o :: o in old(claims) && old(claims)[o].owner.lease == expected.lease
                                                 && old(claims)[o].owner.epoch == expected.epoch))
      ensures forall o :: (o in old(claims) && o != operation && old(claims)[o].owner.lease == expected.lease
                           && old(claims)[o].owner.epoch == expected.epoch) ==> r.Err?
    {
      hide Exact, Legal, Replay, Commit, Holds, LiveOwner, Newest, StateOf, Described;
      ClaimsSound();
      var _ :- Validate(Counters(expected, now));
      var state, owner := CurrentOwner(expected.session, now);
      if !state.Available? { return Err(OwnerError(state)); }
      if owner != Some(expected) { return Err(StaleLease); }
      if operation in claims {
        return if claims[operation].owner == expected then Ok(claims[operation]) else Err(OperationConflict);
      }
      if exists o :: o in claims && claims[o].owner.lease == expected.lease && claims[o].owner.epoch == expected.epoch {
        return Err(OperationConflict);
      }
      if |claims| >= MAX_CLAIMS { return Err(CapacityExceeded); }
      var _ :- Transact();
      var claim := Claim(operation, expected, now);
      Bind(claim);
      return Ok(claim);
    }

    method Bind(claim: Claim)
      requires Valid() && Permitted(config, Rows(), Claimed(claim))
      modifies this`claims, this`log
      ensures Valid() && Did(Claimed(claim)) && claims == old(claims)[claim.operation := claim]
    {
      hide Legal, Replay, Permitted;
      Record(Claimed(claim));
      claims := claims[claim.operation := claim];
    }

    static function OwnerError(state: OwnerState): Error {
      match state
      case OwnerExpired => LeaseExpired
      case OwnerRevoked => LeaseRevoked
      case Absent => LeaseNotFound
      case _ => StaleLease
    }

    lemma ClaimsSound()
      requires Valid()
      ensures ClaimsFit(Rows())
    {
      hide Exact, Legal, Replay, AuthorityFits, LeasesFit, EpochsOrdered, OperationsFit, TicketsFit, Permitted;
      Sound();
    }

    /** Re-check a claim against the live owner; nothing is written. */
    method AdoptOwner(operation: Id, expected: Owner, now: Millis) returns (r: Result<(Claim, HostFence), Error>)
      requires Valid()
      modifies this`faults
      ensures r.Ok? ==> CurrentFence() == Some(r.value.1) && r.value.1.mark == expected.fence
                        && operation in claims && r.value.0 == claims[operation]
      ensures r.Err? <==> faults > old(faults) || !Exact(Counters(expected, now)) || !LiveOwner(expected, now)
                          || operation !in claims || claims[operation].owner != expected
      ensures forall o :: (o in claims && o != operation && claims[o].owner.lease == expected.lease
                           && claims[o].owner.epoch == expected.epoch) ==> r.Err?
    {
      hide Exact, Legal, Replay, Newest, StateOf;
      ClaimsSound();
      var _ :- Validate(Counters(expected, now));
      var state, owner := CurrentOwner(expected.session, now);
      if !state.Available? { return Err(OwnerError(state)); }
      if owner != Some(expected) { return Err(StaleLease); }
      if operation !in claims { return Err(OperationNotFound); }
      if claims[operation].owner != expected { return Err(OperationConflict); }
      var fence := CurrentFence();
      if fence.None? { return Err(AuthorityNotFound); }
      if fence.value.mark != expected.fence || fence.value.deployment != expected.deployment
         || fence.value.instance != expected.instance || fence.value.incarnation != expected.incarnation
         || fence.value.boot != expected.boot || fence.value.generation != expected.generation {
        return Err(StaleLease);
      }
      return Ok((claims[operation], fence.value));
    }
  }

  lemma SupersededRows(leases: map<Id, Lease>, boot: Boot, rekey: bool, rows: map<Id, Lease>)
    requires rows.Keys == leases.Keys
    requires forall id :: id in rows ==> rows[id] == Superseded(leases[id], if rekey then Rekeyed else IncarnationReplaced)
    ensures rows == LeasesAfter(leases, Booted(boot, rekey))
    ensures Revokes(leases, rows, if rekey then Rekeyed else IncarnationReplaced)
  {
  }

  lemma RotatedRows(operations: map<OpKey, Op>, boot: Boot, rekey: bool, rows: map<OpKey, Op>)
    requires rows.Keys == operations.Keys && forall k :: k in rows ==> rows[k] == Rotated(operations[k], boot.createdAt)
    ensures rows == OperationsAfter(operations, Booted(boot, rekey)) && Rotates(operations, rows, boot.createdAt)
  {
  }

  lemma ShelvedParts(operations: map<OpKey, Op>, archive: map<OpKey, Archived>, cutoff: Millis, now: Millis,
                     moved: map<OpKey, Archived>, left: map<OpKey, Op>)
    requires forall k :: k in moved <==> k in operations && Shelvable(operations[k], cutoff)
    requires forall k :: k in moved ==> moved[k] == Archived(operations[k], now)
    requires forall k :: k in left <==> k in operations && k !in moved
    requires forall k :: k in left ==> left[k] == operations[k]
    ensures left == OperationsAfter(operations, Shelved(cutoff, now))
    ensures archive + moved == ArchiveAfter(operations, archive, Shelved(cutoff, now))
    ensures GatewayRecoveryStore.Shelves(operations, archive, left, archive + moved, cutoff, now)
  {
    ShelvedAsSpelled(operations, archive, cutoff, now, moved, left);
    hide Shelvable, GatewayRecoveryStore.Shelves;
    var named := map k | k in operations && Shelvable(operations[k], cutoff) :: Archived(operations[k], now);
    assert moved == named;
  }

  lemma ShelvedAsSpelled(operations: map<OpKey, Op>, archive: map<OpKey, Archived>, cutoff: Millis, now: Millis,
                         moved: map<OpKey, Archived>, left: map<OpKey, Op>)
    requires forall k :: k in moved <==> k in operations && Shelvable(operations[k], cutoff)
    requires forall k :: k in moved ==> moved[k] == Archived(operations[k], now)
    requires forall k :: k in left <==> k in operations && k !in moved
    requires forall k :: k in left ==> left[k] == operations[k]
    ensures GatewayRecoveryStore.Shelves(operations, archive, left, archive + moved, cutoff, now)
  {
  }

  lemma Split<T>(all: set<T>, left: set<T>, moved: set<T>)
    requires moved <= all && left == all - moved
    ensures |left| + |moved| == |all|
  {
  }

  lemma ShelvedCommit(t: Tables, e: Entry)
    requires e.Shelved?
    ensures Commit(t, e) == t.(operations := OperationsAfter(t.operations, e), archive := ArchiveAfter(t.operations, t.archive, e))
  {
    hide OperationsAfter, ArchiveAfter;
  }

  lemma EvidenceCarries(a: Op, b: Op)
    requires EvidenceFits(a) && a.intent == b.intent && a.state == b.state && a.evidence == b.evidence
    requires a.uncertainty == b.uncertainty
    ensures EvidenceFits(b)
  {
  }
}
