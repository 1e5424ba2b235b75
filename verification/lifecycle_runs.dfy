/**
 Whole runs: any number of coordinators opened one after another on one journal, any mix of
 requests, reconciliations and reopens, with every store write and port call free to fail.
 */
module LifecycleRuns {
  import opened Outcomes
  import opened LifecycleTypes
  import opened LifecycleLog
  import opened LifecycleStore
  import opened LifecycleTheorems
  import opened Lifecycle

  /** What happens next, and which opened coordinator it happens to. */
  datatype Command =
    | Reopen
    | Bind(who: nat, lease: LeaseProof)
    | Submit(who: nat, request: Request)
    | Resume(who: nat, lease: LeaseProof, epoch: Epoch, id: OperationId)

  /** All coordinators share the journal, hold distinct tokens, and are each internally consistent. */
  ghost predicate PoolValid(journal: Journal, pool: seq<ProcessLifecycle>)
    reads journal, pool
  {
    && journal.Valid()
    && (forall i :: 0 <= i < |pool| ==> pool[i].journal == journal && pool[i].Valid())
    && (forall i, j :: 0 <= i < j < |pool| ==> pool[i] != pool[j] && pool[i].token != pool[j].token)
  }

  /**
   No coordinator holds the journal, and an owner row names a process of another instance: what a failed
   opening leaves behind.
   */
  ghost predicate Abandoned(journal: Journal, pool: seq<ProcessLifecycle>)
    reads journal
  {
    ForeignOwner(journal.ownership) && forall i :: 0 <= i < |pool| ==> journal.token != Some(pool[i].token)
  }

  /** One step of a run. An abandoned journal stays abandoned, its tables as they are. */
  method Step(journal: Journal, pool: seq<ProcessLifecycle>, command: Command) returns (next: seq<ProcessLifecycle>)
    requires PoolValid(journal, pool)
    modifies journal, pool
    ensures PoolValid(journal, next)
    ensures old(journal.log) <= journal.log
    ensures pool <= next && forall i :: |pool| <= i < |next| ==> fresh(next[i])
    ensures old(Abandoned(journal, pool)) ==> Abandoned(journal, next) && next == pool && journal.Stored() == old(journal.Stored())
    ensures command.Reopen? && old(ForeignOwner(journal.ownership)) ==>
              Abandoned(journal, next) && next == pool && journal.Stored() == old(journal.Stored())
  {
    hide ProcessLifecycle.Valid, Journal.Valid, PoolValid, ForeignOwner;
    if command.Reopen? {
      next := OpenAnother(journal, pool);
    } else {
      if command.who < |pool| {
        CallOne(journal, pool, command);
      }
      next := pool;
    }
  }

  method OpenAnother(journal: Journal, pool: seq<ProcessLifecycle>) returns (next: seq<ProcessLifecycle>)
    requires PoolValid(journal, pool)
    modifies journal
    ensures PoolValid(journal, next)
    ensures old(journal.log) <= journal.log
    ensures pool <= next && forall i :: |pool| <= i < |next| ==> fresh(next[i])
    ensures old(ForeignOwner(journal.ownership)) ==>
              Abandoned(journal, next) && next == pool && journal.Stored() == old(journal.Stored())
  {
    hide AuthorityAgrees, Legal, Replay, Holder, Numbered, Invariant, ViewOf, Starts;
    TokensBelow(journal, pool);
    var reopened := ProcessLifecycle.Open(journal);
    forall i | 0 <= i < |pool|
      ensures pool[i].Valid()
    {
      assert old(pool[i].Valid());
      ViewSurvivesReopen(journal.config, old(journal.log), journal.log, old(journal.nextToken), pool[i].token);
    }
    next := if reopened.Ok? then pool + [reopened.value] else pool;
  }

  method CallOne(journal: Journal, pool: seq<ProcessLifecycle>, command: Command)
    requires PoolValid(journal, pool) && !command.Reopen? && command.who < |pool|
    modifies journal, pool
    ensures PoolValid(journal, pool)
    ensures old(journal.log) <= journal.log
    ensures old(Abandoned(journal, pool)) ==> Abandoned(journal, pool) && journal.Stored() == old(journal.Stored())
  {
    hide AuthorityAgrees, Legal, Replay, Holder, Numbered, Invariant, ViewOf, Starts;
    var one := pool[command.who];
    if command.Bind? {
      var _ := one.BindLease(command.lease);
    } else {
      if command.Submit? {
        var _ := one.Apply(command.request);
      } else {
        var _ := one.Reconcile(command.lease, command.epoch, command.id);
      }
      forall i | 0 <= i < |pool| && i != command.who
        ensures pool[i].Valid()
      {
        assert old(pool[i].Valid()) && pool[i].token != one.token;
        ViewSurvivesCall(journal.config, old(journal.log), journal.log, pool[i].token);
      }
    }
  }

  /** What another coordinator does leaves a view alone, unless its owner holds the journal and the tables moved. */
  lemma ViewSurvivesCall(cfg: Config, log: seq<Entry>, longer: seq<Entry>, token: nat)
    requires Legal(cfg, longer) && log <= longer && Opened(token) in log
    ensures Opened(token) in longer
    ensures Holder(log) != Some(token) ==> ViewOf(longer, token) == ViewOf(log, token)
    ensures Holder(log) == Some(token) && Holder(longer) == Some(token) && Replay(longer) == Replay(log)
            ==> ViewOf(longer, token) == ViewOf(log, token)
  {
    assert longer[..|log|] == log && longer[..|longer|] == longer;
    if Holder(log) != Some(token) {
      FencedViewIsFrozen(cfg, longer, |log|, |longer|, token);
    }
  }

  /** A new opener freezes every earlier view as it stands. */
  lemma ViewSurvivesReopen(cfg: Config, log: seq<Entry>, longer: seq<Entry>, opener: nat, token: nat)
    requires Legal(cfg, longer) && log + [Opened(opener)] <= longer && Opened(token) in log && token != opener
    ensures ViewOf(longer, token) == ViewOf(log, token) && Opened(token) in longer
  {
    assert forall j :: 0 <= j < |log| ==> longer[j] == log[j];
    var fenced := log + [Opened(opener)];
    assert fenced[..|log|] == log && longer[..|fenced|] == fenced && longer[..|longer|] == longer;
    assert Opened(token) in fenced;
    FencedViewIsFrozen(cfg, longer, |fenced|, |longer|, token);
  }

  lemma TokensBelow(journal: Journal, pool: seq<ProcessLifecycle>)
    requires PoolValid(journal, pool)
    ensures forall i :: 0 <= i < |pool| ==> pool[i].token < journal.nextToken
  {
  }

  /**
   A run may go on from any journal whose history is legal. It stays legal; every coordinator caches what
   its token entitles it to, the last opener exactly the durable tables; and once opening has failed on
   an owner row of another instance, nothing durable changes any more.
   */
  method Continue(journal: Journal, commands: seq<Command>) returns (pool: seq<ProcessLifecycle>)
    requires journal.Valid()
    modifies journal
    ensures PoolValid(journal, pool) && old(journal.log) <= journal.log
    ensures Legal(journal.config, journal.log) && Replay(journal.log) == journal.Stored()
    ensures forall i :: 0 <= i < |pool| && journal.token == Some(pool[i].token) ==> pool[i].Cache() == journal.Stored()
    ensures forall i :: 0 <= i < |pool| ==> pool[i].Cache() == ViewOf(journal.log, pool[i].token)
    ensures forall i :: 0 <= i < |pool| ==> pool[i].owned == Projection(pool[i].ownership)
    ensures old(ForeignOwner(journal.ownership)) ==> pool == [] && journal.Stored() == old(journal.Stored())
  {
    pool := [];
    for n := 0 to |commands|
      invariant PoolValid(journal, pool) && old(journal.log) <= journal.log
      invariant forall i :: 0 <= i < |pool| ==> fresh(pool[i])
      invariant old(ForeignOwner(journal.ownership)) ==> pool == [] && journal.Stored() == old(journal.Stored())
    {
      pool := Step(journal, pool, commands[n]);
    }
  }

  /** Every run from an empty journal, so the theorems about legal logs hold of all of them. */
  method Run(config: Config, commands: seq<Command>) returns (journal: Journal, pool: seq<ProcessLifecycle>)
    requires forall id :: id in config.profiles ==> config.profiles[id].id == id
    ensures fresh(journal) && journal.config == config && PoolValid(journal, pool)
    ensures Legal(config, journal.log) && Replay(journal.log) == journal.Stored()
    ensures forall i :: 0 <= i < |pool| && journal.token == Some(pool[i].token) ==> pool[i].Cache() == journal.Stored()
    ensures forall i :: 0 <= i < |pool| ==> pool[i].Cache() == ViewOf(journal.log, pool[i].token)
    ensures forall i :: 0 <= i < |pool| ==> pool[i].owned == Projection(pool[i].ownership)
  {
    journal := new Journal(config);
    pool := Continue(journal, commands);
  }

  // ---- crashes ----------------------------------------------------------------------------------

  /** Whatever part of a history had happened when everything was dropped, the next opening continues it legally. */
  lemma CrashedHistoryContinues(cfg: Config, log: seq<Entry>, n: nat, token: nat)
    requires Legal(cfg, log) && n <= |log|
    requires forall j :: 0 <= j < n && log[j].Opened? ==> log[j].token != token
    ensures Legal(cfg, log[..n] + [Opened(token)]) && Replay(log[..n] + [Opened(token)]) == Replay(log[..n])
  {
    PrefixLegal(cfg, log, n);
    LegalAppend(cfg, log[..n], Opened(token));
  }

  /**
   A crash in the middle of a call: all coordinators are dropped after some prefix of the history, the
   tables are those of that prefix, and the run goes on from there.
   */
  method CrashAndContinue(journal: Journal, ghost n: nat, tables: Tables, holder: Option<nat>, commands: seq<Command>)
    returns (survivor: Journal, pool: seq<ProcessLifecycle>)
    requires journal.Valid() && n <= |journal.log|
    requires tables == Replay(journal.log[..n]) && holder == Holder(journal.log[..n])
    ensures fresh(survivor) && survivor.config == journal.config && PoolValid(survivor, pool)
    ensures journal.log[..n] <= survivor.log && Legal(journal.config, survivor.log)
    ensures forall i :: 0 <= i < |pool| ==> pool[i].Cache() == ViewOf(survivor.log, pool[i].token)
  {
    PrefixLegal(journal.config, journal.log, n);
    survivor := new Journal.Restored(journal.config, tables, holder, journal.nextToken, journal.log[..n], journal.nextCall);
    pool := Continue(survivor, commands);
  }
}
