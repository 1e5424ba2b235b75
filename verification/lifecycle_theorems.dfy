/** What holds over every legal lifecycle log: capacity, epochs, finality, write-ahead effects. */
module LifecycleTheorems {
  import opened Outcomes
  import opened LifecycleTypes
  import opened LifecycleLog

  /** Records are never lost, keep their request, never lower their epoch, and stay final once terminal. */
  ghost predicate Evolves(before: Tables, after: Tables) {
    forall k :: k in before.records ==>
      k in after.records
      && before.records[k].SameRequest(after.records[k])
      && before.records[k].authorityEpoch <= after.records[k].authorityEpoch
      && (!before.records[k].state.Active() ==> after.records[k] == before.records[k])
  }

  /** The facts every point of a legal log offers about its next entry. */
  lemma LegalAt(cfg: Config, log: seq<Entry>, n: nat)
    requires Legal(cfg, log) && n < |log|
    ensures Permitted(cfg, log[..n], log[n])
    ensures Invariant(cfg, Replay(log[..n]))
    ensures Replay(log[..n + 1]) == Commit(Replay(log[..n]), log[n])
  {
    PrefixLegal(cfg, log, n + 1);
    assert log[..n + 1][..n] == log[..n];
    LegalKeepsInvariant(cfg, log[..n]);
  }

  lemma StepEvolves(cfg: Config, log: seq<Entry>, e: Entry)
    requires Keyed(Replay(log)) && Permitted(cfg, log, e)
    ensures Evolves(Replay(log), Commit(Replay(log), e))
  {
  }

  /** Durable history between any two points of a run. */
  lemma {:induction false} HistoryEvolves(cfg: Config, log: seq<Entry>, a: nat, b: nat)
    requires Legal(cfg, log) && a <= b <= |log|
    ensures Evolves(Replay(log[..a]), Replay(log[..b]))
    decreases b
  {
    hide Permitted, Legal, Replay, Invariant;
    if a < b {
      HistoryEvolves(cfg, log, a, b - 1);
      LegalAt(cfg, log, b - 1);
      StepEvolves(cfg, log[..b - 1], log[b - 1]);
    }
  }

  /** Capacity holds at every point of every run, whatever failed and however often it was reopened. */
  lemma CapacityOverAllRuns(cfg: Config, log: seq<Entry>, n: nat)
    requires Legal(cfg, log) && n <= |log|
    ensures |Occupied(Replay(log[..n]))| <= cfg.maxProcesses
    ensures |Replay(log[..n]).records| <= cfg.maxRecords
  {
    PrefixLegal(cfg, log, n);
    LegalKeepsInvariant(cfg, log[..n]);
  }

  /**
   Between two points of a run an instance can become occupied only by a launch inserted for it in
   between.
   */
  lemma {:induction false} OccupiedSinceLaunch(cfg: Config, log: seq<Entry>, a: nat, b: nat, i: InstanceId)
    requires Legal(cfg, log) && a <= b <= |log|
    requires i !in Occupied(Replay(log[..a])) && i in Occupied(Replay(log[..b]))
    ensures exists n :: a <= n < b && log[n].Inserted? && log[n].op.action.LaunchNew? && log[n].op.instance == i
    decreases b
  {
    hide Permitted, Legal, Replay, Invariant, Occupied, Commit;
    if a < b {
      LegalAt(cfg, log, b - 1);
      if i in Occupied(Replay(log[..b - 1])) {
        OccupiedSinceLaunch(cfg, log, a, b - 1, i);
      } else {
        OccupancyGrowsOnlyByLaunch(cfg, log[..b - 1], log[b - 1], i);
      }
    }
  }

  /** Stopped, failed and rejected records never change again. */
  lemma TerminalRecordsAreFinal(cfg: Config, log: seq<Entry>, a: nat, b: nat, k: Key)
    requires Legal(cfg, log) && a <= b <= |log|
    requires k in Replay(log[..a]).records
    requires var state := Replay(log[..a]).records[k].state; state == Stopped || state == Failed || state == Rejected
    ensures k in Replay(log[..b]).records && Replay(log[..b]).records[k] == Replay(log[..a]).records[k]
  {
    HistoryEvolves(cfg, log, a, b);
  }

  /**
   A coordinator's view is the durable tables at the last point where it held the journal; from then
   on it never held it again.
   */
  lemma {:induction false} ViewWasDurable(log: seq<Entry>, token: nat) returns (m: nat)
    ensures m <= |log| && ViewOf(log, token) == Replay(log[..m])
    ensures m == 0 || Holder(log[..m]) == Some(token)
    ensures forall i :: m < i <= |log| ==> Holder(log[..i]) != Some(token)
  {
    assert log[..|log|] == log;
    if log == [] || Holder(log) == Some(token) {
      m := |log|;
    } else {
      var n := |log| - 1;
      m := ViewWasDurable(log[..n], token);
      assert log[..n][..m] == log[..m];
      forall i | m < i <= |log|
        ensures Holder(log[..i]) != Some(token)
      {
        if i < |log| {
          assert log[..n][..i] == log[..i];
        }
      }
    }
  }

  /** Every port call is made for a record that was durable, active and newest when its coordinator last held the journal. */
  lemma CallsActOnDurableRecords(cfg: Config, log: seq<Entry>, n: nat) returns (m: nat)
    requires Legal(cfg, log) && n < |log| && log[n].Called?
    ensures m <= n && Acts(Replay(log[..m]), log[n].view) && Invariant(cfg, Replay(log[..m]))
    ensures forall i :: m < i <= n ==> Holder(log[..i]) != Some(log[n].token)
    ensures Replay(log[..m]) == ViewOf(log[..n], log[n].token)
    ensures Holder(log[..n]) == Some(log[n].token) ==> Replay(log[..m]) == Replay(log[..n])
  {
    hide Invariant, Acts, Legal;
    LegalAt(cfg, log, n);
    m := ViewWasDurable(log[..n], log[n].token);
    assert log[..n][..m] == log[..m];
    forall i | m < i <= n
      ensures Holder(log[..i]) != Some(log[n].token)
    {
      assert log[..n][..i] == log[..i];
    }
    PrefixLegal(cfg, log, m);
    LegalKeepsInvariant(cfg, log[..m]);
  }

  lemma SupersededBelow(cfg: Config, t: Tables, k: Key, view: Operation)
    requires Invariant(cfg, t) && Acts(t, view) && k in t.records && k.instance == view.instance
    requires t.records[k].state == Stopped || t.records[k].state == Failed
    ensures view.sequence > t.records[k].sequence
  {
  }

  /**
   Once an operation is stopped or failed, the port is called for that instance only on behalf of
   operations with a later sequence, for the rest of the run; the one exception is a coordinator that
   was fenced off before the end was written and has not held the journal since.
   */
  lemma NoEffectsForSupersededOperations(cfg: Config, log: seq<Entry>, a: nat, b: nat, k: Key)
    requires Legal(cfg, log) && a <= b < |log|
    requires k in Replay(log[..a]).records
    requires Replay(log[..a]).records[k].state == Stopped || Replay(log[..a]).records[k].state == Failed
    requires log[b].Called? && log[b].view.instance == k.instance
    ensures log[b].view.sequence > Replay(log[..a]).records[k].sequence
            || forall i :: a <= i <= b ==> Holder(log[..i]) != Some(log[b].token)
  {
    hide Legal, Replay, Invariant, Acts;
    var m := CallsActOnDurableRecords(cfg, log, b);
    if a <= m {
      TerminalRecordsAreFinal(cfg, log, a, m, k);
      SupersededBelow(cfg, Replay(log[..m]), k, log[b].view);
    }
  }

  /** The durable authority epoch of an instance is unique and never decreases. */
  lemma EpochNeverDecreases(cfg: Config, log: seq<Entry>, a: nat, b: nat, i: InstanceId, ea: Epoch, eb: Epoch)
    requires Legal(cfg, log) && a <= b <= |log|
    requires EpochIs(Replay(log[..a]).records, i, ea) && EpochIs(Replay(log[..b]).records, i, eb)
    ensures ea <= eb
  {
    HistoryEvolves(cfg, log, a, b);
  }

  /** A restart rotates at most once, to its request epoch plus one, and shares that epoch with no other restart. */
  lemma RotationsAreSingleAndDistinct(cfg: Config, log: seq<Entry>, n: nat, j: Key, k: Key)
    requires Legal(cfg, log) && n <= |log|
    requires j in Replay(log[..n]).records && k in Replay(log[..n]).records
    requires j.instance == k.instance && j != k
    requires Replay(log[..n]).records[j].Rotated() && Replay(log[..n]).records[k].Rotated()
    ensures Replay(log[..n]).records[j].authorityEpoch == Replay(log[..n]).records[j].requestEpoch + 1
    ensures Replay(log[..n]).records[j].authorityEpoch != Replay(log[..n]).records[k].authorityEpoch
  {
    PrefixLegal(cfg, log, n);
    LegalKeepsInvariant(cfg, log[..n]);
  }

  /**
   No coordinator issues a stop or start for a restart before its rotated epoch is durable, and each
   does so only while that is the instance's authority epoch in the tables it knows; for the holder
   those are the durable ones.
   */
  lemma RestartEffectsFollowRotation(cfg: Config, log: seq<Entry>, n: nat)
    requires Legal(cfg, log) && n < |log|
    requires log[n].Called? && log[n].view.action.Restart? && (log[n].port.StartCall? || log[n].port.StopCall?)
    ensures var op := log[n].view;
            KeyOf(op) in Replay(log[..n]).records
            && Replay(log[..n]).records[KeyOf(op)].authorityEpoch == op.requestEpoch + 1
            && EpochIs(ViewOf(log[..n], log[n].token).records, op.instance, op.requestEpoch + 1)
            && (Holder(log[..n]) == Some(log[n].token) ==> EpochIs(Replay(log[..n]).records, op.instance, op.requestEpoch + 1))
  {
    hide Legal, Replay, EpochIs, Acts, Invariant, Evolves, Holder;
    var op := log[n].view;
    var m := CallsActOnDurableRecords(cfg, log, n);
    RotationKnown(cfg, log, n);
    HistoryEvolves(cfg, log, m, n);
    PrefixLegal(cfg, log, n);
    LegalKeepsInvariant(cfg, log[..n]);
    RotationStays(cfg, Replay(log[..m]), Replay(log[..n]), op);
  }

  lemma RotationKnown(cfg: Config, log: seq<Entry>, n: nat)
    requires Legal(cfg, log) && n < |log|
    requires log[n].Called? && log[n].view.action.Restart? && (log[n].port.StartCall? || log[n].port.StopCall?)
    ensures var op := log[n].view;
            op.authorityEpoch == op.requestEpoch + 1
            && EpochIs(ViewOf(log[..n], log[n].token).records, op.instance, op.authorityEpoch)
  {
    hide Legal, Replay, EpochIs, Acts, Invariant, Observed, JustStarted, ViewOf;
    LegalAt(cfg, log, n);
  }

  /** A rotated epoch, once durable, is durable from then on. */
  lemma RotationStays(cfg: Config, before: Tables, after: Tables, op: Operation)
    requires Acts(before, op) && Evolves(before, after) && Invariant(cfg, after)
    requires op.authorityEpoch == op.requestEpoch + 1
    ensures KeyOf(op) in after.records && after.records[KeyOf(op)].authorityEpoch == op.requestEpoch + 1
  {
    hide StatesFit, OwnersBacked, RotationsUnique, SequencesUnique, Occupied;
  }

  /** Every start is issued against a durable, process-free record whose fields are the generation key. */
  lemma StartsAreWrittenAhead(cfg: Config, log: seq<Entry>, n: nat)
    requires Legal(cfg, log) && n < |log| && log[n].Called? && log[n].port.StartCall?
    ensures var t, g := Replay(log[..n]), log[n].port.generation;
            var k := Key(g.instance, g.operation);
            k in t.records && g.instance in t.ownership
            && t.records[k].process == None && t.records[k].sequence == g.sequence
            && t.records[k].requestEpoch == g.requestEpoch && t.records[k].authorityEpoch == g.authorityEpoch
            && ((t.records[k].state == Starting && t.records[k].action == LaunchNew(g.profile)
                 && g.kind == LaunchGeneration && g.authorityEpoch == g.requestEpoch)
                || (t.records[k].state == Restarting && t.records[k].action == Restart(g.profile)
                    && g.kind == RestartReplacement && g.authorityEpoch == g.requestEpoch + 1))
  {
    LegalAt(cfg, log, n);
    assert Acts(Replay(log[..n]), log[n].view);
  }

  lemma InsertedStays(cfg: Config, log: seq<Entry>, a: nat, b: nat)
    requires Legal(cfg, log) && a < b < |log| && log[a].Inserted?
    ensures KeyOf(log[a].op) in Replay(log[..b]).records
  {
    assert KeyOf(log[a].op) in Replay(log[..a + 1]).records by { LegalAt(cfg, log, a); }
    HistoryEvolves(cfg, log, a + 1, b);
  }

  /** An operation key is inserted once in a run. */
  lemma InsertedOnce(cfg: Config, log: seq<Entry>, a: nat, b: nat)
    requires Legal(cfg, log) && a < b < |log|
    requires log[a].Inserted? && log[b].Inserted?
    ensures KeyOf(log[a].op) != KeyOf(log[b].op)
  {
    InsertedStays(cfg, log, a, b);
    assert KeyOf(log[b].op) !in Replay(log[..b]).records by { LegalAt(cfg, log, b); }
  }

  /** A launch start belongs to the API call that inserted its record, and is the first start of that call. */
  lemma LaunchStartInInsertingCall(cfg: Config, log: seq<Entry>, n: nat) returns (i: nat)
    requires Legal(cfg, log) && n < |log|
    requires log[n].Called? && log[n].port.StartCall? && log[n].view.action.LaunchNew?
    ensures i < n && log[i].Inserted? && log[i].call == log[n].call && KeyOf(log[i].op) == KeyOf(log[n].view)
    ensures forall m :: 0 <= m < n && log[m].Called? && log[m].port.StartCall? ==> log[m].call != log[n].call
  {
    LegalAt(cfg, log, n);
    assert WriteAhead(log[..n], log[n].call, log[n].view, log[n].port);
    assert InsertedInCall(log[..n], log[n].call, KeyOf(log[n].view));
    i :| 0 <= i < n && log[..n][i].Inserted? && log[..n][i].call == log[n].call
         && KeyOf(log[..n][i].op) == KeyOf(log[n].view);
    forall m | 0 <= m < n && log[m].Called? && log[m].port.StartCall?
      ensures log[m].call != log[n].call
    {
      assert log[..n][m] == log[m];
    }
  }

  /** Over all runs and reopens, a launch operation causes at most one process start. */
  lemma LaunchStartsAtMostOnce(cfg: Config, log: seq<Entry>, a: nat, b: nat)
    requires Legal(cfg, log) && a < b < |log|
    requires log[a].Called? && log[a].port.StartCall? && log[a].view.action.LaunchNew?
    requires log[b].Called? && log[b].port.StartCall? && log[b].view.action.LaunchNew?
    ensures KeyOf(log[a].view) != KeyOf(log[b].view)
  {
    var i := LaunchStartInInsertingCall(cfg, log, a);
    var j := LaunchStartInInsertingCall(cfg, log, b);
    if i < j {
      InsertedOnce(cfg, log, i, j);
    } else if j < i {
      InsertedOnce(cfg, log, j, i);
    }
  }

  /**
   Every stop, by whatever coordinator, targets a process started in the same API call, or the identity
   recorded for the operation and observed again in that call, with its tree in the scope and bound of
   its profile. The record it acts for was durable, active and newest when the coordinator last held
   the journal.
   */
  lemma StopsAreFenced(cfg: Config, log: seq<Entry>, n: nat) returns (m: nat)
    requires Legal(cfg, log) && n < |log| && log[n].Called? && log[n].port.StopCall?
    ensures exists identity: ProcessIdentity ::
              identity.handle == log[n].port.handle
              && (JustStarted(log[..n], log[n].call, identity)
                  || (log[n].view.process == Some(identity)
                      && Observed(cfg, log[..n], log[n].token, log[n].call, KeyOf(log[n].view), log[n].view.action, identity)))
    ensures StopAsRequested(log[n].view, log[n].port.mode)
    ensures m <= n && Acts(Replay(log[..m]), log[n].view)
    ensures forall i :: m < i <= n ==> Holder(log[..i]) != Some(log[n].token)
    ensures Holder(log[..n]) == Some(log[n].token) ==> Acts(Replay(log[..n]), log[n].view)
  {
    hide Acts, Observed, JustStarted, Invariant;
    m := CallsActOnDurableRecords(cfg, log, n);
    LegalAt(cfg, log, n);
  }

  /**
   A record is written as Started only for an identity verified in the same call: observed again,
   running, matching its profile and with its tree in that profile's scope and bound.
   */
  lemma StartedMeansVerified(cfg: Config, log: seq<Entry>, n: nat)
    requires Legal(cfg, log) && n < |log| && log[n].Updated? && log[n].op.state.Started?
    ensures log[n].op.process.Some?
    ensures Verified(cfg, log[..n], log[n].token, log[n].call, KeyOf(log[n].op), log[n].op.action, log[n].op.process.value)
  {
    hide Verified, ConfirmedGone;
    LegalAt(cfg, log, n);
  }

  /**
   A recorded process is let go, by ending its operation or by clearing its identity, only after the
   same call saw it stopped or exited and its whole tree empty.
   */
  lemma ProcessesAreReleasedOnlyWhenGone(cfg: Config, log: seq<Entry>, n: nat, k: Key)
    requires Legal(cfg, log) && n < |log| && k in Replay(log[..n]).records && Replay(log[..n]).records[k].process.Some?
    requires k in Replay(log[..n + 1]).records && Replay(log[..n]).records[k] != Replay(log[..n + 1]).records[k]
    requires var after := Replay(log[..n + 1]).records[k];
             after.process.None? || after.state.Stopped? || after.state.Failed?
    ensures log[n].Updated? && ConfirmedGone(log[..n], log[n].call, Replay(log[..n]).records[k].process.value.handle)
  {
    hide Verified, ConfirmedGone;
    LegalAt(cfg, log, n);
  }

  /**
   An operation is written as Stopped only if it had a process, which is then confirmed gone; it fails
   without a process only if its start was explicitly refused in the same call, never after an
   ambiguous one.
   */
  lemma EndsAreJustified(cfg: Config, log: seq<Entry>, n: nat)
    requires Legal(cfg, log) && n < |log| && log[n].Updated? && (log[n].op.state.Stopped? || log[n].op.state.Failed?)
    ensures KeyOf(log[n].op) in Replay(log[..n]).records
    ensures var process := Replay(log[..n]).records[KeyOf(log[n].op)].process;
            if process.Some? then ConfirmedGone(log[..n], log[n].call, process.value.handle)
            else log[n].op.state.Failed? && RefusedInCall(log[..n], log[n].call, KeyOf(log[n].op))
  {
    hide Verified, ConfirmedGone, RefusedInCall;
    LegalAt(cfg, log, n);
  }

  /** The holder is the latest opener. */
  lemma {:induction false} HolderIsLatestOpener(log: seq<Entry>, token: nat)
    requires Holder(log) == Some(token)
    ensures exists j :: 0 <= j < |log| && log[j] == Opened(token)
                        && forall i :: j < i < |log| ==> !log[i].Opened?
  {
    var n := |log| - 1;
    if log[n].Opened? {
      assert log[n] == Opened(token);
    } else {
      HolderIsLatestOpener(log[..n], token);
      var j :| 0 <= j < n && log[..n][j] == Opened(token) && forall i :: j < i < n ==> !log[..n][i].Opened?;
      assert log[j] == Opened(token);
      forall i | j < i < |log|
        ensures !log[i].Opened?
      {
        assert i < n ==> log[i] == log[..n][i];
      }
    }
  }

  /** Whatever changes the durable tables was committed by the coordinator that opened the journal last. */
  lemma CommitsComeFromLatestOpener(cfg: Config, log: seq<Entry>, n: nat)
    requires Legal(cfg, log) && n < |log|
    requires Replay(log[..n + 1]) != Replay(log[..n])
    ensures exists j :: 0 <= j < n && log[j] == Opened(log[n].token)
                        && forall i :: j < i < n ==> !log[i].Opened?
  {
    LegalAt(cfg, log, n);
    HolderIsLatestOpener(log[..n], log[n].token);
    var j :| 0 <= j < n && log[..n][j] == Opened(log[n].token) && forall i :: j < i < n ==> !log[..n][i].Opened?;
    assert log[j] == Opened(log[n].token);
    forall i | j < i < n
      ensures !log[i].Opened?
    {
      assert log[i] == log[..n][i];
    }
  }

  /** A coordinator that was fenced off never holds the journal again. */
  lemma {:induction false} FencedForGood(cfg: Config, log: seq<Entry>, a: nat, b: nat, token: nat)
    requires Legal(cfg, log) && a <= b <= |log| && Opened(token) in log[..a] && Holder(log[..a]) != Some(token)
    ensures Holder(log[..b]) != Some(token)
    decreases b
  {
    hide Replay, Invariant, Commit, Legal, MayInsert, MayUpdate, MayOwn, Grounded, StopFence, WriteAhead, ViewOf;
    if a < b {
      FencedForGood(cfg, log, a, b - 1, token);
      LegalAt(cfg, log, b - 1);
      assert log[..b][..b - 1] == log[..b - 1];
      var j :| 0 <= j < a && log[..a][j] == Opened(token);
      assert log[..b - 1][j] == Opened(token);
    }
  }

  /** Nor does its view change again. */
  lemma {:induction false} FencedViewIsFrozen(cfg: Config, log: seq<Entry>, a: nat, b: nat, token: nat)
    requires Legal(cfg, log) && a <= b <= |log| && Opened(token) in log[..a] && Holder(log[..a]) != Some(token)
    ensures ViewOf(log[..b], token) == ViewOf(log[..a], token)
    decreases b
  {
    if a < b {
      FencedViewIsFrozen(cfg, log, a, b - 1, token);
      FencedForGood(cfg, log, a, b, token);
      assert log[..b][..b - 1] == log[..b - 1];
    }
  }
}
