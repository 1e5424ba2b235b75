# Verified model of the sts2 gateway's durable protocols

This project models the parts of the gateway that must survive crashes, lost acknowledgments and
stale callers, and proves what they guarantee over every run. It has five components.

1. **Process lifecycle** (`lifecycle_types`, `lifecycle_log`, `lifecycle_theorems`, `lifecycle_journal`,
   `lifecycle_outcomes`, `lifecycle`, `lifecycle_runs`, `lifecycle_witnesses`). `ProcessLifecycle` is a class whose methods follow the coordinator's
   launch, attach, stop, restart and reconcile paths step by step. Every journal write may fail, every
   port call may answer anything, any number of coordinators may be opened on one journal. Each method
   extends a shared history of openings, calls, commits and port calls; `Legal` says that every entry was
   justified by the ones before it. `LifecycleRuns` proves that every run is legal, also one that goes on
   after a crash in the middle of a call, and
   `LifecycleTheorems` proves capacity, epoch, finality, write-ahead, stop-fence and release results for every
   legal history. `LifecycleOutcomes` says, without reference to the coordinator, how each call ends for every
   sequence of port answers: which calls follow, what the record becomes and what the caller is told; every
   method of the coordinator ends exactly so unless a write failed.
2. **Native generations** (`native_log`, `native`). The registry and the native port, with commits that
   may be lost or may take effect although their acknowledgment is lost. Starts happen at most once per
   generation, and at most one unit per user-data namespace is ever alive.
3. **Recovery store** (`recovery_types`, `recovery_log`, `recovery_theorems`, `recovery_ledger`,
   `recovery_store`, `recovery_witnesses`). Authority generations, leases with their host half, the
   operation ledger and archive, tickets and continuation claims: six tables, one joint invariant, and
   results over every history of them.
4. **RCJ-1 codec** (`canonical`, `canonical_scanner`, `canonical_action`). The scanner accepts exactly the
   renderings of well-formed documents, and canonicalisation accepts exactly the literal spellings of the
   seventeen runtime moves.
5. **Control plane and masker** (`control_plane`, `masking`). Handle conservation and fence finality over
   whole runs, and every call decided by the noted answers of its ports; byte-preserving, UTF-8-preserving,
   idempotent masking of tokens that are described by their own bytes.

Shared conventions. A component that changes state is a class; its ghost history records what was
committed or called, `Valid()` ties the fields to that history, and the run theorems are lemmas over all
legal histories. Answers of ports are kept in that history, and ghost counters note every failure of a
store or host and every refusal of an external guard, so that a contract can say that a call ends in an
error exactly for a named cause. The store, the ports, the clocks and the external lease fence of the lifecycle
coordinator are nondeterministic. Identifiers, tokens and digests are opaque values (SHA-256 is
injective, fresh identifiers are fresh where a result needs it); format checks on them may refuse any
call. `dafny verify dfyconfig.toml` checks the project.

Where the code does not meet a property for all inputs, the exact line is stated:

* The renewal sequence of a recovery lease can drop when clocks run backwards:
  `complete_host_lease_renew` compares deadlines, not sequences.
  `RecoveryWitnesses.BackwardClockLowersRenewSequence` gives the history,
  `RecoveryLedger.RenewSequenceDropsExactlyWhenOvertaken` the exact condition, in terms of the renewals
  accepted since the host renewal was prepared and of their clock readings, and
  `RecoveryLedger.RenewSequenceNeverDecreases` the result for clocks that never run backwards.
* `issue_admission_ticket` returns a ticket that already exists for the operation without comparing it
  with the lease. After a historical import that ticket can outlive the lease
  (`RecoveryWitnesses.HistoricalTicketMayOutliveItsLease`); the contract of `IssueTicket` states exactly
  when the returned ticket ends within the lease.
* Reopening a lifecycle store is refused if an owner row names a process of another instance; the
  contract of `Open` states this condition, `LifecycleRuns.Continue` and `LifecycleRuns.Step` that nothing
  durable changes from then on, and `LifecycleWitnesses.ForeignOwnerIsReachable` gives a history that gets
  there: a start returns such an identity and stopping that process fails.
* A coordinator that lost the journal acts on what it knew until its next write fails.
  `LifecycleTheorems.NoEffectsForSupersededOperations` states which coordinators, at most, may still call the
  port for an operation that has ended, and `LifecycleWitnesses.FencedCoordinatorMayStop` shows one that does.
* `reconcile_operation` returns the operation unchanged when no witness is given, according to its body
  (crates/gateway/src/recovery_store_operations.rs:249-251), but the shape check before it already
  refuses a missing witness; the model follows that refusal.
* A launch is answered Unknown without a start if it has no generation, according to its body
  (crates/gateway/src/process_lifecycle_actions.rs:28-34), but a stored launch is sequenced, starting and
  under its own profile, so it always has one: `LaunchOnce` proves that branch dead and issues exactly one
  start. The second usability check of a native stop
  (crates/gateway/src/process_native_port.rs:207) cannot fail either, once the observation before it succeeded.

## Model

| member | source | states |
|---|---|---|
| `LifecycleTheorems.CapacityOverAllRuns` | crates/gateway/src/process_lifecycle_operations.rs:93-153 | at every point of every legal history the occupied instances (owner row, or newest non-rejected record active) stay within `max_processes` and the records within `max_records` |
| `LifecycleLog.OccupancyGrowsOnlyByLaunch` | crates/gateway/src/process_lifecycle_ownership.rs:241-261 | one change makes an unoccupied instance occupied only if it inserts a LaunchNew for that instance |
| `LifecycleTheorems.OccupiedSinceLaunch` | crates/gateway/src/process_lifecycle_operations.rs:93-108 | between any two points of a run an instance becomes occupied only through a LaunchNew inserted in between |
| `LifecycleLog.StepKeepsInvariant` | crates/gateway/src/process_lifecycle_ownership.rs:18-101 | every permitted change keeps keys, unique sequences, bounded and unique rotations, state/action fit, backed owner rows and both capacities |
| `LifecycleLog.LegalKeepsInvariant` | crates/gateway/src/process_store_sqlite_admission.rs:79-158 | every legal history, from an empty store, ends in tables that satisfy that invariant |
| `LifecycleTheorems.TerminalRecordsAreFinal` | crates/gateway/src/process_lifecycle_operations.rs:204-209 | a Stopped, Failed or Rejected record is the same record at every later point |
| `LifecycleTheorems.NoEffectsForSupersededOperations` | crates/gateway/src/process_lifecycle_order.rs:49-73 | once an operation is Stopped or Failed, every port call for that instance, by whatever coordinator and through every later run and reopen, is for a later-sequenced operation, unless the caller was fenced off before that end and has not held the journal since |
| `LifecycleTheorems.HistoryEvolves` | crates/gateway/src/process_store.rs:164-181 | records are never lost, keep their request fields, never lower their epoch and stay final |
| `LifecycleTheorems.EpochNeverDecreases` | crates/gateway/src/process_lifecycle.rs:57-74 | the durable authority epoch of an instance never decreases, whatever failed and however often the store was reopened |
| `LifecycleTheorems.RotationsAreSingleAndDistinct` | crates/gateway/src/process_lifecycle_recovery_actions.rs:64-98 | a rotated restart holds its request epoch plus one, and no two restarts of an instance share a rotated epoch |
| `LifecycleTheorems.RestartEffectsFollowRotation` | crates/gateway/src/process_lifecycle_restart_recovery.rs:15-36 | no coordinator, fenced or not, issues a stop or start for a restart before its rotated epoch is durable; each does so only while that is the instance epoch in the tables it knows, for the holder the durable ones |
| `LifecycleTheorems.StartsAreWrittenAhead` | crates/gateway/src/process_lifecycle_actions.rs:19-48 | at every start the store already holds the operation as Starting (launch) or Restarting with rotated epoch, without a process, with fields equal to the generation key, and an owner row |
| `LifecycleTheorems.LaunchStartInInsertingCall` | crates/gateway/src/process_lifecycle_operations.rs:28-51 | a launch start belongs to the API call that inserted the record and is the first start of that call |
| `LifecycleTheorems.LaunchStartsAtMostOnce` | crates/gateway/src/process_lifecycle_recovery_actions.rs:165-201 | a LaunchNew operation causes at most one start over all runs and reopens |
| `LifecycleTheorems.InsertedOnce` | crates/gateway/src/process_store_sqlite_records.rs:30-53 | an operation key is inserted once in a run |
| `LifecycleTheorems.StopsAreFenced` | crates/gateway/src/process_lifecycle_recovery.rs:213-291 | every stop, by whatever coordinator, targets an identity a start returned in the same call, or the recorded identity observed again in that call with all observed descendants in the scope and bound of the profile of that operation; its mode is the requested one, or force for any other operation; the record it acts for was durable, active and newest when the coordinator last held the journal |
| `LifecycleTheorems.CallsActOnDurableRecords` | crates/gateway/src/process_lifecycle_order.rs:49-73 | every port call is made for a record that was durable, active and newest when its coordinator last held the journal |
| `LifecycleTheorems.FencedForGood` | crates/gateway/src/process_store_sqlite_admission.rs:8-38 | a coordinator that was fenced off never holds the journal again |
| `LifecycleTheorems.FencedViewIsFrozen` | crates/gateway/src/process_lifecycle.rs:215-236 | the cache of a fenced coordinator stays the tables as they were when it was fenced off |
| `LifecycleRuns.Continue` | crates/gateway/src/process_lifecycle.rs:38-155 | a run may go on from any journal with a legal history; if an owner row names a process of another instance then no coordinator is ever opened and the tables never change again |
| `LifecycleRuns.CrashedHistoryContinues` | crates/gateway/src/process_lifecycle.rs:38-94 | any prefix of a legal history, so a crash in the middle of a call, is continued legally by the next opening |
| `LifecycleRuns.CrashAndContinue` | crates/gateway/src/process_lifecycle.rs:38-94 | after dropping everything at any point of the history the run goes on legally from the tables of that point |
| `LifecycleWitnesses.ForeignOwnerIsReachable` | crates/gateway/src/process_lifecycle_failures.rs:134-148 | a concrete history that leaves an owner row naming a process of another instance |
| `LifecycleWitnesses.FencedCoordinatorMayStop` | crates/gateway/src/process_lifecycle_recovery_actions.rs:208-271 | a concrete history in which a fenced coordinator stops, from its old view, for an operation that has ended since |
| `LifecycleTheorems.StartedMeansVerified` | crates/gateway/src/process_lifecycle_verification.rs:47-70 | a record is written as Started only for an identity verified in the same call: observed again, running, matching the profile of the operation and with its tree in the scope and bound of that profile |
| `LifecycleTheorems.ProcessesAreReleasedOnlyWhenGone` | crates/gateway/src/process_lifecycle_recovery.rs:21-70 | a recorded process is let go (operation ended, or identity cleared for a replacement) only after the same call saw it stopped or exited and its whole tree empty |
| `LifecycleTheorems.EndsAreJustified` | crates/gateway/src/process_lifecycle_failures.rs:18-85 | Stopped is written only for a process confirmed gone; Failed without a process only after an explicit start refusal in the same call, never after an ambiguous start |
| `LifecycleTheorems.HolderIsLatestOpener` | crates/gateway/src/process_store_sqlite.rs:85-93 | the token holder is the coordinator that opened the journal last |
| `LifecycleTheorems.CommitsComeFromLatestOpener` | crates/gateway/src/process_store_sqlite_admission.rs:8-38 | whatever changes the tables was committed by the coordinator that opened the journal last |
| `LifecycleRuns.Run` | crates/gateway/src/process_lifecycle.rs:38-155 | every run of opens, lease bindings, requests and reconciliations over any number of coordinators is a legal history; every coordinator caches exactly the tables its token entitles it to, the last opener the durable ones, and `owned` is the projection of ownership |
| `LifecycleRuns.Step` | crates/gateway/src/process_lifecycle.rs:141-155 | one step on one coordinator keeps every coordinator of the journal consistent; after an opening failed on a foreign owner row no step changes anything durable |
| `LifecycleStore.Journal.TakeToken` | crates/gateway/src/process_store_sqlite.rs:85-93 | opening replaces the coordinator token and fences every earlier opener |
| `LifecycleStore.Journal.Insert` | crates/gateway/src/process_store_sqlite_records.rs:30-53 | insert commits exactly one new record, only for the token holder and only if admission allows it; otherwise nothing changes and the failure is the database or the guard that refused |
| `LifecycleStore.Journal.Update` | crates/gateway/src/process_store_sqlite_records.rs:55-77 | update replaces exactly one existing record, only for the token holder; otherwise nothing changes and the failure names its cause |
| `LifecycleStore.Journal.SetOwnership` | crates/gateway/src/process_store_sqlite_records.rs:123-153 | an owner row is stored only for the token holder, an active record and an admissible predecessor |
| `LifecycleStore.Journal.ClearOwnershipIf` | crates/gateway/src/process_store_sqlite_records.rs:155-190 | an owner row is deleted only if it still is the expected one |
| `Lifecycle.ProcessLifecycle.Greatest` | crates/gateway/src/process_lifecycle_order.rs:5-25 | the candidate with the greatest operation order has the greatest sequence |
| `Lifecycle.ProcessLifecycle.LatestAuthoritative` | crates/gateway/src/process_lifecycle_ownership.rs:281-293 | the newest non-rejected record of an instance, or none exactly when there is none |
| `Lifecycle.ProcessLifecycle.LatestRecord` | crates/gateway/src/process_lifecycle_ownership.rs:273-279 | the newest record of an instance, or none exactly when there is none |
| `Lifecycle.ProcessLifecycle.IsCurrent` | crates/gateway/src/process_lifecycle_order.rs:49-73 | a retained active operation is current exactly when it is the newest non-rejected record of its instance |
| `Lifecycle.ProcessLifecycle.LatestAuthorized` | crates/gateway/src/process_lifecycle_ownership.rs:192-230 | returns the authorised operation exactly when there is one: the owner if there is a row, else the newest record, or the newest other one if that is left out; always active, with a process, under the bound lease |
| `Lifecycle.ProcessLifecycle.ActiveOperation` | crates/gateway/src/process_lifecycle_ownership.rs:232-239 | an active operation witnesses occupancy; none without an owner row means unoccupied |
| `Lifecycle.ProcessLifecycle.OccupiedCount` | crates/gateway/src/process_lifecycle_ownership.rs:241-261 | counts exactly the occupied instances |
| `Lifecycle.ProcessLifecycle.PersistInsert` | crates/gateway/src/process_lifecycle.rs:215-226 | store first, then cache: a failed write leaves both as they were |
| `Lifecycle.ProcessLifecycle.PersistUpdate` | crates/gateway/src/process_lifecycle.rs:228-236 | store first, then cache; epochs stay agreed unless the update is a rotation |
| `Lifecycle.ProcessLifecycle.PersistOwnership` | crates/gateway/src/process_lifecycle_ownership.rs:295-305 | store first, then ownership, owned identity and sequence |
| `Lifecycle.ProcessLifecycle.ClearOwned` | crates/gateway/src/process_lifecycle_ownership.rs:177-190 | clears the row in store and cache together |
| `Lifecycle.ProcessLifecycle.ReserveOwnership` | crates/gateway/src/process_lifecycle_ownership.rs:111-144 | stores the row of the operation, or leaves a newer owner exactly as it was; a failed write changes nothing |
| `Lifecycle.ProcessLifecycle.SetOwnerProcessFor` | crates/gateway/src/process_lifecycle_ownership.rs:146-165 | changes the process of an existing row and nothing else, or nothing |
| `Lifecycle.ProcessLifecycle.VerifyProcess` | crates/gateway/src/process_lifecycle_verification.rs:20-45 | compares the identity with the profile first; then exactly identity, inspection and tree are asked for, stopping at the first failure, which is returned; success means the expected identity was observed again in this call, running, with its tree inside the profile |
| `Lifecycle.ProcessLifecycle.VerifyStartedIdentity` | crates/gateway/src/process_lifecycle_verification.rs:47-70 | exactly identity, inspection and tree are asked for, stopping at the first failure, which is returned; success means the identity matches the profile and was observed again in this call, running, with its tree inside it |
| `Lifecycle.ProcessLifecycle.ConfirmExited` | crates/gateway/src/process_lifecycle_verification.rs:76-95 | true exactly if the same identity was seen, then exited, then without descendants in this call |
| `Lifecycle.ProcessLifecycle.ProfileForOperation` | crates/gateway/src/process_lifecycle_verification.rs:118-147 | returns exactly the profile the tables give the operation: the owner row, else the action, else the supplying record with the greatest operation id; an error exactly when there is none |
| `Lifecycle.ProcessLifecycle.ProfileIdForRecord` | crates/gateway/src/process_lifecycle_verification.rs:149-182 | the profile the action names, else that of the latest non-rejected record naming one for the same process; none exactly when there is no such record |
| `Lifecycle.ProcessLifecycle.BlockOperation` | crates/gateway/src/process_lifecycle_failures.rs:109-132 | always an error, without any port call; unless a write failed the record is blocked (process fault) or rejected with exactly this failure, a rejected owner has given up its row, and nothing else changed |
| `Lifecycle.ProcessLifecycle.BlockCleanup` | crates/gateway/src/process_lifecycle_failures.rs:134-148 | always an error, without any port call; unless a write failed the record is blocked with its process and exactly this failure, and the owner row keeps that process |
| `Lifecycle.ProcessLifecycle.ProcessFault` | crates/gateway/src/process_lifecycle_failures.rs:18-85 | always an error; unless a write failed: with a process the record is Blocked; after StartRejected, ProfileRequired or ProfileNotApproved Failed and released; after any other fault its own generation is looked up and the record is Unknown with exactly what was found |
| `Lifecycle.ProcessLifecycle.ExecuteLaunch` | crates/gateway/src/process_lifecycle_actions.rs:19-48 | unless a write failed the generation of the operation is started exactly once and the outcome follows the answer: a returned identity that verifies leaves the record Started with it, one that does not is stopped and kept, a refusal fails the record, any other fault leaves it Unknown; success is always Started with an identity this call started |
| `Lifecycle.ProcessLifecycle.LaunchOnce` | crates/gateway/src/process_lifecycle_actions.rs:28-47 | exactly one start, always, with the outcome following its answer; the generation of a launch always exists, so there is no Unknown answer without a start |
| `Lifecycle.ProcessLifecycle.FinishStart` | crates/gateway/src/process_lifecycle_actions.rs:50-81 | issues no start; unless a write failed the identity is verified, and the record is Started with exactly this identity and owner row, or it is undone |
| `Lifecycle.ProcessLifecycle.FinishStartFailure` | crates/gateway/src/process_lifecycle_actions.rs:83-111 | always an error, without a start: the process is stopped by force; unless a write failed the record is Blocked with it if that failed or anything of its tree is left, else blocked or rejected for the failure that was found |
| `Lifecycle.ProcessLifecycle.ExecuteAttach` | crates/gateway/src/process_lifecycle_actions.rs:113-145 | issues no start; unless a write failed: rejected without an authorised process or if that is another one, otherwise verified, and Attached and owned exactly if it verified, Blocked with the failure if not |
| `Lifecycle.ProcessLifecycle.ExecuteStop` | crates/gateway/src/process_lifecycle_actions.rs:147-171 | issues no start; unless a write failed: rejected without an authorised process, otherwise its process is verified and stopped in the requested mode; Stopped exactly if it verified, the stop succeeded and nothing of its tree is left, Blocked with the failure otherwise |
| `Lifecycle.ProcessLifecycle.FinishStop` | crates/gateway/src/process_lifecycle_actions.rs:173-196 | stops only the recorded identity observed in this call, in the requested mode; unless a write failed the record is Stopped without a process and unowned exactly if the stop succeeded and the tree is empty, Blocked otherwise |
| `Lifecycle.ProcessLifecycle.ExecuteRestart` | crates/gateway/src/process_lifecycle_actions.rs:198-227 | at most one start; unless a write failed: rejected without an authorised process or under another profile; otherwise the old process is verified, the epoch rotated once, the process stopped and confirmed gone, and the replacement started, each step only after the one before answered well and each other answer ending as it says |
| `Lifecycle.ProcessLifecycle.BeginRestart` | crates/gateway/src/process_lifecycle_recovery_actions.rs:64-98 | rotates exactly once, to the current epoch plus one, durably with the record and the owner row; refused exactly for a stale epoch or a used-up counter; a failed write rotates memory back |
| `Lifecycle.ProcessLifecycle.FinishRestart` | crates/gateway/src/process_lifecycle_recovery_actions.rs:100-163 | at most one start, at an unchanged rotated epoch; unless a write failed the outcome is the one that the answers to identity, inspection, verification, stop, tree and start determine |
| `Lifecycle.ProcessLifecycle.StartReplacement` | crates/gateway/src/process_lifecycle_recovery_actions.rs:137-162 | only for a process confirmed gone in this call; unless a write failed the replacement is started exactly once under the own profile of the operation and the outcome follows the answer; under another profile the record is Unknown without a start |
| `Lifecycle.ProcessLifecycle.LaunchReplacement` | crates/gateway/src/process_lifecycle_recovery_actions.rs:142-162 | exactly one start under the own profile of the operation, none under another; the outcome follows the answer |
| `Lifecycle.ProcessLifecycle.PrepareRestartRecovery` | crates/gateway/src/process_lifecycle_restart_recovery.rs:15-36 | rotates if that never became durable, otherwise keeps the rotated epoch; refused exactly without a process, for a stale epoch or a used-up counter |
| `Lifecycle.ProcessLifecycle.ReconcileLaunch` | crates/gateway/src/process_lifecycle_recovery_actions.rs:165-201 | issues no start; unless a write failed: a recorded process is verified, or cleaned up if it does not fit its profile; without one the generation is looked up, and if the port found an identity the record ends with it, Started if it verifies and Blocked if not; Unknown only if the port knew nothing or failed |
| `Lifecycle.ProcessLifecycle.ReconcileRetainedCleanup` | crates/gateway/src/process_lifecycle_recovery_actions.rs:208-271 | issues no start; unless a write failed: the process is stopped only if the same identity is seen again with its tree in scope; Failed without a process exactly if it is gone, Unknown with it after a failed observation, Blocked with it otherwise |
| `Lifecycle.ProcessLifecycle.ConfirmCleaned` | crates/gateway/src/process_lifecycle_recovery_actions.rs:273-296 | requires that the process ended in this call; unless a write failed the record is Failed without a process exactly if its tree is empty, Blocked with it otherwise |
| `Lifecycle.ProcessLifecycle.ReconcileRestartIntent` | crates/gateway/src/process_lifecycle_recovery_actions.rs:41-62 | at most one start; unless a write failed: rejected without an authorised process or if that does not fit the profile, otherwise rotated once and resumed |
| `Lifecycle.ProcessLifecycle.ReconcileStopIntent` | crates/gateway/src/process_lifecycle_recovery_actions.rs:19-39 | issues no start; unless a write failed: rejected without an authorised process, otherwise the stop is resumed with its process |
| `Lifecycle.ProcessLifecycle.ReconcileRestart` | crates/gateway/src/process_lifecycle_recovery.rs:145-175 | at most one start; a rotated epoch stays; unless a write failed: without a process the replacement is looked up and kept as found, with one the restart is finished as the answers determine |
| `Lifecycle.ProcessLifecycle.RecoverReplacement` | crates/gateway/src/process_lifecycle_recovery.rs:149-170 | issues no start; looked up only under the current rotated epoch; if the port found an identity the record ends with it, Unknown only if it knew nothing or failed |
| `Lifecycle.ProcessLifecycle.FinishRecovered` | crates/gateway/src/process_lifecycle_recovery.rs:177-211 | issues no start; unless a write failed the record is Started with exactly this identity and owner row if it verifies, Blocked with it and the failure if not |
| `Lifecycle.ProcessLifecycle.ReconcileStopping` | crates/gateway/src/process_lifecycle_recovery.rs:213-291 | issues no start; unless a write failed: an exited process without descendants leaves the record Stopped, a running one is verified and stopped, a failed observation leaves it Unknown and another identity Blocked, always with the process |
| `Lifecycle.ProcessLifecycle.VerifyRecord` | crates/gateway/src/process_lifecycle_recovery.rs:21-70 | issues no start; unless a write failed: a process that verifies is kept and owned, and only an Unknown record changes, to Started; a confirmed exit fails and releases it; a failed inspection leaves it Unknown, any other failure Blocked |
| `Lifecycle.ProcessLifecycle.ReconcileRecord` | crates/gateway/src/process_lifecycle_recovery.rs:72-143 | terminal records are answered untouched; a superseded one is rejected without any port call; unless a write failed a current one ends as its action, state and the answers of the port determine |
| `Lifecycle.ProcessLifecycle.FinishGone` | crates/gateway/src/process_lifecycle_actions.rs:187-195 | writes an end only for a process confirmed gone in this call, gives up the owner row and answers exactly that record |
| `Lifecycle.ProcessLifecycle.GoUnknown` | crates/gateway/src/process_lifecycle_recovery.rs:293-305 | unless the write failed the record is Unknown with exactly the given process and failure, without a port call, and is reported so |
| `Lifecycle.ProcessLifecycle.ReplayOperation` | crates/gateway/src/process_lifecycle_operations.rs:169-210 | a duplicate of a terminal operation is reported without any effect; of a superseded one reported if it was started or attached and rejected otherwise, without any port call; of a current one resumed |
| `Lifecycle.ProcessLifecycle.ReserveAction` | crates/gateway/src/process_lifecycle_operations.rs:93-153 | admits exactly the admissible requests unless the namespace guard refuses: a launch for an unoccupied instance below capacity, an attach or stop or restart for an authorised process in the right state |
| `Lifecycle.ProcessLifecycle.ValidateAction` | crates/gateway/src/process_lifecycle_operations.rs:74-91 | accepts exactly a launch or restart of an approved profile and an attach to an identity of its own instance |
| `Lifecycle.ProcessLifecycle.IssueSequence` | crates/gateway/src/process_lifecycle_ownership.rs:103-109 | the next sequence, above every record; refused exactly at the 64-bit bound |
| `Lifecycle.ProcessLifecycle.Apply` | crates/gateway/src/process_lifecycle_operations.rs:19-52 | unbound lease, stale epoch, conflicting duplicate or inadmissible request: refused without effect; a duplicate is replayed; a new admissible request for which nothing refuses, no bound is reached and no write fails is recorded under the next sequence and executed as its action and the answers of the port determine; an admissible launch issues exactly one start and is answered Ok only as Started, with an identity a start returned; success reports the stored record and its lifecycle state |
| `Lifecycle.ProcessLifecycle.Reconcile` | crates/gateway/src/process_lifecycle_operations.rs:54-72 | unknown operation, foreign lease or stale epoch: refused without effect; unless a write failed or the fence refused, a terminal record is reported, a superseded one rejected, and a current one ends as its action, state and the answers of the port determine |
| `Lifecycle.ProcessLifecycle.BindLease` | crates/gateway/src/process_lifecycle.rs:96-108 | binds once per proof and changes no epoch |
| `Lifecycle.ProcessLifecycle.Rebuild` | crates/gateway/src/process_lifecycle.rs:57-74 | the rebuilt epoch of an instance is the largest of its records, the rebuilt sequence exactly their largest |
| `Lifecycle.ProcessLifecycle.Open` | crates/gateway/src/process_lifecycle.rs:38-94 | refused exactly for a failed read or write, a zero capacity, or an owner row that names a process of another instance; otherwise a consistent coordinator whose last sequence is the largest of the records; exactly the stale owner rows are gone, every other row is as it was, and exactly the unowned instances whose newest record is active and leads to a profile are adopted, with its operation, sequence, profile and process; occupancy never grows |
| `Lifecycle.ProcessLifecycle.Bootstrap` | crates/gateway/src/process_lifecycle_ownership.rs:18-101 | exactly the stale owner rows are dropped and exactly the adoptable unowned instances adopted, without occupying anything new; refused exactly for a failed write or an owner row that names a process of another instance |
| `Lifecycle.EpochRotated` | crates/gateway/src/process_lifecycle_recovery_actions.rs:64-98 | a rotation moves exactly its own instance to the rotated epoch |
| `Lifecycle.GatheredAgrees` | crates/gateway/src/process_lifecycle.rs:57-74 | the rebuilt epochs equal max(1, largest authority epoch in the durable records) |
| `NativeLog.StartedAtMostOnce` | crates/gateway/src/process_native_port.rs:85-131 | the controller is asked to start at most once per generation key, over duplicate calls, lost acknowledgments, lost commits and reopens |
| `NativeLog.StartsFollowDispatch` | crates/gateway/src/process_native_port.rs:110-124 | a start is issued only once `dispatched` is durable for that unit, and it stays so |
| `NativeLog.OneOpenRecordPerNamespace` | crates/gateway/src/process_native_store.rs:126-193 | at most one record per user-data namespace is not absent |
| `NativeLog.OneLiveUnitPerNamespace` | crates/gateway/src/process_native_observation.rs:22-61 | if units have members only after a start, and units once seen ended and empty stay empty, at most one unit per namespace ever has live members |
| `NativeLog.AbsentMeansVacated` | crates/gateway/src/process_native_observation.rs:29-60 | a record is absent only after its unit was observed ended and its control group empty |
| `NativeLog.RecordsGrow` | crates/gateway/src/process_native_store.rs:195-224 | records are never deleted; generation, handle, unit, boot, profile and digest are fixed; identity, invocation and group are write-once; flags only rise; every stored record names its own unit and handle, has an identity only with a known invocation, and is absent or stopping only once dispatched |
| `NativeLog.LegalKeepsInvariant` | crates/gateway/src/process_native_store_codec.rs:6-38 | every history keeps records well formed, handles and units distinct, namespaces exclusive and capacity |
| `Native.GenerationRegistry.Reserve` | crates/gateway/src/process_native_store.rs:126-193 | returns the kept record of a key unchanged, or stores a new record in which nothing has happened yet, with a fresh handle and unit; refused exactly by a lost or unacknowledged commit, a full registry or an open record of the namespace |
| `Native.GenerationRegistry.Save` | crates/gateway/src/process_native_store.rs:195-224 | refused exactly by its guards or a lost or unacknowledged commit; never partly stored |
| `Native.GenerationRegistry.ByHandle` | crates/gateway/src/process_native_store.rs:111-124 | the stored record with that handle; refused exactly by the database or when no record has it |
| `Native.GenerationRegistry.Reopen` | crates/gateway/src/process_native_store.rs:25-92 | reopening is refused only by the database: every stored record decodes, units are distinct, capacity fits |
| `Native.NativeProcessPort.CheckedRecord` | crates/gateway/src/process_native_port.rs:38-44 | a record is usable exactly in its boot and under its binding |
| `Native.NativeProcessPort.Observe` | crates/gateway/src/process_native_observation.rs:6-62 | returns exactly the members of the controller answer it noted, none for a missing unit; the record is absent exactly if it was or its group was found empty; an unknown identity becomes that of the first member with the main pid; refused exactly if the record is unusable, the controller failed or contradicts the record, or a write failed |
| `Native.NativeProcessPort.BindObservation` | crates/gateway/src/process_native_observation.rs:64-130 | succeeds exactly if the answer fits what is known, the binding and the member bound; fills in invocation, group and, if unknown, the identity of the first member with the main pid, and nothing else |
| `Native.NativeProcessPort.NoteMissing` | crates/gateway/src/process_native_observation.rs:29-40 | a missing unit becomes absent exactly if its known control group was found empty; otherwise refused |
| `Native.NativeProcessPort.NotePresent` | crates/gateway/src/process_native_observation.rs:41-60 | a present unit becomes absent only when ended, without members and with its group found empty; members of an absent unit are refused |
| `Native.NativeProcessPort.StartGeneration` | crates/gateway/src/process_native_port.rs:85-131 | a generation not stored yet is reserved, dispatched and started exactly then, a stored one never started again; success means it is durable, dispatched and bound to the returned matching identity, and for a new one that the start succeeded; an error without a start call means a failed host or database, an invalid request or an inadmissible generation |
| `Native.NativeProcessPort.Recovered` | crates/gateway/src/process_native_port.rs:63-77 | found exactly if the stored record ends with an identity, which matches instance and profile; no start or stop |
| `Native.NativeProcessPort.RecoverGeneration` | crates/gateway/src/process_native_port.rs:133-150 | found exactly if the stored record of this generation ends with an identity; nothing is started or stopped; errors name their cause |
| `Native.NativeProcessPort.Current` | crates/gateway/src/process_native_port.rs:46-61 | the record of the handle, brought up to date, and exactly the members the controller reported; refused exactly for an unknown handle, an unidentified or unusable record, a contradicting answer or a failed write |
| `Native.NativeProcessPort.InspectIdentity` | crates/gateway/src/process_native_port.rs:152-160 | the durable identity of the handle after one observation; errors as for the observation |
| `Native.NativeProcessPort.Inspect` | crates/gateway/src/process_native_port.rs:162-176 | Running exactly if the stored pid and birth are among the members of the controller answer just noted; Exited exactly if they are not and either members were reported or absence is durable; no members without absence is refused |
| `Native.NativeProcessPort.Descendants` | crates/gateway/src/process_native_port.rs:178-200 | lists exactly the members of the controller answer other than the main pid, in order, each inside the profile of the record |
| `Native.NativeProcessPort.Stop` | crates/gateway/src/process_native_port.rs:202-223 | success means absence is durable, found so at the first look or after a stop call in this mode succeeded; an error means a failed write, an unusable record, a failed or contradicting observation, or a stop call that was made |
| `RecoveryTheorems.GenerationsRise` | crates/gateway/src/recovery_store_authority.rs:65-88 | every boot or rekey strictly increases the authority generation; nothing lowers it |
| `RecoveryTheorems.BootsLeaveNothingInFlight` | crates/gateway/src/recovery_store_authority.rs:90-167 | right after every boot or rekey of a history each unresolved operation is UNKNOWN with AuthorityRotated at the boot time and its intent, each resolved one, the archive, tickets and claims are as they were, no operation is recorded, dispatched or accepted, no lease is active and no host state live |
| `RecoveryTheorems.EarlierProofsChangeNothing` | crates/gateway/src/recovery_store_lease.rs:140-195 | a change under a lease proof happens only while the proof generation is current: after a boot or rekey no earlier proof changes any row |
| `RecoveryTheorems.EarlierLeasesAreFrozen` | crates/gateway/src/recovery_store_rekey.rs:36-66 | the row of a lease of an earlier generation never changes again, by any call |
| `RecoveryTheorems.LeasesEvolve` | crates/gateway/src/recovery_store_lease.rs:55-80 | leases are never deleted, deadlines never move back for any clock inputs, ended leases stay ended, HOST_REVOKED and RESTART_INVALIDATED are never left |
| `RecoveryTheorems.ActiveLeaseIsUniqueAndNewest` | crates/gateway/src/recovery_store_authority_lease.rs:42-114 | at most one lease is ACTIVE; it matches the READY authority and has the largest epoch ever issued |
| `RecoveryTheorems.TicketsOnlyAdvance` | crates/gateway/src/recovery_store_ticket_helpers.rs:23-65 | tickets are never deleted or altered, states only advance, terminal ones are final |
| `RecoveryTheorems.VouchedTicketsNeverOutliveTheirLease` | crates/gateway/src/recovery_store_tickets.rs:51-60 | a ticket created by issue, or imported under the current fence, never outlives its lease in any reachable state |
| `RecoveryTheorems.LeaseIsClaimedByOneOperation` | crates/gateway/src/recovery_store_continuation_owner.rs:119-187 | two operations that claimed the same lease, at whatever points, are the same operation |
| `RecoveryTheorems.ClaimsPersist` | crates/gateway/src/recovery_store_continuation_owner.rs:262-297 | claims are never changed or deleted |
| `RecoveryLedger.OperationsOnlyAdvance` | crates/gateway/src/recovery_store_operation_helpers.rs:80-142 | a retained operation never loses rank and never reopens a terminal state, boot rotation included; it leaves only by being purged |
| `RecoveryLedger.IdsAreReusedOnlyWhenForgotten` | crates/gateway/src/recovery_store_archive.rs:66-75 | an operation id is accepted again only after a purge at least two retention periods after its last recorded update |
| `RecoveryLedger.DispatchedAtMostOnce` | crates/gateway/src/recovery_store_operations.rs:106-142 | marking dispatched succeeds at most once while the operation is retained |
| `RecoveryLedger.LedgerIsSound` | crates/gateway/src/recovery_store_operations.rs:37-77 | uncertainty exactly on UNKNOWN, a bound later-generation witness on SETTLED and RECONCILED, one unresolved operation per incarnation, both capacities, disjoint tables |
| `RecoveryLedger.RenewSequenceNeverDecreases` | crates/gateway/src/recovery_store_host_lease_renew.rs:63-94 | with renewal clocks that never run backwards the renew sequence never decreases, however local and host renewals interleave |
| `RecoveryLedger.RenewSequenceDropsExactlyWhenOvertaken` | crates/gateway/src/recovery_store_host_lease_renew.rs:176-212 | whatever the clocks, completing a host renewal lowers the renew sequence exactly if a local renewal with a larger sequence was accepted since it was prepared; every renewal accepted in between carried an earlier clock reading than the preparation |
| `RecoveryLedger.OnlyCompletionLowersSequence` | crates/gateway/src/recovery_store_host_lease_renew.rs:103-216 | no step but the completion of a host renewal can lower a renew sequence |
| `RecoveryWitnesses.BackwardClockLowersRenewSequence` | crates/gateway/src/recovery_store_host_lease_renew.rs:176-212 | a concrete history with a backward clock in which the sequence drops from 2 to 1 while the deadline still advances |
| `RecoveryWitnesses.HistoricalTicketMayOutliveItsLease` | crates/gateway/src/recovery_store_ticket_helpers.rs:106-184 | a concrete history in which a live operation has a historical ticket that outlives its lease |
| `RecoveryLog.StepKeepsInvariant` | crates/gateway/src/recovery_store_authority.rs:65-167 | every permitted change keeps the joint invariant of the six tables |
| `RecoveryLog.LegalKeepsInvariant` | crates/gateway/src/recovery_store.rs:186-216 | every history from an empty store satisfies that invariant |
| `RecoveryLog.ShelvingConserves` | crates/gateway/src/recovery_store_archive.rs:13-62 | archiving changes no lookup and conserves the retained total |
| `RecoveryLog.StepKeepsCapacity` | crates/gateway/src/recovery_store_operations.rs:57-77 | no change exceeds the unresolved or retained capacity |
| `RecoveryStore.GatewayRecoveryStore.StartBoot` | crates/gateway/src/recovery_store_authority.rs:30-167 | one transaction: next generation, unfenced; every active lease revoked and live host state invalidated, every unresolved operation UNKNOWN with AuthorityRotated at the boot time and its intent kept, every other row unchanged; refused exactly for the named causes |
| `RecoveryStore.GatewayRecoveryStore.RekeyNamespace` | crates/gateway/src/recovery_store_rekey.rs:14-102 | as a boot, row by row, with a new deployment namespace; refused exactly for the named causes |
| `RecoveryStore.GatewayRecoveryStore.CompleteHostFence` | crates/gateway/src/recovery_store_authority.rs:182-230 | fences exactly the presented, still unfenced boot, with this mark and time; refused exactly for any other |
| `RecoveryStore.GatewayRecoveryStore.EnsureContext` | crates/gateway/src/recovery_store_lease.rs:140-195 | succeeds exactly for an unexpired active lease with this token and identity under the current fenced boot |
| `RecoveryStore.GatewayRecoveryStore.AcquireLease` | crates/gateway/src/recovery_store_authority_lease.rs:12-130 | issues the only active lease, with exactly the requested fields and one more than the largest epoch ever issued; due leases stay expired even if the request is refused; refused exactly for the named causes |
| `RecoveryStore.GatewayRecoveryStore.RenewLease` | crates/gateway/src/recovery_store_lease.rs:10-87 | moves the deadline to the later of itself and now plus the period, and the sequence, exactly when permitted; lapses a lease found overdue; an outdated proof changes nothing |
| `RecoveryStore.GatewayRecoveryStore.RevokeLease` | crates/gateway/src/recovery_store_lease.rs:89-112 | revokes exactly the presented active lease, for the stated reason; refused exactly for any other |
| `RecoveryStore.GatewayRecoveryStore.ExpireLeases` | crates/gateway/src/recovery_store_lease.rs:117-126 | ends exactly the overdue active leases and changes no other row |
| `RecoveryStore.GatewayRecoveryStore.PrepareHostInstall` | crates/gateway/src/recovery_store_host_lease.rs:84-224 | records the installation identity once, with every other host field reset, or replays it; refused exactly for the named causes |
| `RecoveryStore.GatewayRecoveryStore.SetGrantDigest` | crates/gateway/src/recovery_store_host_lease.rs:228-250 | changes only the digest of a pending installation; refused exactly for any other |
| `RecoveryStore.GatewayRecoveryStore.CompleteHostAck` | crates/gateway/src/recovery_store_host_lease_ack.rs:30-134 | commits the acknowledged install or revoke once, or replays it; refused exactly for the named causes |
| `RecoveryStore.GatewayRecoveryStore.PrepareHostRenew` | crates/gateway/src/recovery_store_host_lease_renew.rs:18-100 | records the pending renewal without moving the deadline, or replays it; refused exactly for the named causes |
| `RecoveryStore.GatewayRecoveryStore.CompleteHostRenew` | crates/gateway/src/recovery_store_host_lease_renew.rs:103-216 | moves deadline, sequence and host state in one step, or replays it; refused exactly for the named causes |
| `RecoveryStore.GatewayRecoveryStore.BeginHostRevoke` | crates/gateway/src/recovery_store_host_lease_revoke.rs:15-55 | disables the lease and leaves the host revoke pending, or replays it; refused exactly for the named causes |
| `RecoveryStore.GatewayRecoveryStore.InvalidateHosts` | crates/gateway/src/recovery_store_host_lease_revoke.rs:78-87 | every pending or installed host state becomes invalidated, row by row, and nothing else changes |
| `RecoveryStore.GatewayRecoveryStore.RecordIntent` | crates/gateway/src/recovery_store_operations.rs:17-104 | stores exactly the new intent; the same intent again is answered, not stored; refused exactly for the named causes: clock-independent mismatch, no live context, an unresolved operation of the incarnation, or no room |
| `RecoveryStore.GatewayRecoveryStore.MarkDispatched` | crates/gateway/src/recovery_store_operations.rs:106-142 | moves one intent of the presenting lease to dispatched and changes nothing else; refused exactly for the named causes |
| `RecoveryStore.GatewayRecoveryStore.RecordOutcome` | crates/gateway/src/recovery_store_operations.rs:145-213 | writes exactly state, status, body, evidence, uncertainty and time of one operation and keeps its intent; refused exactly for an invalid transition, malformed outcome, evidence that does not attest the intent or the fence of its ticket, or a missing operation |
| `RecoveryStore.GatewayRecoveryStore.LookupOperation` | crates/gateway/src/recovery_store_operations.rs:215-230 | active table first, then archive; none exactly if neither has it; a different payload is a conflict |
| `RecoveryStore.GatewayRecoveryStore.ReconcileOperation` | crates/gateway/src/recovery_store_operations.rs:232-271 | reconciles by exactly this evidence and keeps status and body, or answers an operation reconciled by it before; refused exactly for the named causes |
| `RecoveryStore.GatewayRecoveryStore.ArchiveResolved` | crates/gateway/src/recovery_store_archive.rs:13-62 | moves exactly the settled, rejected and reconciled rows not updated since the cutoff, with the archiving time; no lookup changes and the total is conserved; refused exactly for a cutoff less than a day old |
| `RecoveryStore.GatewayRecoveryStore.PurgeArchives` | crates/gateway/src/recovery_store_archive.rs:66-75 | deletes exactly the archived rows at least a day old and changes no other |
| `RecoveryStore.GatewayRecoveryStore.IssueTicket` | crates/gateway/src/recovery_store_tickets.rs:20-116 | creates at most one ticket per operation, with exactly these fields and within the lease deadline; the returned ticket ends within the lease exactly if no stored ticket of the operation exceeds it; refused exactly for the named causes |
| `RecoveryStore.GatewayRecoveryStore.RecordHistoricalTicket` | crates/gateway/src/recovery_store_ticket_helpers.rs:106-184 | stores the ticket of an earlier operation or advances its state and nothing else; refused exactly if it does not describe the operation or clashes with a stored ticket |
| `RecoveryStore.GatewayRecoveryStore.RecordHostTicket` | crates/gateway/src/recovery_store_ticket_helpers.rs:189-301 | stores or advances a ticket issued under the presented live lease and fence that ends within the lease; refused exactly for any other, or if it contradicts the end of its operation |
| `RecoveryStore.GatewayRecoveryStore.CheckTicket` | crates/gateway/src/recovery_store_tickets.rs:156-210 | succeeds exactly for a usable ticket: open, unexpired, under the current fence, in context and fitting its operation |
| `RecoveryStore.GatewayRecoveryStore.TransitionTicket` | crates/gateway/src/recovery_store_tickets.rs:212-281 | changes only the state of a usable ticket, by a valid transition that does not contradict a resolved operation, and refuses exactly the others |
| `RecoveryStore.GatewayRecoveryStore.ExpireTickets` | crates/gateway/src/recovery_store_tickets.rs:286-299 | moves exactly the overdue open tickets to unknown, row by row, and changes no other |
| `RecoveryStore.GatewayRecoveryStore.CurrentOwner` | crates/gateway/src/recovery_store_continuation_owner_snapshot.rs:11-141 | Available exactly when an ACTIVE, unexpired, INSTALLED lease of the session exists, although only the highest-epoch lease is read; every other answer is the one that lease determines |
| `RecoveryStore.GatewayRecoveryStore.ClaimOwner` | crates/gateway/src/recovery_store_continuation_owner.rs:119-187 | binds exactly the live owner to one operation for good; refused exactly for another owner, another claim of the operation or the lease, or 4,096 claims |
| `RecoveryStore.GatewayRecoveryStore.AdoptOwner` | crates/gateway/src/recovery_store_continuation_owner.rs:55-114 | adopts exactly a live owner this operation claimed, with the current fence; refused for any other |
| `CanonicalAction.Canonicalize` | crates/gateway/src/recovery_canonical.rs:10-39 | accepts a byte string exactly when it is, within 65,536 bytes, the literal spelling of one of the seventeen moves, with sorted keys and identities of 1 to 512 bytes of the allowed set, and returns it unchanged; a contract mismatch means the members of a legal action in another order |
| `CanonicalAction.PrintedExactlySpelled` | crates/gateway/src/recovery_canonical.rs:41-93 | the printed legal actions are exactly the literal spellings of the moves |
| `CanonicalAction.PrintIsInjective` | crates/gateway/src/recovery_canonical.rs:30-38 | two legal actions print alike exactly when they are equal |
| `CanonicalAction.AcceptedExactlyLegal` | crates/gateway/src/recovery_canonical.rs:41-93 | an ordered document passes the closed validator exactly when it is that of a legal action |
| `CanonicalAction.PrintIsRendered` | crates/gateway/src/recovery_canonical.rs:30-38 | the printed form is the sorted-key rendering of the action document |
| `CanonicalAction.ValuesAreInOrder` | crates/gateway/src/recovery_canonical.rs:27-38 | parsed values keep their members in strictly increasing key order |
| `CanonicalAction.InOrderDenotesItself` | crates/gateway/src/recovery_canonical.rs:27-38 | a document already in order denotes itself |
| `CanonicalScanner.Accepts` | crates/gateway/src/recovery_canonical.rs:23-27 | the scanner consumes the whole input exactly when it is the rendering of a well-formed document: no whitespace, escapes, numbers, arrays or repeated keys |
| `CanonicalScanner.Scanner.ScanValue` | crates/gateway/src/recovery_canonical.rs:158-169 | moves past a value exactly when one starts here |
| `CanonicalScanner.Scanner.ScanObject` | crates/gateway/src/recovery_canonical.rs:171-189 | moves past an object exactly when one with distinct keys starts here |
| `CanonicalScanner.Scanner.ScanString` | crates/gateway/src/recovery_canonical.rs:191-208 | returns the text exactly when an escape-free, control-free string starts here |
| `CanonicalScanner.Scanner.ScanLiteral` | crates/gateway/src/recovery_canonical.rs:210-220 | moves past the word exactly when it stands here |
| `CanonicalJson.ReadsDoc` | crates/gateway/src/recovery_canonical.rs:158-208 | every well-formed document is read back from its rendering, whatever follows |
| `CanonicalJson.DocWasWritten` | crates/gateway/src/recovery_canonical.rs:158-208 | whatever is read was rendered there from a well-formed document |
| `CanonicalJson.RenderIsInjective` | crates/gateway/src/recovery_canonical.rs:30-38 | no two well-formed documents render alike |
| `ControlPlane.DeadInstancesStayDead` | crates/gateway/src/control.rs:153-223 | once an instance is terminal or removed no later point of the run has a lease for its id |
| `ControlPlane.ShutdownIsFinal` | crates/gateway/src/maintenance.rs:34-73 | once admission is closed and every record terminal, that never changes |
| `ControlPlane.StoppedHandlesAreReleased` | crates/gateway/src/control.rs:190-223 | a handle that was stopped is never held by a record again |
| `ControlPlane.RunEvolves` | crates/gateway/src/control.rs:18-62 | ids are never reused, started and stopped handles only accumulate, closed admission stays closed |
| `ControlPlane.HandleStopped` | crates/gateway/src/maintenance.rs:82-110 | stopping a handle keeps every started handle held by exactly one record or stopped |
| `ControlPlane.LaunchKeeps` | crates/gateway/src/control.rs:38-61 | an allocation keeps handles conserved, leases exactly on non-terminal records, and capacity |
| `ControlPlane.EvaluateFence` | crates/gateway/src/identity.rs:224-252 | accepts exactly the proof of the unexpired current lease of the target; expired, missing and wrong-instance refusals exactly then |
| `ControlPlane.Gateway.Allocate` | crates/gateway/src/control.rs:18-62 | refused exactly for closed admission, capacity or used-up ids, without a call; otherwise one clock reading and one start: a failed start keeps nothing, a successful one keeps a Starting record with its handle and a lease of epoch 1 for one period, saturating |
| `ControlPlane.Gateway.ValidateFence` | crates/gateway/src/fencing.rs:13-28 | one clock reading decides: exactly the proof of an unexpired lease passes, an overdue lease ends the instance by force, any other refusal changes nothing |
| `ControlPlane.Gateway.StopAndMark` | crates/gateway/src/maintenance.rs:82-110 | one stop in this mode exactly if a process is held; a stopped process leaves its record, a failed stop keeps the handle on a failed record, the lease ends in both |
| `ControlPlane.Gateway.Reconcile` | crates/gateway/src/control.rs:71-134 | case by case of what was seen: overdue ends Expired, or Failed if the stop fails; no process or an exited one ends Failed without a lease and is an error; a failed inspection or probe ends Degraded and is an error; starting, ready and degraded give exactly that state; a dead or unknown instance is not touched |
| `ControlPlane.Gateway.Renew` | crates/gateway/src/control.rs:136-151 | exactly a passed proof moves the deadline, and nothing else, to one period after the second clock reading, saturating |
| `ControlPlane.Gateway.Release` | crates/gateway/src/control.rs:153-188 | exactly a passed proof ends the instance with a graceful stop; a failed stop keeps the handle on a failed record and is an error |
| `ControlPlane.Gateway.Cleanup` | crates/gateway/src/control.rs:190-223 | removes exactly a terminal record of this caller and session, after a forced stop of what it still holds; a failed stop keeps it failed |
| `ControlPlane.Gateway.Forward` | crates/gateway/src/forwarding.rs:17-81 | a body over the bound is refused without a call; a passed proof of a ready or busy instance is sent once, and the response decides: within the bound ready and returned, too large or failed degraded and an error |
| `ControlPlane.Gateway.ExpireDue` | crates/gateway/src/maintenance.rs:13-32 | one clock reading; exactly the instances with an overdue lease are ended by force, each reported once with whether it expired; every other record is as it was |
| `ControlPlane.Gateway.Shutdown` | crates/gateway/src/maintenance.rs:34-73 | admission is closed and every record that had something to end is ended with a graceful stop, every other left as it was; the counters are the records that had something to end and those whose process would not stop |
| `Masking.Strip` | tools/repo-policy/src/rust_text.rs:10-84 | for valid UTF-8 the text is read as tokens, each described by its own bytes, that cover it; exactly the bytes of comments, and of literals on request, are blanked except newlines, and every other byte is kept; same length, valid UTF-8, the empty fallback never taken |
| `Masking.TokenIsTheSpan` | tools/repo-policy/src/rust_text.rs:19-81 | the token scanned at a byte is exactly the one its first bytes describe: line and block comments before literals before raw strings before code, each with its own end |
| `Masking.RawIsSpan` | tools/repo-policy/src/rust_text.rs:121-144 | a raw string ends after the first quote followed by as many hashes as opened it, and nowhere else |
| `Masking.CharEndIsSpan` | tools/repo-policy/src/rust_text.rs:89-117 | a character literal ends at its first quote within its window, and a lifetime at its own quote, and nowhere else |
| `Masking.BlockIsSpan` | tools/repo-policy/src/rust_text.rs:28-46 | a block comment ends at the first point where openings and closings balance, or with the text, and nowhere else |
| `Masking.StringIsSpan` | tools/repo-policy/src/rust_text.rs:47-64 | a string ends after its first unescaped quote, before its first unescaped newline, or with the text, and nowhere else |
| `Masking.MaskedByReading` | tools/repo-policy/src/rust_text.rs:10-84 | masking reads the text as such tokens and blanks exactly the bytes of the hidden ones |
| `Masking.MaskedIsUtf8` | tools/repo-policy/src/rust_text.rs:83-83 | masking preserves UTF-8 validity |
| `Masking.MaskingKeepsPositions` | tools/repo-policy/src/rust_text.rs:10-84 | each byte is unchanged or a space, newlines stay exactly in place |
| `Masking.ModesAlign` | tools/repo-policy/src/rust_source.rs:40-43 | byte by byte: a comment is blanked in both modes, code kept in both, a literal kept by the comment mode and blanked by the other, so indices align |
| `Masking.MaskingIsIdempotent` | tools/repo-policy/src/rust_text.rs:10-84 | the string-blanking mode is idempotent |
| `Masking.BlankLine` | tools/repo-policy/src/rust_text.rs:23-27 | a line comment is blanked up to its newline |
| `Masking.BlankBlock` | tools/repo-policy/src/rust_text.rs:28-46 | a block comment is blanked to the first point where its openings and closings balance, or to the end |
| `Masking.MaskString` | tools/repo-policy/src/rust_text.rs:47-64 | a string literal is masked to just after its first unescaped quote, before its first unescaped newline, or to the end; escaped means after an odd run of backslashes |
| `Masking.CharLiteralEnd` | tools/repo-policy/src/rust_text.rs:89-117 | the first quote that closes a character literal within its window, on the same line unless escaped; the opening one if there is none |
| `Masking.RawString` | tools/repo-policy/src/rust_text.rs:121-144 | the end after the first quote followed by as many hashes as opened the raw string, or none exactly if there is no such end |

## Left out

- File locks, permissions, symbolic-link checks, SQLite pragmas, migrations, backup and restore files, systemd command lines, `/proc` and control-group reading: input and output, represented by nondeterministic answers.
- Formats of UUIDs, tokens, digests and identities in the recovery store, and the approved schema digest: a format check may refuse any call; what it compares is not modelled. Intent validation against the RCJ-1 codec is such a check in the store; the codec itself is modelled separately.
- UUID generation, base64 and SHA-256: fresh values and equality of the hashed values.
- Legacy lifecycle records without a sequence: runs start from an empty store, so every record has one; the ordering functions still treat sequence zero as the code does.
- Changing the configuration or the approved profiles between openings of one lifecycle journal.
- `process_lifecycle_namespace.rs`: the namespace guard of launch and restart is a nondeterministic refusal.
- The external lease fence of the lifecycle coordinator: its decision is arbitrary. The control plane uses the default policy `evaluate_fence`.
- "A live process always implies an occupied instance" and "at most one start per generation key for a restart" at coordinator level: neither holds of the code; the second is proved at registry level.
- `Native.GenerationRegistry.Save`: the 16,384-byte bound on an encoded record counts as a database failure.
- `RecoveryLedger.RenewSequenceNeverDecreases`: for renewal clocks that never run backwards; without that it is false, as shown by the witness.
- `RecoveryTheorems.VouchedTicketsNeverOutliveTheirLease`: about tickets created by issue or imported under the current fence; historical imports are not compared with a lease by the code.
- The boot states BLOCKED and REVOKED, which no store method writes, and the acknowledgment kind Renew, which no caller passes to `complete_host_ack`.
- The nesting limits of the JSON library and of the scanner's own recursion: a legal action has depth two.
- The process port of the control plane hands out each handle once; a port that repeats handles is not modelled.
- `coop_session.rs`, `process_supervisor*.rs`, `process_adapter.rs`, configuration and error types: little state, mostly single-branch facts.
- Artifact verifiers, runtime-v2 fragments, and the repository-policy checks other than masking: constants and file-system walks.
- Refusal codes of the recovery store and of the native port: contracts state exactly when a call is refused; with which code is stated only where a caller depends on it.
