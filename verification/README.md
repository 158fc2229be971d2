# Verified model of the CPO server's shared-state logic

The server runs in several processes over one MongoDB. It coordinates them with lease locks,
status fields, backups and caches rather than with transactions. This project models that
logic in Dafny and proves what it guarantees, over every interleaving, every point at which a
process may stop and every input. Where the code misses its evident intent, the project proves
exactly when it meets it, or gives a run that misses it.

`dafny verify dfyconfig.toml` checks everything.

| file | models |
|---|---|
| `Prelude.dfy`, `Text.dfy`, `Json.dfy`, `Runs.dfy` | options and results; strings, split and join; JSON trees and paths; runs over a step relation |
| `LockProtocol.dfy`, `LockWitnesses.dfy`, `LockingManager.dfy` | the lease lock as steps of any number of sessions, runs that break each side condition, and the methods of the manager over those steps |
| `TimedLocks.dfy`, `StaleLocks.dfy` | the same steps against the clock: the latest insert after `createLock`, and exactly when a lock is stale by then |
| `Billing.dfy`, `BillingWitnesses.dfy`, `BillingUnderLock.dfy`, `BillTransactionAsyncTask.dfy` | the lock plus status guard around billing a transaction |
| `AsyncTaskManager.dfy`, `SweepOverlap.dfy`, `SweepRuns.dfy`, `SweepWitnesses.dfy` | a sweep over the pending tasks with bounded concurrency and the chain of sweeps; sweeps that overlap as one system with the lock, exactly when a task can be run once more, and runs that surprise |
| `CipherText.dfy`, `SensitiveData.dfy`, `KeyMigration.dfy`, `SealedByKey.dfy`, `PlaintextLost.dfy` | the text iv:data:tag, coding the listed properties in place, the resumable key migration, a cipher that meets all its assumptions, and one under which a resumed run loses the plaintext |
| `AuthorizationsManager.dfy` | the condition that fills the caller's context, and the cache that keeps those contexts |
| `RoamingUtils.dfy` | EVSE identifiers: builder, normal form, parser, grouping of connectors |
| `RemoteAuthorizations.dfy` | the in-place purge and search of remote authorizations |
| `Logging.dfy` | the recursive anonymiser, query strings included |
| `EmaidsImportAsyncTask.dfy`, `ImportHelper.dfy` | draining imported records; importing a tag and making it the default one |
| `MigrationHandler.dfy`, `MigrationPasses.dfy` | which migration tasks run in which pass; passes of several servers as one system with the lock |

How the pieces fit: methods follow the code statement by statement, and their `ensures` tie the
new state to a step function or a specification function. `Do` in the lock and billing classes
appends to a ghost history that is a run of the protocol, so `MutualExclusionOverRuns` and
`BilledAtMostOnceOverRuns` speak about what those methods do. Store calls, log calls and
other sessions are nondeterministic steps between the statements.

## What the proofs found

- **Three side conditions, not two.** Mutual exclusion of the lease lock needs (a) that a
  holder releases before its lease ends and (b) that no two sessions break the same expired
  lock at once, and also (c) that a lock read as live does not expire before its date is
  compared: the comparison uses a later clock than the read. Each of the three has a run without it
  that ends with two holders.
- **Exactly when a lock is stale as it is inserted.** The lease counts from `createLock`, so a
  lock can go in after its expiration if and only if it has a validity and that is shorter than
  the latest insert, a function of timeout and latency. Without latency that is a validity below
  twice the timeout less one second. The charging station lock (5 s, wait 10 s) can be stale at any
  latency, the site area lock (180 s, 5 s) only above a latency of 21.125 s, the bill user
  lock (600 s, 60 s) only above 59.875 s. The run for (a) is made of charging station locks
  that poll every second without latency; nobody in it holds for more than 5 s.
- **A key migration that stops while it drops the backups is not safe to resume.** A setting
  that has lost its backup is taken for one still under the former key. The next run completes
  exactly when the former key reads all of these, and then the plaintexts survive exactly when
  it reads in them what the new key reads. With a former key that never opens what the new one
  seals, as authenticated modes see to, the run only fails (unless there is nothing to
  decrypt). With a former mode without authentication it can complete, re-encrypt garbage and
  clear the flag: `LosePlaintext` is such a run.
- **Exactly when a task can run again, whatever its status.** Sweeps that overlap work on
  snapshots, so a task can run again after it has succeeded. While no server is started, some
  continuation runs it once more if and only if it is pending (or yet to be created), a handling
  of it is fetched or holds the lock without having begun, or one is still in `acquire` and not
  past hope there. Starting a server adds exactly the RUNNING tasks. Without a restart each run
  has its own handling that fetched the task before its first run.
- **A task runs twice at once if it outlasts its lease.** The task lock is a lease of 15 minutes
  that nothing renews. Careful locks keep handlings of one task apart; a run of 900.001 s, fetched
  by two sweeps, is broken into by the second, and both are in `run`. The same holds for
  migration passes and their lease of an hour: what was recorded is never run again as long as
  the locks are careful and no list names a migration twice.
- **Task name EMAIDS_IMPORT spins.** It is a member of the enumeration, but `createTask` has no
  case for it, so a pending task of that name triggers sweeps forever. `ImportHelper` has no
  `processImportedEmaid` either, so the drain of eMAIDs turns every record into an error.
- **Negative connector ids fall together in `buildEvseID`** (the sign is swallowed by the
  normal form) though not in `buildEvseUID`. An empty country code survives the EVSE round
  trip, an empty party id does not.
- **The authorization key confuses requests** with an empty role, a ',' in a role, or a '~' in
  two kinds of field; in one kind alone it does no harm, as a context's JSON begins with '{'. Calling again with a context object that the cache keeps leaves the cache right
  exactly if evaluation leaves that context as it is: no condition is called, or each of
  filters, asserts and metadata is there and already set or not supplied.
- **Imports of eMSP tags have no guards**: an assigned, active tag of the same id is overwritten.
- **Migration ids joined with '~' can clash**; the task that comes second runs in every pass.
- **A remote authorization is not consumed**: until it expires every call for the badge finds it.

## Model

| member | source | states |
|---|---|---|
| `LockProtocol.ActionKeepsInv` | cpo-server/src/locking/LockingManager.ts:17-180 | each store operation of `acquire` and `release`, by any session, keeps: a holder's own document is the stored one, and a lock being broken is stored and has no holder |
| `LockProtocol.MutualExclusionOverRuns` | cpo-server/src/locking/LockingManager.ts:48-51 | at every point of every run under (a), (b), (c) at most one session holds a lock id, whatever documents crashed processes left behind |
| `LockWitnesses.StaleInsert` | cpo-server/src/locking/LockingHelper.ts:218-225 | in a run without latency, each waiting session polling every second and the holder releasing in time, a charging station lock goes in a second after its expiration and its acquire returns true |
| `LockWitnesses.WithoutLiveLeases` | cpo-server/src/locking/LockingManager.ts:124-144 | that run goes on, polling every second, and keeps (b) and (c) all the way to two holders |
| `LockWitnesses.WithoutOneBreaker` | cpo-server/src/locking/LockingManager.ts:151-158 | two contenders on a crashed holder's expired lock reach two holders, keeping (a) and (c) |
| `LockWitnesses.WithoutPromptChecks` | cpo-server/src/locking/LockingManager.ts:153-155 | with 200 ms between reading a live lock and comparing its date a run reaches two holders, keeping (a) and (b) |
| `TimedLocks.MoveKeepsAged` | cpo-server/src/locking/LockingManager.ts:17-180 | each step of `acquire`, made in time, keeps the age of the lock within the bound for where the session is |
| `TimedLocks.TimedInvOverRuns` | cpo-server/src/locking/LockingManager.ts:132-149 | over every timed run, with any sessions and any stored documents, every session is within these bounds |
| `TimedLocks.LatestInsertIs` | cpo-server/src/locking/LockingManager.ts:134-144 | the latest insert in closed form: 7 latencies without a timeout, else 1000 + 8 latencies + twice the last poll of a round |
| `StaleLocks.InsertsLate` | cpo-server/src/locking/LockingManager.ts:17-63 | for any validity, timeout and latency a timed run of two rounds, refused by stored locks alone, inserts at exactly that time |
| `StaleLocks.StaleIffLate` | cpo-server/src/locking/LockingManager.ts:124-127 | for all validities, timeouts and latencies: a timed run can insert a lock that has expired if and only if the validity is positive (else there is no expiration) and shorter than the latest insert |
| `StaleLocks.StaleWithoutLatency` | cpo-server/src/locking/LockingManager.ts:124-144 | without latency: if and only if the validity is positive and below twice the timeout less one second |
| `StaleLocks.ChargingStationLockGoesStale` | cpo-server/src/locking/LockingHelper.ts:218-225 | it can be stale at every latency |
| `StaleLocks.SiteAreaLockGoesStale` | cpo-server/src/locking/LockingHelper.ts:35-41 | it can be stale if and only if the latency is above 21.125 s |
| `StaleLocks.BillUserLockGoesStale` | cpo-server/src/locking/LockingHelper.ts:203-216 | it can be stale if and only if the latency is above 59.875 s |
| `LockingManager.SameLockIffSameFields` | cpo-server/src/locking/LockingManager.ts:114-123 | for an injective hash and no '~' in tenant, entity and type, two locks have one id if and only if tenant, entity, lower-cased key and type agree |
| `LockingManager.TildeInTenantConfusesLocks` | cpo-server/src/locking/LockingManager.ts:116 | with a '~' in the tenant two different locks have one id, whatever the hash |
| `LockingManager.LockingManager.InsertLock` | cpo-server/src/locking/LockingManager.ts:137 | the insert stores this session's document where there was none and makes it the holder, or leaves it waiting; a call that throws may have stored the document all the same; no other document changes |
| `LockingManager.LockingManager.AcquireExclusiveLock` | cpo-server/src/locking/LockingManager.ts:132-149 | at least one and at most max(1, timeout) inserts; on success the insert came no later than the last poll plus one latency; on failure an insert was refused, the timeout has passed, and the call ends by the latest end of a round; with nobody else and no failing call it fails exactly if a document is stored |
| `LockingManager.LockingManager.CheckAndReleaseExpiredLock` | cpo-server/src/locking/LockingManager.ts:151-180 | true exactly after a delete of a lock read as expired, even if it found nothing, and the session is then before its second round; otherwise what was read is no expired lock or a call threw, and it is finished; with nobody else a lock expired at the call is released |
| `LockingManager.LockingManager.Acquire` | cpo-server/src/locking/LockingManager.ts:17-63 | terminates after at most two rounds; returns true exactly when this session is the holder; not acquired means that no expired lock was found or its delete threw, or that an insert of the second round, after the delete, was refused as well; with nobody else and no failing call it acquires a free lock and an expired one, and no other; bounds the time from the call to the insert |
| `LockingManager.LockingManager.AcquireNewLock` | cpo-server/src/locking/LockingManager.ts:89-130 | creates the lock with the hash of tenant, entity, lower-cased key and type and the expiration of its validity, and does nothing without one of the first three; the lease left when the document goes in is validity minus the elapsed wait, and at least validity minus the latest insert |
| `LockingManager.LockingManager.AcquireSiteAreaSmartChargingLock` | cpo-server/src/locking/LockingHelper.ts:35-41 | with latencies up to 21.125 s the lease has not run out at insertion, up to 21 s a second is left |
| `LockingManager.LockingManager.AcquireBillUserLock` | cpo-server/src/locking/LockingHelper.ts:203-216 | with latencies up to 59.875 s the lease has not run out at insertion, up to 50 s 79 s are left |
| `LockingManager.LockingManager.ReleaseLock` | cpo-server/src/locking/LockingManager.ts:65-87 | deletes the document of that id and no other without asking whose it is, and reports whether there was one |
| `LockingManager.AcquiredAlone` | cpo-server/src/locking/LockingManager.ts:17-47 | once `acquire` has returned true in a careful run no other session holds that lock |
| `Billing.ActionKeepsInv` | cpo-server/src/async-task/tasks/BillTransactionAsyncTask.ts:25-50 | every step of every execution keeps: billed at most once, and a billed transaction that still reads PENDING has its save under way |
| `Billing.GuardedUnbilled` | cpo-server/src/async-task/tasks/BillTransactionAsyncTask.ts:28-41 | an execution that has passed the guards is about to bill a transaction never billed before |
| `Billing.BilledAtMostOnceOverRuns` | cpo-server/src/async-task/tasks/BillTransactionAsyncTask.ts:25-50 | over any run with any number of re-executions, stale ones included, no transaction is billed successfully twice, given the user lock, one user per transaction, a conclusive status and an effective save |
| `BillingUnderLock.EventKeepsLinked` | cpo-server/src/async-task/tasks/BillTransactionAsyncTask.ts:25-49 | in the system of lock and billing together, an execution is in its critical section exactly while its session holds the lock of its user: by the insert, the release, and a crash of both |
| `BillingUnderLock.BilledAtMostOnceUnderLock` | cpo-server/src/async-task/tasks/BillTransactionAsyncTask.ts:25-50 | over every run of that system whose locks are careful, with other sessions and crashes beside, no transaction is billed successfully twice |
| `BillingUnderLock.UndisturbedBills` | cpo-server/src/async-task/tasks/BillTransactionAsyncTask.ts:25-50 | with the lock of the user free and the transaction billable, an execution that nothing disturbs bills it once, saves the returned status and frees the lock |
| `BillingWitnesses.WithoutEffectiveSave` | cpo-server/src/async-task/tasks/BillTransactionAsyncTask.ts:41-46 | a lost save, or a returned status PENDING, lets the next execution bill again |
| `BillingWitnesses.WithoutCommonLock` | cpo-server/src/async-task/tasks/BillTransactionAsyncTask.ts:23-26 | two tasks naming different users for one transaction, or a broken lock, bill it twice |
| `BillTransactionAsyncTask.BillTransactionAsyncTask.BillUnderLock` | cpo-server/src/async-task/tasks/BillTransactionAsyncTask.ts:27-50 | every path ends in `finally`; it bills only what it read under the lock as billing active and PENDING; a successful bill without a save failure was stored as active with the returned status; no bill means that what it read was missing, inactive or not PENDING, or that billing threw |
| `BillTransactionAsyncTask.BillTransactionAsyncTask.ExecuteAsyncTask` | cpo-server/src/async-task/tasks/BillTransactionAsyncTask.ts:15-59 | nothing happens without the billing component; otherwise the lock is left on every path, and what was billed was saved |
| `AsyncTaskManager.KeepsStore` | cpo-server/src/async-task/AsyncTaskManager.ts:86-151 | every step of every fetched task leaves the store in step with the phase each task is in, and other tasks alone |
| `AsyncTaskManager.KeepsFates` | cpo-server/src/async-task/AsyncTaskManager.ts:92-149 | every step keeps: a task that holds its lock was granted it, is in `catch` only if something threw, and on its way to success only if nothing did so far |
| `AsyncTaskManager.KeepsLocks` | cpo-server/src/async-task/AsyncTaskManager.ts:92-149 | exactly the tasks between acquiring and releasing hold their lock, and the refusal flag tells whether a lock was refused |
| `AsyncTaskManager.KeepsCounters` | cpo-server/src/async-task/AsyncTaskManager.ts:62-65 | the two counters are the numbers of tasks that ended each way so far |
| `AsyncTaskManager.KeepsBound` | cpo-server/src/async-task/AsyncTaskManager.ts:152 | at most the configured number of tasks is in flight |
| `AsyncTaskManager.AtMostInFlight` | cpo-server/src/async-task/AsyncTaskManager.ts:152 | in every sweep, at every point, no set of tasks begun and not done is larger than that |
| `AsyncTaskManager.AsyncTaskManager.Init` | cpo-server/src/async-task/AsyncTaskManager.ts:39 | tasks left RUNNING, and no others, become PENDING |
| `AsyncTaskManager.AsyncTaskManager.Advance` | cpo-server/src/async-task/AsyncTaskManager.ts:87-149 | the statements for one task make exactly the step `Next`, whether the lock is granted and whatever throws; `KeepsFates` says where that leads |
| `AsyncTaskManager.AsyncTaskManager.Map` | cpo-server/src/async-task/AsyncTaskManager.ts:86-152 | any schedule ends, with every fetched task done |
| `AsyncTaskManager.AsyncTaskManager.HandleAsyncTasks` | cpo-server/src/async-task/AsyncTaskManager.ts:57-174 | one sweep, given for each task whether its lock is granted and which of first save, run and second save throw: a pending task of known name that is granted its lock ends SUCCESS exactly if none of the three threw, else ERROR; all others are unchanged; the counters are the numbers of those; every lock is released; another sweep follows exactly when something was pending and no lock was refused |
| `AsyncTaskManager.TriggeredLeavesUnknown` | cpo-server/src/async-task/AsyncTaskManager.ts:161-165 | after a sweep that triggers another, exactly the tasks of unknown name are pending |
| `AsyncTaskManager.ChainStopsIffNamesKnown` | cpo-server/src/async-task/AsyncTaskManager.ts:76-166 | a chain of sweeps comes to find nothing if and only if all names pending at first are known, and then with its second sweep |
| `AsyncTaskManager.ChainGoesOn` | cpo-server/src/async-task/AsyncTaskManager.ts:208-215 | with an unknown name pending every chain whose locks are granted goes on |
| `AsyncTaskManager.EmaidsImportSpins` | cpo-server/src/types/AsyncTask.ts:49 | one pending task named EMAIDS_IMPORT gives chains of any length |
| `SweepOverlap.KeepsLinked` | cpo-server/src/async-task/AsyncTaskManager.ts:92-149 | in the system of lock and sweeps together every step keeps: a handling is between `acquire` and the end of `finally` exactly while its session holds the lock of its task |
| `SweepOverlap.StepsAlike` | cpo-server/src/async-task/AsyncTaskManager.ts:92-149 | each step of a handling is one that the statements of a sweep make, or part of one, but for errors after a save has come through or inside `catch` |
| `SweepOverlap.NeverTwiceAtOnce` | cpo-server/src/async-task/AsyncTaskManager.ts:92-149 | with any sweeps, crashes and restarts overlapping, no two handlings of one task are between `acquire` and the end of `finally` at once, as long as the locks have been careful (no lease outlasted, (b), (c)) |
| `SweepWitnesses.OutlastsItsLease` | cpo-server/src/locking/LockingHelper.ts:11-17 | a run without latency that keeps (b) and (c): a task that is still running a millisecond after its 15 minutes is run by a second handling at the same time |
| `SweepOverlap.RunsComeFromSnapshots` | cpo-server/src/async-task/AsyncTaskManager.ts:76-111 | a task has been run as often as handlings of it ran it, each once, and without a restart each of them had fetched it before its first run |
| `SweepRuns.RunsAgainIff` | cpo-server/src/async-task/AsyncTaskManager.ts:76-149 | from every reachable state, while no server is started: some continuation runs the task once more if and only if it is pending or yet to come, or a handling of it is fetched, holds the lock and has not begun, or is in `acquire` where the first round, a delete to come, a free lock or the release of a holder can still get it the lock |
| `SweepRuns.RunsAgainWithRestartsIff` | cpo-server/src/async-task/AsyncTaskManager.ts:39 | with servers started as well: if and only if that holds or the task is RUNNING |
| `SweepRuns.StaysDone` | cpo-server/src/async-task/AsyncTaskManager.ts:76-149 | a task that cannot be run any more stays so under every step, and is not run |
| `SweepWitnesses.SucceededRunsAgain` | cpo-server/src/async-task/AsyncTaskManager.ts:43-53 | two sweeps fetch a pending task and the second runs it after it has succeeded in the first, with careful locks, no latency and no restart |
| `CipherText.HexRoundTrip` | cpo-server/src/utils/Cypher.ts:33-42 | hex text decodes to the same bytes and holds no ':' |
| `CipherText.FrameRoundTrip` | cpo-server/src/utils/Cypher.ts:33-46 | iv:data and iv:data:tag split back to the same byte strings, empty ones included |
| `CipherText.DecryptInvertsEncrypt` | cpo-server/src/utils/Cypher.ts:21-60 | for every lawful cipher, key and iv, `decrypt` gives back what `encrypt` got, with or without authentication |
| `CipherText.EncryptWrites` | cpo-server/src/utils/Cypher.ts:21-42 | the text holds IV, data and tag in hex, made with the algorithm name and the key selected by `useFormerKey`; there is a tag exactly if the name mentions gcm, ccm, GCM, CCM or ocb and the cipher gave one |
| `SensitiveData.WalkAddsLayers` | cpo-server/src/utils/Cypher.ts:87-96 | coding puts on each listed string as many layers as its path is listed, and keeps the shape of the document |
| `SensitiveData.WalkTakesLayers` | cpo-server/src/utils/Cypher.ts:107-117 | decoding takes as many layers off, and goes through whenever all of them come off |
| `SensitiveData.WalkMeetsNoArray` | cpo-server/src/utils/Cypher.ts:91-93 | a walk goes through only if no listed property is a non-empty array, and if the coder accepts everything then always |
| `SensitiveData.DecodeInvertsEncode` | cpo-server/src/utils/Cypher.ts:76-119 | decoding after coding restores the whole document for any list of paths: missing, repeated and overlapping ones included |
| `SensitiveData.WalkChangesOnlyListed` | cpo-server/src/utils/Cypher.ts:87-96 | strings outside the list and empty strings stay as they are |
| `SensitiveData.WalkCodesEach` | cpo-server/src/utils/Cypher.ts:87-96 | with no property listed twice each listed text is coded once, as it was, and each with a draw of its own from the random source |
| `KeyMigration.SensitiveDataRoundTrip` | cpo-server/src/utils/Cypher.ts:76-119 | the same with `encrypt` and `decrypt` of either key |
| `KeyMigration.MigratedIsRecoverable` | cpo-server/src/utils/Cypher.ts:229-237 | a re-encrypted setting reads under the new key as it did under the former one, and its backup holds the original ciphertexts |
| `KeyMigration.BackupRestoresOriginal` | cpo-server/src/utils/Cypher.ts:243-256 | writing the backup of a migrated setting over it gives the original content exactly |
| `KeyMigration.NothingToCode` | cpo-server/src/utils/Cypher.ts:247-252 | a setting whose backup would be empty is the same under every key, so re-entering it changes nothing |
| `KeyMigration.Cypher.EncryptSensitiveDataInJSON` | cpo-server/src/utils/Cypher.ts:76-98 | for a list of any length, none counting as empty: the loop is the walk with `encrypt` over the whole list, which stays; nothing else changes |
| `KeyMigration.Cypher.DecryptSensitiveDataInJSON` | cpo-server/src/utils/Cypher.ts:100-119 | the same for `decrypt` |
| `KeyMigration.Cypher.GetSettingsWithSensitiveData` | cpo-server/src/utils/Cypher.ts:210-220 | each setting with a non-empty list once, and no other |
| `KeyMigration.Cypher.MigrateSetting` | cpo-server/src/utils/Cypher.ts:229-237 | on success the setting is recoverable and converted, with what was there in its backup; on failure it is as before; it fails only if the former key does not read it |
| `KeyMigration.Cypher.MigrateSettings` | cpo-server/src/utils/Cypher.ts:222-241 | at every save boundary, wherever it stops, every setting is recoverable, and is as before or has what was there in its backup; a run to the end converts all; it completes exactly when every setting without backup is readable with the former key |
| `KeyMigration.Cypher.CleanupBackupSensitiveData` | cpo-server/src/utils/Cypher.ts:281-294 | only backups are dropped, and all of them when it completes |
| `KeyMigration.Cypher.HandleCryptoSettingsChange` | cpo-server/src/utils/Cypher.ts:152-182 | when it gets to the cleanup, the new key reads in every setting, whatever its list and none included, what the former key read before, except that a setting with a backup is as it was; when it completes no setting with a list has a backup; stopped before the cleanup everything stays recoverable; it gets to the cleanup exactly when every setting without backup is readable with the former key; the flag falls only at the end |
| `KeyMigration.Cypher.MigrateSensitiveDataTask` | cpo-server/src/scheduler/tasks/MigrateSensitiveDataTask.ts:8-13 | however often it is stopped while migrating, the run that goes through leaves no backup and nothing to be done; with or without a stop in the cleanup the new key then reads in every setting, over its own list, what the former key read in the original |
| `KeyMigration.Cypher.constructor` | cpo-server/src/utils/Cypher.ts:152-182 | a store without backups whose listed properties the former key reads is recoverable, which the task asks for |
| `KeyMigration.Cypher.ResumeAfterStoppedCleanup` | cpo-server/src/utils/Cypher.ts:222-239 | after a stop during the cleanup the next run completes if and only if the former key reads every setting without backup, and then all plaintexts survive if and only if it reads in them what the new key reads; a run that fails leaves each setting as before, or re-encrypted with what was there in its backup |
| `KeyMigration.KeptOrRestorable` | cpo-server/src/utils/Cypher.ts:229-256 | so whatever such a run leaves, the backup gives the content from before exactly |
| `KeyMigration.ConvertedAgainIffReadAlike` | cpo-server/src/utils/Cypher.ts:229-237 | a converted setting that is migrated once more keeps its plaintext exactly in that case |
| `KeyMigration.CleanedSettingIsReadableIffBlank` | cpo-server/src/utils/Cypher.ts:229-233 | if the former key opens nothing that the new key opens, as with authentication, a converted setting that lost its backup is readable with the former key exactly when there is nothing to decrypt, and then both keys read the same |
| `KeyMigration.SeparatedKeysLoseNothing` | cpo-server/src/utils/Cypher.ts:222-239 | with such keys the resumed run completes exactly when no setting without backup holds a non-empty listed string, and loses nothing |
| `PlaintextLost.StreamIsLawful` | cpo-server/src/utils/Cypher.ts:21-60 | a cipher without authentication that reads anything with any key is lawful |
| `PlaintextLost.LosePlaintext` | cpo-server/src/utils/Cypher.ts:152-182 | from the change of the key on, one stop before the flag is saved and one resumed run: it completes, clears the flag, and the plaintext is lost |
| `SealedByKey.ToyMeetsAssumptions` | cpo-server/src/utils/Cypher.ts:21-60 | the assumptions made on the crypto library can hold together, for any two keys in an authenticated mode |
| `AuthorizationsManager.AuthorizationContext.FillFilters` | cpo-server/src/authorization/AuthorizationsDefinition.ts:4621-4629 | filters default to a new empty array; a first supply replaces them by a new array, never the one of the definition |
| `AuthorizationsManager.AuthorizationContext.FillAsserts` | cpo-server/src/authorization/AuthorizationsDefinition.ts:4631-4639 | the same for asserts |
| `AuthorizationsManager.AuthorizationContext.FillMetadata` | cpo-server/src/authorization/AuthorizationsDefinition.ts:4641-4647 | the same for metadata, which becomes the definition's own record |
| `AuthorizationsManager.DynamicAuthorizations` | cpo-server/src/authorization/AuthorizationsDefinition.ts:4616-4650 | always grants; enriches the context's contents; its arrays are its own or new ones |
| `AuthorizationsManager.FirstSupplierWins` | cpo-server/src/authorization/AuthorizationsDefinition.ts:4624-4647 | after any sequence of conditions each property holds the first value supplied for it, the empty array included, the three independently, and its flag tells whether one was supplied |
| `AuthorizationsManager.RepetitionChangesNothing` | cpo-server/src/authorization/AuthorizationsDefinition.ts:4624-4647 | conditions that come again change nothing |
| `AuthorizationsManager.FinalIsOfFirstCalled` | cpo-server/src/authorization/AuthorizationsDefinition.ts:4624-4647 | over the grants called and the definition alone: for filters, asserts and metadata each, the first grant called that supplies it decides if it was not set; grants the definition lacks supply nothing; else it stays, empty if it was absent |
| `AuthorizationsManager.AuthIDInjective` | cpo-server/src/authorization/AuthorizationsManager.ts:87 | equal keys come from equal roles, resource, action and context JSON, '~' in the JSON included, when role names are not empty and hold no ',' or '~' and resource and action no '~' |
| `AuthorizationsManager.TildeInOneField` | cpo-server/src/authorization/AuthorizationsManager.ts:87 | the same when '~' is in one kind of field only (roles, resources or actions), no name holds '{' and the JSON is that of an object |
| `AuthorizationsManager.KeysThatCollide` | cpo-server/src/authorization/AuthorizationsManager.ts:87 | on one and the same context two different requests share a key: no role and an empty one, a role with a ',' and two roles, and '~' in any two of role, resource and action |
| `AuthorizationsManager.TextsThatCollide` | cpo-server/src/authorization/AuthorizationsManager.ts:87 | on contexts of any text '~' in one kind of field, whichever, would be enough |
| `AuthorizationsManager.OverlayIsFinal` | cpo-server/src/authorization/AuthorizationsManager.ts:100-103 | copying the cached context over a fresh caller's gives what evaluating would have left there |
| `AuthorizationsManager.AuthorizationsManager.Evaluate` | cpo-server/src/authorization/AuthorizationsManager.ts:92-97 | the conditions the engine calls leave the caller's own object with the final contents, which are those of the first suppliers in the order of the calls |
| `AuthorizationsManager.AuthorizationsManager.Hit` | cpo-server/src/authorization/AuthorizationsManager.ts:99-105 | the cached result equals a fresh evaluation and the caller's context ends as that would leave it |
| `AuthorizationsManager.AuthorizationsManager.Miss` | cpo-server/src/authorization/AuthorizationsManager.ts:90-98 | the result is that of the evaluation and keeps the caller's own object |
| `AuthorizationsManager.LeavesIsFinal` | cpo-server/src/authorization/AuthorizationsDefinition.ts:4619-4647 | evaluation leaves a context as it is if and only if it calls no condition, or each of filters, asserts and metadata is there and already set or not supplied |
| `AuthorizationsManager.AuthorizationsManager.CanPerformAction` | cpo-server/src/authorization/AuthorizationsManager.ts:85-105 | any call, hit or miss, gives the authorized flag, fields and final context of an uncached one, and the context ends with what the first suppliers in the order of the calls supply; the cache stays sound if and only if it did not keep the caller's context or evaluation leaves that as it is |
| `AuthorizationsManager.AuthorizationsManager.CanPerformActions` | cpo-server/src/authorization/AuthorizationsManager.ts:85-105 | calls with a context of their own, in any interleaving of their lookups, evaluations and stores, so that entries get replaced: in the end all results and all callers' contexts are what evaluating each call alone gives |
| `AuthorizationsManager.AuthorizationsManager.ReuseSpoilsCache` | cpo-server/src/authorization/AuthorizationsManager.ts:93-98 | from the constructor, two calls on one context object, the second one adding asserts: the entry of the first is wrong afterwards |
| `RoamingUtils.NormalIsNormal` | cpo-server/src/utils/RoamingUtils.ts:22 | the normal form has upper-case letters, digits and single stars only, and normalising again changes nothing |
| `RoamingUtils.UidGroupsConnectors` | cpo-server/src/utils/RoamingUtils.ts:30-40 | equal UIDs if and only if the connectors are the same or share a non-zero charge point that cannot charge in parallel, for any ids |
| `RoamingUtils.GroupIff` | cpo-server/src/utils/RoamingUtils.ts:17-21 | a connector shares an EVSE exactly through its own charge point if that is not 0 and the first entry for it cannot charge in parallel; the connector is the first with its id |
| `RoamingUtils.UidNamesStation` | cpo-server/src/utils/RoamingUtils.ts:30-40 | UIDs of stations with different ids differ, and the part after the station is the same only for the same connector or charge point number |
| `RoamingUtils.UidReads` | cpo-server/src/utils/RoamingUtils.ts:30-40 | the UID is the station, '*', and the decimal of the connector or CP and that of the charge point |
| `RoamingUtils.EvseIDGroupsConnectors` | cpo-server/src/utils/RoamingUtils.ts:11-23 | the same partition for EVSE ids and any operator and station text, except exactly that two ungrouped connectors with opposite ids fall together |
| `RoamingUtils.BothIdsGroupAlike` | cpo-server/src/utils/RoamingUtils.ts:11-40 | for non-negative connector ids both identifiers group alike |
| `RoamingUtils.ConnectorIdRoundTrip` | cpo-server/src/utils/RoamingUtils.ts:25-65 | the connector id parsed back is the decimal of the number without its sign, whatever the operator and station |
| `RoamingUtils.ConnectorIDReads` | cpo-server/src/utils/RoamingUtils.ts:25-28 | where country, party and station are alphanumeric the id of a connector splits into them in upper case, the station after an E, and the number without sign |
| `RoamingUtils.EvseIDReads` | cpo-server/src/utils/RoamingUtils.ts:11-23 | the id of an EVSE is that of the connector, or ends with CP and the charge point if its connectors share one |
| `Text.NaturalReads` | cpo-server/src/utils/RoamingUtils.ts:39 | the decimal of a number is read back as that number and has no leading zero |
| `RoamingUtils.OperatorRoundTrip` | cpo-server/src/utils/RoamingUtils.ts:25-65 | country and party come back in upper case if and only if both are alphanumeric and the party is not empty |
| `RemoteAuthorizations.ChargingStation.CheckIOPRemoteStartTransaction` | cpo-server/src/authorization/Authorizations.ts:1118-1152 | returns the id of the highest valid entry for the badge; the array becomes the untouched part up to it and the valid later entries in order; it is saved exactly when something was removed; a match without token throws before the save |
| `RemoteAuthorizations.SettlesOnOne` | cpo-server/src/authorization/Authorizations.ts:1123-1138 | the entry the search settles on is determined by the array, the clock and the badge |
| `RemoteAuthorizations.SettlesIffLast` | cpo-server/src/server/ocpi/OCPIUtils.ts:215-218 | the search settles on the last entry of the badge that is less than two minutes old when it is looked at, and on none exactly if there is none |
| `RemoteAuthorizations.FullLengthIffAllValid` | cpo-server/src/authorization/Authorizations.ts:1139-1143 | nothing is removed if and only if all later entries are valid |
| `RemoteAuthorizations.NotConsumed` | cpo-server/src/authorization/Authorizations.ts:1127-1137 | a later call settles on the same entry if and only if that entry is still valid |
| `RemoteAuthorizations.CheckOCPPAuthorize` | cpo-server/src/authorization/Authorizations.ts:1092-1116 | returns the first authorization id that no transaction uses, and none only if there is none |
| `Logging.AnonymizePart` | cpo-server/src/utils/Logging.ts:993-1005 | the loop over the sensitive names for one query part computes `Rewritten` |
| `Logging.AnonymizeQuery` | cpo-server/src/utils/Logging.ts:990-1009 | the loop over the parts rewrites each part and joins them again |
| `Logging.RewrittenHidesValue` | cpo-server/src/utils/Logging.ts:998-1003 | a part whose key starts with a sensitive name keeps nothing after its first '='; any other part is unchanged |
| `Logging.QueryValuesHidden` | cpo-server/src/utils/Logging.ts:990-1009 | the rewritten text has the same number of parts, each of them as just said |
| `Logging.RewrittenCuts` | cpo-server/src/utils/Logging.ts:997-1004 | the last sensitive name that the key starts with decides: the part is kept up to its first place in the part, itself and one more character |
| `Logging.ActsAtEveryPath` | cpo-server/src/utils/Logging.ts:984-1036 | at every path of every tree each value is anonymised where it stands, up to the first exempt or sensitive key |
| `Logging.PlainPathsKept` | cpo-server/src/utils/Logging.ts:985-1036 | at every path past no exempt and no sensitive key: numbers, booleans and null are the same, arrays keep their length and objects exactly their keys, a query string is the join of its rewritten parts, and any other string is '####' if it mentions a sensitive name in any spelling of capitals and the same if not |
| `Logging.ExemptKept` | cpo-server/src/utils/Logging.ts:1024-1027 | below 'error' and 'stack' everything is the same |
| `Logging.SpellingsHidden` | cpo-server/src/utils/Logging.ts:1028-1031 | a key that is a sensitive name in any spelling of capitals and small letters holds '####' |
| `Logging.NoNewPaths` | cpo-server/src/utils/Logging.ts:1014-1035 | the result has no path that the message has not |
| `Logging.SensitiveKeysHidden` | cpo-server/src/utils/Logging.ts:1028-1031 | in the result every key equal to a sensitive name ignoring case and not below an exempt one holds '####' |
| `Logging.NoSensitiveMention` | cpo-server/src/utils/Logging.ts:1012-1017 | in the result no string outside exempt keys mentions a sensitive name unless it is a query string or was taken for a connection URL |
| `EmaidsImportAsyncTask.SharedOut` | cpo-server/src/async-task/tasks/EmaidsImportAsyncTask.ts:43-46 | imported and faulty records are set apart and make up all READY ones once none is left |
| `EmaidsImportAsyncTask.ReadyLeft` | cpo-server/src/async-task/tasks/EmaidsImportAsyncTask.ts:56-58 | what is still READY is what has been neither imported nor marked |
| `EmaidsImportAsyncTask.EmaidsImportAsyncTask.GetImportedEmaids` | cpo-server/src/storage/mongodb/EmaidStorage.ts:146-220 | distinct READY records up to the page size, all of them if the page is not full |
| `EmaidsImportAsyncTask.EmaidsImportAsyncTask.ProcessPage` | cpo-server/src/async-task/tasks/EmaidsImportAsyncTask.ts:59-81 | each record of the page is counted once: as imported if its import goes through, as faulty if it throws |
| `EmaidsImportAsyncTask.EmaidsImportAsyncTask.ExecuteAsyncTask` | cpo-server/src/async-task/tasks/EmaidsImportAsyncTask.ts:21-90 | for any page size, given which imports throw: exactly the READY records whose import goes through are deleted and counted in success, all others end as ERROR; without an importer all do; no READY record is left |
| `ImportHelper.AssignKeepsOneDefault` | cpo-server/src/async-task/tasks/ImportHelper.ts:58-64 | clearing a user's default tags and saving one keeps at most one default per user and makes it that user's only one |
| `ImportHelper.ImportHelper.FindTag` | cpo-server/src/async-task/tasks/ImportHelper.ts:35-40 | the tag with that id, or else the only one with that visual id, or none |
| `ImportHelper.ImportHelper.UpdateTag` | cpo-server/src/async-task/tasks/ImportHelper.ts:71-95 | goes through exactly if the tag is unassigned, inactive, unused and of the imported id, refused with the first of these messages otherwise; then exactly the imported properties change |
| `ImportHelper.ImportHelper.CreateTag` | cpo-server/src/async-task/tasks/ImportHelper.ts:97-130 | never fails from where it is called: its eMSP branch is not reached |
| `ImportHelper.ImportHelper.CreateLocalTag` | cpo-server/src/async-task/tasks/ImportHelper.ts:132-172 | refused exactly if the remote tag is missing, double access is off or the issuer differs |
| `ImportHelper.ImportHelper.PrepareTag` | cpo-server/src/async-task/tasks/ImportHelper.ts:34-51 | all refusals come before anything is written |
| `ImportHelper.ImportHelper.ProcessImportedTag` | cpo-server/src/async-task/tasks/ImportHelper.ts:34-69 | keeps at most one default tag per user on every outcome; a refused import changes nothing; a successful one saves the imported properties under the imported id, with a user exactly if e-mail, name and first name are given, as that user's only default; every other tag is the same but for that user's default flags |
| `ImportHelper.RefusedIff` | cpo-server/src/async-task/tasks/ImportHelper.ts:34-51 | in terms of the stored tags: when an import is refused, on the local path with a known id, with only a known visual id, and on the eMSP path |
| `ImportHelper.ImportHelper.ImportAll` | cpo-server/src/async-task/tasks/ImportHelper.ts:34-69 | any sequence of imports, failed ones included, keeps at most one default tag per user |
| `ImportHelper.VisualIDOnlyRefuses` | cpo-server/src/async-task/tasks/ImportHelper.ts:37-40 | a tag found by its visual id alone can only be refused |
| `ImportHelper.EmspImportOverwrites` | cpo-server/src/async-task/tasks/ImportHelper.ts:44-47 | on the eMSP path an assigned, active tag is overwritten and loses its user |
| `MigrationHandler.MigrationHandler.ExecuteTask` | cpo-server/src/migration/MigrationHandler.ts:79-126 | recorded exactly if it ran, the save worked and the id was free |
| `MigrationHandler.MigrationHandler.Migrate` | cpo-server/src/migration/MigrationHandler.ts:15-70 | runs exactly the tasks of its kind whose migration no document has, in list order, failures included; nothing without the lock; only what it ran gets recorded, and records stay |
| `MigrationHandler.MigrationHandler.MigrateBoth` | cpo-server/src/migration/MigrationHandler.ts:15-76 | with distinct names and versions a synchronous and an asynchronous pass run every unrecorded task exactly once |
| `MigrationHandler.AsyncUnaffected` | cpo-server/src/migration/MigrationHandler.ts:32-43 | what the synchronous pass records does not change what the asynchronous one runs |
| `MigrationHandler.RunsAsOftenAsListed` | cpo-server/src/migration/MigrationHandler.ts:29-50 | within one pass a task runs as often as the list names it |
| `MigrationPasses.RecordedNeverRunsAgain` | cpo-server/src/migration/MigrationHandler.ts:15-70 | in the system of lock and passes together, for any passes of any servers that overlap, crash and throw: as long as the locks are careful and no list names a migration twice, what was recorded is never run again |
| `MigrationPasses.KeepsFreshAt` | cpo-server/src/migration/MigrationHandler.ts:30-50 | with the lock's invariant every step of any pass keeps: what a pass still has ahead of it, the snapshot of its own making, is not recorded |
| `MigrationPasses.ExecutedIsRecorded` | cpo-server/src/migration/MigrationHandler.ts:79-126 | a task that has run is recorded exactly if its save goes through and its id is free, and nothing else changes in the records |
| `MigrationPasses.UndisturbedPass` | cpo-server/src/migration/MigrationHandler.ts:15-70 | with the lock free, and nothing that throws, a new pass runs every unrecorded task of its kind in the order of its list, records what it ran and frees the lock |
| `MigrationHandler.SameIdIffSame` | cpo-server/src/storage/mongodb/MigrationStorage.ts:27-31 | without '~' in names document ids are equal if and only if name and version are |
| `MigrationHandler.TildeConfusesMigrations` | cpo-server/src/storage/mongodb/MigrationStorage.ts:29 | with a '~' two migrations share an id |
| `MigrationHandler.ClashRunsInEveryPass` | cpo-server/src/storage/mongodb/MigrationStorage.ts:35-37 | a task whose id another migration holds is never recorded and runs in every pass |

## Left out

- One clock for all processes: skew between hosts is not modelled. `deleteLockByHostname` and locks deleted by hand are not modelled.
- Retries and times are integers; configuration loading and defaults are parameters.
- Log writes, notifications, e-mails and console output are assumed not to throw; in the task runner a log call that throws after the success counter would count a task twice.
- In the sweep of `AsyncTaskManager` a save that throws while the error status is written and a release that throws are not modelled; they are steps in `SweepOverlap`.
- HandleAsyncTasks: is one sweep that no other one disturbs; sweeps that overlap, restarts and crashes are in `SweepOverlap`, as steps.
- `SweepOverlap`: tasks are of known name and are not deleted; a sweep fetches task by task, and its concurrency does not keep a fetched task waiting, so a continuation that runs a task may first need the others of its sweep to end. Timing plays no part in `RunsAgainIff`: a handling may be slow enough to see a lock expire.
- `MigrationPasses`: needs the locks to be careful; a pass that outlasts its lease of 3600 s is not kept apart from the next.
- The session keeps its lock through the protocol state, not through a `Lock` object in memory; sites, users and hosts of a lock are dropped.
- Billing: other writers of `billingData` and the payment provider itself are not modelled.
- Hash, ciphers, random IVs and the access control engine are parameters with the laws stated where they are used (injective, lawful, depending only on request and contents).
- UTF-8 coding of texts and lone surrogates are part of the abstract cipher; letter case is ASCII only.
- Listed properties are walked as parsed paths; lodash's direct keys with dots in them, properties of strings and lists inside lists are not modelled. A null backup and an absent one are the same.
- Other writers of settings during a key migration are not modelled; the key itself changes before the migration starts.
- `AuthorizationsManager`: JSON text is related to contents by a given parse function, so properties that `JSON.stringify` drops are not part of a context; the 4600-line grant table is a list of the arguments of its conditions. The engine at work between lookup and store is one step, which touches the context of its caller only.
- The anonymiser works on values: sharing between parts of a message, dates and errors are not modelled; what a connection URL is rewritten to is an input for each place, since the global expression keeps a position between calls.
- `ImportHelper`: site assignment, user roles, the password and mail steps are one step that may throw; visual ids generated for tags without one are inputs; the audit properties are dropped.
- `RemoteAuthorizations`: the order in which the callers try the sources, and asking the roaming platform for an authorization, are not modelled.
- `EmaidsImportAsyncTask`: saves of faulty records are assumed to work; the tag and user imports have the same loop and are not repeated.
- MongoDB classes, change streams, the cache wrapper, tariff ids with their random suffix, the permission wrappers of `Authorizations` and the type files hold no further property of this kind.
