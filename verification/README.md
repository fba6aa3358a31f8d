# Verification model of the backup server

This project models the backup server of Olares in Dafny and proves what its parts keep, over
every interleaving of their steps. Four parts are covered.

1. **The backup task engine** (`Engine*`, `WorkerPool`, `Pool*`, `TaskPools`, `ApiServers`,
   `Versioned`, `Snapshots`): the stored snapshots with their versioned writes, the watch stream
   and its filters, the snapshot reconciler, one lane of tasks per owner that runs the backup
   pipeline, the progress callback and the cancel request. Every remote call may fail at any
   step, and the context of a running task may end. `WorkerPool` breaks the pool of one owner into its single memory operations, so that
   cancels race with the start and the end of a task; `PoolRefinement` and `PoolRuns` prove that
   this fine pool, seen from outside, only does what the lane of the engine does, over whole runs. `TaskPools` and
   `ApiServers` hold the same operations as methods on objects.
2. **The cron table as a cache of the backup policies** (`Schedules`, `CronTable`,
   `BackupControl`, `BackupCoherence`, `BackupTheorems`, `BackupAnnounce`, `BackupReconcilers`,
   `Plans`).
3. **Next-backup times** (`Calendar`, `MonthlyTimes`, `NextBackups`, with `Arithmetic`).
4. **Paths and repository URLs** (`BackupPaths`, `RepoUrls`, `RepoStyles`, `CosUrls`, with
   `Text`), and three small state holders around a running backup or a list: `Progress`,
   `CloudTokens`, `Pager`.

`dafny verify dfyconfig.toml` checks everything.

## How to read the transition systems

A state is a value, an action is a value, and `Step(state, action)` is total: an action that is
not enabled changes nothing. `Reachable(s)` means that some sequence of actions leads from the
initial state to `s`; the theorems start from it. The invariants behind them are proved step by
step in the files named `*Invariants`, `*Coherence`, `EngineFull`, `EngineNotify`, `EngineOnce`,
`EngineHistory`, `EngineRecovery`, `EngineStopped` and `PoolCancel`. `EngineWrites`,
`EngineFinality` and `EngineOrphans` say from which states a phase can still move,
`EngineContexts` what the end of a task's context means, `EngineSettles` that the snapshot
controller comes to rest, `EnginePending` and `EngineReplay` which snapshots it looks at and which
not, `EngineBase` what a completed snapshot stands for. The states carry history fields (`log`,
`sent`, `told`, `sentAs`, `submitted`, `unfixed`, `unflagged`, `interrupted`; `muted` of the backup
controller) that no step reads.

Where the operations are:

- Engine, store and writers: `Commit` is the accepted branch of `update`
  (pkg/handlers/handler_snapshot.go:322-345); `CancelCheck`, `CancelRead` are `cancelSnapshot`
  (pkg/modules/backup/v1/handler.go:429-489), which tests that the backup named in the request is
  stored, but not that it is the snapshot's, with `UpdatePhase`
  (pkg/handlers/handler_snapshot.go:110-128); `ProgressRead` is `UpdateProgress` (55-71 of the
  same file). `StopBackup` is what `CancelBackup` does to the active task before a deletion
  (pkg/controllers/backup_controller.go:81-90).
- Engine, tasks: `TaskLoad` is `checkBackupExists`, `TaskType` is
  `validateSnapshotPreconditions` and `checkSnapshotType`, `TaskStartRead` and `TaskStartCommit`
  are `prepareForRun`, `TaskExecuted` stands for the execution, `TaskResultRead` and
  `TaskResultCommit` are `updateBackupResult` (pkg/storage/storage_backup.go:80-211, 348-361,
  671-781), where a read of the backup that fails with an unknown error does not end the run
  (682-692). `stopped` holds the snapshots whose task has lost its context: no read or write of
  such a task succeeds. The lane is free again only when the task returns (`TaskEnd`).
- Engine, reconciler: `Snapshots.Passes` is the event filter, `Take` to `GiveUp` are `Reconcile`
  (pkg/controllers/snapshot_controller.go:61-253); in its Canceled branch, `Seek` and `StopFound`
  are the two halves of `CancelSnapshot` on the active task (pkg/worker/worker.go:312-318).
  `Restart` empties the memory and replays the
  store as create events.
- Pool: `CheckBackup` is `ExistsTask`, `StoreBackup`, `StoreRestore`, `Submit` and `Pick` to
  `Clear` are `addTask` and its closure, `CancelBegin` to `CancelEnd` are the three cancel
  functions, one key of the map at a time (pkg/worker/worker.go:103-356).
- Backup controller: `BackupControl.Passes`, `Look` to `Apply`
  (pkg/controllers/backup_controller.go:61-206); `Changed` is the writers in
  pkg/handlers/handler_backup.go:74-121 and pkg/modules/backup/v1/backup_schedule.go:131-135.

## Assumptions

- The task pool of an owner is a FIFO queue with one worker, and fetching or creating the pool of
  an owner is one atomic step.
- There is one controller process; each controller has one reconcile worker.
- A restore id is submitted at most once. (For snapshots the same is proved: `SubmittedOnce`.)
- The watch delivers every committed write once and in order. A relist that skips intermediate
  versions is not modelled.
- An update that reports an error other than a conflict was not applied, nor was one whose context
  ended under way.
- Creation times and the controller's start time come from one clock.
- Integers are unbounded; only `Atoi` checks the 64-bit range.

## Findings

What the code does in corner cases, each proved here with its exact condition or an instance.

- Cancelling a snapshot or a backup while a restore of the same owner is active (or the other way
  round) fails a type assertion (`SnapshotCancelCanPanic`): over all runs, exactly the cancels
  whose read of the active cell found a task of the other kind panic (`CancelPanicsIff`).
- A cancel can miss a task that runs, since its two halves are not one step (`CancelCanMiss`). The
  context of a task that ran has ended exactly when a cancel that means it found it in the active
  cell (`ContextEndsIff`), and a cancel that flagged it fails to do so exactly when it read the
  cell in one of two gaps (`CancelMissesOnlyInGaps`).
- A finished phase is not final: a snapshot whose cancellation is stored while it executes can
  still be stored as Completed (`CancelledCanComplete`). `CompletesIff` says exactly from which
  states that can happen, `PhaseChangesIff` when the next step can change a phase. A cancel whose
  Canceled branch has found the task in execution is final (`CancelFoundIsFinal`): its context
  ends, and no write of that task is committed any more (`StoppedIsSilent`).
- An interrupted snapshot whose backup is gone is left over: no reconciler finishes it, and it
  stays Pending along every run in which no cancel request for it names a stored backup
  (`OrphanStaysPending`, `InterruptedOrphan`). A request under its own URL is refused, because its
  backup is missing; one that names another backup gets through, so a request can help exactly
  when some backup is stored (`CancelGetsThrough`). `OrphanMovesIff` gives the exact condition for
  any unfinished snapshot without a backup.
- A live policy whose expression the cron library refuses keeps its key pending as long as it is so
  (`RefusedStaysPending`); "99:99" is such a policy and passes the request check (`UncheckedText`).
- A size update within the second of the last one, or of the creation, is not announced: it takes
  the flag back under the stamp that is stored, and the filter drops its event
  (`SameStampIsMuted`). At rest, these are the only backups not announced (`SettledIsAnnounced`).
- Without a size stamp, the backup filter would lose policy changes (`FilterLosesOnlyUnstamped`);
  the writers always set it.
- The monthly search never ends when hour or minute is out of range, hour 24 included, which
  `ParseToCron` allows (`SearchEndsIff`, `ScheduledOutcome`, `TextIsUnchecked`); nor after the last
  candidate of December 9999. The hourly form divides by zero for minute 0.
- From 16:00 on, weekly and monthly times are moved a day back, the monthly one after it was
  compared with the present, and can lie in the past: a monthly one exactly when the policy's next
  slot is less than a day away (`ScheduledIsAhead`, `WeeklyInThePast`).
- The hourly form disagrees with the cron entry when the step does not divide 60
  (`HourlyVersusCron`).
- S3 buckets with a dot in the name, or named "s3", are misread in virtual-hosted URLs, and those
  with a character that no host may hold, such as a space, are refused there (`S3StylesAgree`); a COS prefix of slashes only needs two passes to settle (`CosStable`).
- For a file system location that runs through a directory called "olares-backups", the restore
  side passes other arguments to `path.Join` than the backup side did (`RestoreFindsBackup`). A
  directory of the user space called like the drives of the node is taken for the drives
  (`PlaceRoundTrip`).

## Model

| member | source | states |
|---|---|---|
| EngineTheorems.AtMostOneFull | pkg/storage/storage_backup.go:202-211 | in every reachable state, two snapshots of one backup that are both completed and full are the same snapshot |
| EngineBase.IncrementalHasBase | pkg/storage/storage_backup.go:202-211 | when a task's result completes its snapshot as incremental, a snapshot of the same backup was completed before |
| EngineTheorems.ResultOnItsWay | pkg/controllers/snapshot_controller.go:110-123 | a finished snapshot of an existing backup whose result has not been sent is queued, in the worker's hand, or announced by an undelivered event that the filter lets through; so is one that was sent and does not carry the flag, unless the flag is being written or its write was given up |
| EngineTheorems.NothingOwedAtRest | pkg/controllers/snapshot_controller.go:133-187 | when queue, stream and worker are empty, every finished snapshot of an existing backup has been notified, and carries the flag unless the write of it was given up |
| EngineReplay.NotSentAgain | pkg/controllers/snapshot_controller.go:133-160 | a snapshot that was finished and flagged when the controller restarted is never queued, in hand or sent again until the next restart, along every run |
| EngineReplay.FlaggedAsSent | pkg/handlers/handler_snapshot.go:88-108 | the flag is only ever set on the very state of a snapshot that was sent |
| EngineReplay.WhoWakes | pkg/controllers/snapshot_controller.go:161-187 | which writers wake the reconciler: progress and the flag never; a start when the snapshot was not running; the others when they change something; none of them once the flag is set |
| EnginePending.PendingIsSubmitted | pkg/controllers/snapshot_controller.go:92-104 | when queue, stream and worker are empty, every pending snapshot of an existing backup has been handed to the pool, unless it was refused and the write of its failure was given up |
| EngineSettles.ControllerSettles | pkg/controllers/snapshot_controller.go:61-126 | with working calls and no requests or task steps in between, the steps of watch and reconciler are bounded in number, in any order |
| EngineSettles.CanSettle | pkg/controllers/snapshot_controller.go:61-126 | from every reachable state such steps lead to one where none is left |
| EngineSettles.EventuallyNotified | pkg/controllers/snapshot_controller.go:110-123 | there every finished snapshot of an existing backup has been notified and flagged, and every interrupted one is finished, unless the write in question was given up |
| EngineTheorems.ProgressOnlyWhileRunning | pkg/handlers/handler_snapshot.go:55-71 | every committed progress write met a Running snapshot, changed nothing but the progress, and stayed below 10000 |
| EngineTheorems.StaleNeverCommits | pkg/handlers/handler_snapshot.go:322-345 | an update whose version was overtaken is refused in every later state, however often it is retried |
| EngineTheorems.CompletedOnlyAfterRunning | pkg/storage/storage_backup.go:80-149 | only the result write of a snapshot's own task makes it Completed, and the same task's Running write is earlier in the history |
| EngineTheorems.DoneOnlyWhenCompleted | pkg/storage/storage_backup.go:735-746 | progress 10000 appears only with a Completed commit of the result write |
| EngineBase.CompletedIsDone | pkg/storage/storage_backup.go:735-746 | in every reachable state a completed snapshot shows progress 10000 |
| EngineBase.ResultIsStored | pkg/storage/storage_backup.go:671-781 | the result that nothing overtakes: completed with the type of the run on success, else failed or cancelled, the type as far as it was determined, and the old progress |
| EngineBase.WritesAreNarrow | pkg/handlers/handler_snapshot.go:55-128 | over the whole history, field by field: which fields each of the six writers changes, and into what |
| EngineTheorems.OnwardRun | pkg/handlers/handler_snapshot.go:88-128 | along every run no snapshot returns to Pending, the result flag stays set, versions grow, and a deleted snapshot stays deleted |
| EngineTheorems.SubmittedOnce | pkg/controllers/snapshot_controller.go:92-104 | a snapshot that the reconciler is about to submit has not been submitted since the controller started |
| EngineTheorems.OnePlace | pkg/worker/worker.go:180-214 | a submitted snapshot waits or runs at one place in one owner's lane |
| EngineTheorems.InterruptedEnds | pkg/controllers/snapshot_controller.go:91-109 | after the replay of a restart, every snapshot that was Pending or Running is Failed (or was cancelled), if its backup exists and the write went through |
| EngineTheorems.InterruptedNeverRuns | pkg/controllers/snapshot_controller.go:93-103 | whatever stands in a lane was created after the controller started, and none of it was interrupted |
| EngineOrphans.OrphanMovesIff | pkg/controllers/snapshot_controller.go:61-109 | an unfinished snapshot whose backup is gone can change its phase, without a cancel request that names a stored backup, exactly when something under way stirs it: an accepted update with another phase, a cancel past its check, a task that has loaded it and kept its context, or the reconciler about to write Failed; otherwise it keeps its phase along every such run |
| EngineOrphans.CancelGetsThrough | pkg/modules/backup/v1/handler.go:453-486 | a new cancel request can bring a snapshot to Canceled exactly when it is neither completed nor failed and some backup is stored, its own or another |
| EngineOrphans.InterruptedOrphan | pkg/controllers/snapshot_controller.go:61-109 | the other half of `InterruptedEnds`: what is at rest, interrupted and unfinished, with no write given up, has lost its backup, and only a cancel past its check can still move it, besides a new one that names a stored backup |
| EngineOrphans.OrphanStaysPending | pkg/controllers/snapshot_controller.go:61-90 | a state at rest is reachable in which an interrupted snapshot is Pending and stays so along every run in which no cancel request for it names a stored backup |
| EngineFinality.PhaseChangesIff | pkg/handlers/handler_snapshot.go:322-345 | some next step changes a stored phase exactly when an update with another phase waits for that snapshot and was read at its present version |
| EngineFinality.NobodyLooksAgain | pkg/handlers/handler_snapshot.go:110-128 | a cancel past its check, the start of a task and the recovery each bring the snapshot into their phase, whatever phase it has by then |
| EngineFinality.CompletesIff | pkg/storage/storage_backup.go:80-149 | a snapshot past Pending and not completed can still be completed by some run exactly when its task has kept its context and is loaded as Pending, before or in execution, or past it with success, with a started write not overtaken, or is about to send a Completed result that is not overtaken; whether its backup is stored does not matter |
| EngineContexts.StoppedIsSilent | pkg/storage/storage_backup.go:671-679 | once the context of a snapshot's task has ended, along every run no start, progress or result write of that task is committed |
| EngineContexts.StoppedNeverCompletes | pkg/storage/storage_backup.go:671-679 | so a snapshot whose task has lost its context, and which is not completed yet, never will be |
| EngineContexts.CancelFoundIsFinal | pkg/controllers/snapshot_controller.go:110-123 | when the Canceled branch has found the task in execution, a snapshot past Pending and not completed by the end of that branch never completes |
| EngineContexts.FoundIff | pkg/worker/worker.go:312-318 | the Canceled branch finds the task exactly when it is the one that runs, in whichever lane, and ends no context when it has not found it |
| EngineContexts.DeletionStops | pkg/controllers/backup_controller.go:81-90 | in every reachable state, deleting a backup ends the context of the task that runs for it, whichever lane that is in |
| EngineTheorems.WaitingHasContext | pkg/worker/worker.go:185-201 | no task that waits in a lane has lost its context |
| EngineCancel.CancelledCanComplete | pkg/storage/storage_backup.go:671-781 | a state is reachable in which a snapshot is completed and full after its cancellation was committed |
| EngineInvariants.StepSound | pkg/handlers/handler_snapshot.go:55-128 | every step keeps the honesty of all updates in flight: at the version it read, each knows the stored value and changes only what its writer may change |
| EngineHistory.StepLogged | pkg/handlers/handler_snapshot.go:322-345 | a step commits at most one update, by a lawful writer, or leaves all existing snapshots as they were |
| Snapshots.SnapshotType | pkg/handlers/handler_snapshot.go:294-316 | the type is incremental exactly when the list holds a completed snapshot |
| ApiServers.ApiServer.UpdateWithRetry | pkg/handlers/handler_snapshot.go:322-345 | the retry loop succeeds exactly when its first attempt is fresh, and then its value is stored under the newest version, over nothing that came in between; otherwise it changes nothing |
| ApiServers.ServeStores | pkg/handlers/handler_snapshot.go:322-345 | an accepted update is stored as sent, under a version no object had before, and touches nothing else; a refused one touches nothing |
| ApiServers.StaleStaysStale | pkg/handlers/handler_backup.go:263-285 | a version that was passed is never fresh again, whatever other updates arrive |
| PoolTheorems.MapHoldsLiveTasks | pkg/worker/worker.go:180-214 | the task map holds exactly the tasks submitted or being submitted and not past their deferred delete; a refused submission leaves nothing |
| PoolTheorems.RefusedHasNoContext | pkg/worker/worker.go:203-213 | a refused submission has lost its context and is in the map no more |
| PoolTheorems.ActiveIsTheRunningTask | pkg/worker/worker.go:185-201 | the active cell is empty or holds the one task between its start and its deferred end |
| PoolTheorems.OneLiveTaskPerBackup | pkg/worker/worker.go:103-141 | at most one task of a backup in the map is not cancelled, even while cancelled ones drain |
| PoolTheorems.FlaggedInTimeNeverRuns | pkg/worker/worker.go:194-196 | a task flagged while it waits or stands at its check never enters Run |
| PoolTheorems.ContextEndsIff | pkg/worker/worker.go:275-282 | the context of a task that ran has ended exactly when a cancel that means it came to its end having found it in the active cell |
| PoolTheorems.CancelMissesOnlyInGaps | pkg/worker/worker.go:261-282 | when a cancel that is through flagged a task which ran, the flag came after the check, and the cancel ended its context exactly unless it read the active cell before the task was entered there or after the cell was cleared |
| PoolTheorems.CancelCanMiss | pkg/worker/worker.go:194-201 | such a miss is reachable: a cancel that falls between check and active cell leaves its snapshot running to the end |
| PoolTheorems.CancelFlagsAll | pkg/worker/worker.go:297-310 | a cancel past its walk over the map has flagged every task that was there all along and that it names: a backup task by its backup or its snapshot, a restore task by its restore |
| PoolTheorems.OnlyMeantTasksChange | pkg/worker/worker.go:285-319 | a flag was set only by a cancel that names the task in that way, and a context ended, outside a refused submission, only by one that also found the task in the active cell |
| PoolTheorems.TasksAreNamed | pkg/worker/worker.go:103-110 | no task in a reachable pool has an empty snapshot, restore or backup name |
| PoolTheorems.CancelPanicsIff | pkg/worker/worker.go:275-282 | of all cancels that are through in a reachable pool, exactly those panicked for which the active cell held a task of the other kind when they read it |
| PoolTheorems.SnapshotCancelCanPanic | pkg/worker/worker.go:312-318 | such a state is reachable: a snapshot cancel during a restore |
| PoolInvariants.StepInv | pkg/worker/worker.go:180-214 | every step of the pool keeps: the map is exact, a task stands at one place, the active cell is exact, one live task per backup |
| PoolRefinement.StepRefines | pkg/worker/worker.go:185-201 | every step of the fine-grained pool moves what is seen of it (waiting snapshots, the one in Run, whether its context has ended) as one move of the engine's lane does: none, start, turn away, end, stop, or that very snapshot at the end of the lane |
| PoolRefinement.MoveIsEngineStep | pkg/worker/worker.go:185-214 | from every reachable state of the engine that shows the same, each such move but the submission is one step of the engine |
| PoolRefinement.EngineStepMoves | pkg/worker/worker.go:180-214 | the other way round: every step of the engine but a restart changes a lane by one of these moves |
| PoolRefinement.RunRefines | pkg/worker/worker.go:185-201 | between submissions, every run of the pool is a run of the engine, from any reachable state that shows the same |
| PoolRuns.PoolRunIsEngineRun | pkg/worker/worker.go:180-214 | every run of a new pool, with submissions, refusals, cancels and ends in any order, is matched step by step by a run of the engine, as long as no snapshot is submitted twice (which `SubmittedOnce` rules out) |
| PoolCancel.PassedHasContext | pkg/worker/worker.go:194-201 | a task that has passed its check enters Run with its context |
| TaskPools.TaskPool.ExistsTask | pkg/worker/worker.go:216-247 | the loop over the map finds a task exactly when one of the backup is there and not cancelled |
| TaskPools.TaskPool.MarkAll | pkg/worker/worker.go:261-273 | the loop flags exactly the tasks that the cancel names and touches no context |
| TaskPools.TaskPool.Cancel | pkg/worker/worker.go:249-283 | the whole cancel, uninterrupted: flags on exactly the tasks it names, the one context, and the panic on a task of the other kind |
| TaskPools.TaskPool.AddTask | pkg/worker/worker.go:180-214 | an accepted task is in map and queue; a refused one leaves both as they were, with its context ended |
| TaskPools.TaskPool.RunNext | pkg/worker/worker.go:185-201 | a task runs exactly when it was not flagged, and afterwards is in neither map nor active cell |
| TaskPools.MarkedLeavesNoneAlive | pkg/worker/worker.go:249-273 | after the flags of a backup cancel no task of that backup is alive, and flagging again changes nothing |
| TaskPools.VisitIsOneTurn | pkg/worker/worker.go:261-273 | a visit in the interleaved model is one turn of that loop |
| Schedules.CronIffValid | pkg/util/util.go:171-217 | there is an expression exactly for a known frequency and a time in range |
| Schedules.TimeReads | pkg/util/util.go:171-217 | a text of two halves around one colon is a time exactly when they read as an hour up to 24 and a minute up to 59 |
| Schedules.CronFields | pkg/util/util.go:171-217 | the expression always splits into five fields, and reading them back gives minute, hour, date and weekday of the policy, for each of the five frequencies |
| CronTable.OfWithout | pkg/handlers/handler_snapshot.go:160-170 | removing a backup takes all of its entries and no other's |
| CronTable.OfRescheduled | pkg/handlers/handler_snapshot.go:172-208 | rescheduling leaves a backup with exactly the new entry, or none when it is refused, and others as they were |
| CronTable.Cron.RemoveFromSchedule | pkg/handlers/handler_snapshot.go:160-170 | the loop that removes by entry id over a copy removes exactly the backup's entries |
| CronTable.Cron.CreateSchedule | pkg/handlers/handler_snapshot.go:172-208 | old entries go even when the new one is refused; ids stay distinct |
| BackupTheorems.TableIsCache | pkg/controllers/backup_controller.go:61-114 | a backup whose key is not queued, in hand or announced has exactly its wanted entry: one with its policy's expression when it exists, is enabled and not deleted, else none |
| BackupTheorems.NeverTwoEntries | pkg/handlers/handler_snapshot.go:172-208 | no reachable table holds two entries of one backup, or one of a backup that is gone |
| BackupTheorems.RefusedStaysPending | pkg/controllers/backup_controller.go:107-111 | a live, enabled backup whose expression is refused has its key pending in every reachable state |
| BackupTheorems.DeletedStaysUnscheduled | pkg/controllers/backup_controller.go:81-90 | once a backup is marked deleted and no older read is in hand, no run ever gives it a new entry, and the mark stays |
| BackupTheorems.FilterLosesOnlyUnstamped | pkg/controllers/backup_controller.go:125-147 | of the updates that change the wanted entry, the filter passes exactly the deletions and those with size stamps on both sides |
| BackupTheorems.ControllerSettles | pkg/controllers/backup_controller.go:61-114 | with working remote calls and acceptable expressions, the steps of watch and worker are bounded in number, in any order |
| BackupTheorems.SettledTableIsWanted | pkg/controllers/backup_controller.go:61-114 | when none of them is left to take, the whole table is what the store asks for |
| BackupCoherence.StoreStep | pkg/handlers/handler_backup.go:74-121 | every step keeps the size stamp present, deletion final, and updates in flight honest |
| BackupCoherence.TableStep | pkg/controllers/backup_controller.go:61-206 | every step keeps the table coherent with the store up to pending keys |
| BackupReconcilers.BackupReconciler.Reconcile | pkg/controllers/backup_controller.go:61-114 | when announcing the backup fails the table is untouched; in every other branch it holds the wanted entry of the backup read, or none together with an error; other backups' entries stay |
| BackupReconcilers.StepsSettle | pkg/controllers/backup_controller.go:61-114 | the worker's steps after its read, uninterrupted, do what that method does, with an error as a key queued again |
| BackupAnnounce.SettledIsAnnounced | pkg/controllers/backup_controller.go:81-99 | when no step of watch and worker is left, no stored backup is marked deleted, and each is announced exactly unless a size update took its flag back under the stamp that was stored |
| BackupAnnounce.MutedBySameStamp | pkg/handlers/handler_backup.go:104-121 | only an update that takes the flag of an announced backup back and keeps its stamp is recorded so |
| BackupAnnounce.SameStampIsMuted | pkg/controllers/backup_controller.go:173-190 | such a state at rest is reachable, for every accepted policy and every stamp |
| BackupTheorems.RequestTakesEffect | pkg/handlers/handler_backup.go:74-121 | the entry that each committed request leaves wanted: none after a deletion or disabling, the old policy's after enabling, the new one's after a new policy, the same after a size update; other backups' are not concerned |
| BackupTheorems.WhichRequestsWake | pkg/controllers/backup_controller.go:125-147 | which committed requests the filter lets through: the deletion of a live backup, every change of the policy, a size update under a new stamp, and of a deleted backup whatever changes it |
| BackupTheorems.RestartRebuilds | pkg/controllers/backup_controller.go:119-124 | a restart begins with an empty table and with every stored backup on its way to the worker |
| Plans.BackupPlan.ValidBackupPolicy | pkg/modules/backup/v1/backup_schedule.go:274-318 | the check accepts and rewrites the policy as `Validated` says |
| Plans.AcceptedPolicy | pkg/modules/backup/v1/backup_schedule.go:274-318 | exactly which policies are accepted (frequency, weekday, date, a stamp or a text with one colon), and that acceptance enables the policy, keeps the time asked for, and changes nothing else but a stamp's text |
| Plans.LocalTextReads | pkg/util/util.go:219-231 | the text made of a time stamp reads back as the hour and minute of `MinuteOfDay` |
| Plans.StampShowsItsMinute | pkg/util/util.go:219-231 | the stored text has five characters and names the hour and minute in which the instant of the stamp, moved by twice the zone offset, lies |
| Plans.StampIsServed | pkg/modules/backup/v1/backup_schedule.go:290-296 | a policy given by a time stamp always gets an expression, and a next time exactly unless it is hourly on the full hour or monthly past the last candidate of year 9999 |
| Plans.TextIsUnchecked | pkg/modules/backup/v1/backup_schedule.go:297-302 | for a policy given by a text, exactly when it gets an expression, no next time, a crash, or an endless search |
| Plans.UncheckedText | pkg/modules/backup/v1/backup_schedule.go:274-318 | "99:99" passes the check and gets no expression |
| Calendar.DailyIsFirst | pkg/handlers/helper.go:355-366 | the daily time is the first such instant from now on, exactly unless the hour is 24 and today's slot is still ahead |
| Calendar.FirstDayOfWeekIsMonday | pkg/util/util.go:246-254 | the result is the Monday 00:00 UTC with the given instant in the week that follows |
| Calendar.WeeklyIsFirst | pkg/handlers/helper.go:400-420 | the weekly time is the first adjusted slot from now on, except for a Monday slot moved into Sunday in the last hours of a week; it is never more than 8 hours old and less than a week ahead |
| Calendar.WeeklyInThePast | pkg/handlers/helper.go:411-417 | an instance of that exception |
| Calendar.HourlyIsAhead | pkg/handlers/helper.go:422-441 | the hourly time is after now exactly for a positive step |
| Calendar.HourlyVersusCron | pkg/handlers/helper.go:428-435 | it is never before the next fire of the cron entry, and equals it exactly when the aimed minute stays within the hour, so always when the step divides 60 |
| MonthlyTimes.MonthLength | pkg/handlers/helper.go:368-398 | in the day count, each month is followed by the next after its Gregorian length, over year ends and leap years |
| MonthlyTimes.EpochMonth | pkg/handlers/helper.go:368-398 | the day count of the months starts at 1970-01-01 |
| MonthlyTimes.SearchEndsIff | pkg/handlers/helper.go:378-391 | the month search ends exactly for day, hour and minute in range, except past the last candidate of December 9999 |
| MonthlyTimes.MonthlyIsFirst | pkg/handlers/helper.go:368-398 | with the shift undone, the answer is the first valid date-time of that day, hour and minute from now on |
| MonthlyTimes.NextMonthly | pkg/handlers/helper.go:368-398 | on every input: the loop gives that month's instant, a day earlier from 16:00 on, within two turns when the search ends at all, and is still running after any number of turns when it does not |
| NextBackups.ScheduledOutcome | pkg/handlers/helper.go:328-353 | of the scheduled policies, exactly hourly ones with minute 0 crash, and exactly monthly ones at hour 24 or past the last candidate of year 9999 never return |
| NextBackups.ScheduledIsMeant | pkg/handlers/helper.go:341-352 | each frequency is answered by its own form: the instant is the first one the policy names (for hourly, the next cron fire), exactly under the conditions stated for that form |
| NextBackups.ScheduledIsAhead | pkg/handlers/helper.go:328-353 | exactly when the next time is not in the past: for monthly policies from 16:00 on, when the policy names no instant within a day from now; and that it is never more than a day old |
| BackupPaths.MarkerFound | pkg/handlers/helper.go:570-575 | the marker is found where it was put exactly when the prefix holds none |
| BackupPaths.SplitPath | pkg/util/string/string.go:101-114 | the result matches the regular expression, and there is none only if nothing matches |
| BackupPaths.MatchIsUnique | pkg/util/string/string.go:103-107 | a text matches in one way at most, so the lazy quantifier has no choice |
| BackupPaths.PathRoundTrip | pkg/handlers/helper.go:570-580 | taking a backup path apart gives back prefix, name and id for every name without a newline, exactly when the prefix holds no marker |
| BackupPaths.PathAcceptedIff | pkg/handlers/helper.go:570-580 | exactly the paths made that way are accepted |
| BackupPaths.RootIff | pkg/handlers/helper.go:769-784 | the root is the drives, or the cache, exactly when the slashed path begins with that directory of the node |
| BackupPaths.PlaceRoundTrip | pkg/handlers/helper.go:769-784 | the path made of a root and a relative path resolves back to them exactly for directories, except user space directories called like the drives of the node |
| BackupPaths.PlaceKeepsPath | pkg/handlers/helper.go:769-784 | root and relative path together are the given path, up to a closing slash |
| BackupPaths.RestoreFindsBackup | pkg/handlers/helper.go:787-819 | the restore side resolves a backup's path to the place the backup side wrote to, exactly when the location holds no marker |
| BackupPaths.RestoreWithoutMarker | pkg/util/string/string.go:93-99 | a path without the marker leaves the whole user space |
| RepoUrls.ParsePrint | pkg/util/repo/repo.go:184-191 | printing a URL and parsing it gives it back, for every scheme, every host of characters that a host may hold, and every path |
| RepoUrls.S3AcceptedIff | pkg/util/repo/repo.go:180-226 | a host is read exactly when it lies under .amazonaws.com with two labels or more before that, and, beginning with "s3.", has a bucket in the path |
| RepoUrls.S3Stable | pkg/util/repo/repo.go:180-245 | reading a normalised endpoint again gives the same region, bucket and endpoint, exactly when the bucket is not empty |
| RepoStyles.S3StylesAgree | pkg/util/repo/repo.go:199-226 | virtual-hosted and path-style URL of a bucket normalise to the same result exactly for a non-empty, dot-free bucket other than "s3" whose characters may all stand in a host |
| RepoStyles.ShortStyleAgrees | pkg/util/repo/repo.go:219-226 | the URL style without the service's name agrees with the path style under the same condition |
| CosUrls.RawUrlAgrees | pkg/util/repo/repo.go:65-178 | the two COS entry points agree on every URL |
| CosUrls.CosStable | pkg/util/repo/repo.go:129-178 | reading a normalised COS endpoint again changes nothing exactly unless the prefix consists of slashes only |
| CosUrls.CosStylesAgree | pkg/util/repo/repo.go:143-161 | both COS URLs of a bucket normalise to the same result exactly when its name has no dot |
| Progress.ProgressReporter.ProgressCallback | pkg/storage/storage_backup.go:363-406 | what one call writes and how it moves the throttle |
| Progress.NeverDone | pkg/storage/storage_backup.go:371-374 | no progress write carries 10000, whatever the fraction |
| Progress.WrittenIsTheFraction | pkg/storage/storage_backup.go:371-392 | for a fraction in [0, 1] the written value is the fraction in hundredths of a percent, rounded down, and 9999 for all of it |
| Progress.WrittenInRange | pkg/storage/storage_backup.go:371-392 | a written value can be stored by the engine exactly when the fraction lies within a hundredth of a percent of [0, 1] |
| Progress.ThrottleHolds | pkg/storage/storage_backup.go:390-394 | over any sequence of calls, the number of throttled writes times five seconds is at most the time gone by |
| Progress.ThrottledChanges | pkg/storage/storage_backup.go:390-394 | two throttled writes in a row differ |
| CloudTokens.IntegrationChoice.GetIntegrationCloud | pkg/storage/storage_backup.go:794-846 | the two loops pick the first account by name, else the first by endpoint, and crash on a missing token reached before |
| CloudTokens.ChoiceSettles | pkg/storage/storage_backup.go:848-865 | a recorded change is final: the next run with the same accounts changes nothing, and uses the same account exactly unless a different one with its key stands before it |
| CloudTokens.ChangeKeepsEndpoint | pkg/storage/storage_backup.go:832-843 | a changed account serves the recorded endpoint under another key, and is recorded with that key and endpoint |
| CloudTokens.ChoiceIs | pkg/storage/storage_backup.go:794-846 | the five outcomes by the list alone: which token is found, when none is, and when a missing one crashes the search |
| Pager.GenericPager | pkg/handlers/helper.go:675-735 | the copy loop returns the page, its number and the page count |
| Pager.PageIs | pkg/handlers/helper.go:675-735 | a page holds the items from the offset on, up to the limit or five, and falls short only at the end of the list |
| Pager.PagesTile | pkg/handlers/helper.go:675-735 | the pages put together in order are the list |
| Pager.PagesFilled | pkg/handlers/helper.go:706-732 | pages before the last are full, the last is not empty unless the list is, later ones are |
| Pager.PageNumber | pkg/handlers/helper.go:729-729 | the k-th page is numbered k, counted from one |

## Left out

- HTTP, NATS and Kubernetes plumbing, logging, routing: each remote call is a step that succeeds
  or fails.
- The execution by restic and the backups SDK, and the token refresh of backups to Olares Space:
  a step with a result or an error; that it ends is not claimed.
- JSON encodings: the push entry, locations and backup types are datatypes or fields.
- Restore spec writes: they read again and overwrite the whole spec, so restores occur only as
  tasks of the pool.
- That terminal phases are absorbing: false in the code (`CancelledCanComplete`).
- That a backup's tasks are cancelled only when it is marked deleted: the engine lets
  `StopBackup` and `DoDropBackup` happen at any time, which allows more runs than there are.
- The flags of waiting tasks in the engine: a task that gets its turn is dropped or not, at will;
  the flags are in the pool model.
- Agreement of the weekly next time with the weekly cron entry: the two count weekdays
  differently.
- `FormatSpace`, percent-decoding, user names and ports in URLs.
- The parser of the cron library: a parameter that accepts or refuses an expression.
- The job that a cron entry runs, beyond the creation of a snapshot at any time.
- App file lists, disk usage checks, restore preparation, REST response shaping.
- `path.Join`: both sides pass equal arguments to it, which is what is proved.
- RepoUrls.ParsePrint: percent signs, user names, ports and the brackets of addresses are not
  interpreted, so URLs that hold them are not claimed to parse as `url.Parse` does.
- Progress.WrittenInRange: real arithmetic stands for float64, so its bounds are exact only up to
  the rounding of one multiplication.
- TaskPools.TaskPool.RunNext: runs the closure without interference, and a panic inside Run ends it
  as a return does; the races with a cancel are in `WorkerPool`.
