# A verified model of the video library's migrations and bookkeeping

A Dafny model of the backend of a self-hosted video library: moving video files between storages without losing
them, the job runner that does it in the background, and the redundant books the catalogue keeps (series, tag
counts, directory aggregates), down to the bytes and the paths. `dafny verify dfyconfig.toml` checks all of it.

## What is modelled

**Migrations** (`Migration*.dfy`). A migration copies a file, repoints its record and deletes the source.
`MigrationModel` gives one step function: every save of the status, every write to storage and every write to the
records is a step of its own, with a label, and is refused (`None`) where the code cannot take it. `MigrationProtocol`
lets any number of migrations, their clients, deletes and browses by the rest of the catalogue, and a process that may
die between any two steps interleave; recovery maps the persisted status to the phase to resume at, tidies up and
resets the status, one migration at a time, and may die itself. The main result is `NoDataLoss`; `StatusTellsTruth`
says what each status promises about the files, `MigrationRecords` whose record it promises and `MigrationRivals`
exactly when that holds. `MigrationResumption` says which phases a restart or a retry runs again, and that a
cancellation is honoured; `MigrationBystanders` is about bytes that are not the migration's own. `MigrationConvergence`
shows that interrupted and uninterrupted runs end in the same state, `MigrationLiveness` that nobody is forgotten.
`MigrationService` is the imperative form: a worker object updated in place whose every update is logged as one step
of the protocol, so that the safety of every protocol state holds at every point at which this code can die.
`MigrationBrowsing` interleaves the creation and the run of a migration with directory browses, which insert records
for files they find.

**The runner** (`TaskRunner.dfy`, `MigrationRuntime.dfy`, `MigrationSettling.dfy`). A first-in-first-out queue, a
fixed pool, and one bounded channel per observer that drops its oldest frame. The atomic blocks are the stretches of
code between two awaits. `MigrationRuntime` puts protocol and runner together: it proves that they agree about who
waits and who runs, and carries the results of each over to the whole. `MigrationSettling` concludes that everybody
settles: a measure over all migrations bounds the steps that bring them forward, and where none is open every one is
in a terminal status.

**The books.** `Placement`, `SeriesCatalog` and `SeriesService`: membership held in two places, and the slot-filling
that places a selection into a series. `TagCounts`: reference counts moved by a one-direction accumulator.
`DirectoryTree` and `DirMetadataService`: sizes and modification times of directories, recomputed one level at a time
up the ancestor chain and read through a cache whose entries may expire at any time, against a full walk, whose own
numbers are stated by the files at every depth.

**Bytes and paths.** `StreamCopy`: chunked read into multipart write. `UniqueName`: the search for a free
`name(n).ext`. `PathText`, `LocalPaths` and `S3Paths`: text-level conversion between logical paths and file-system
paths or object keys, with POSIX path normalisation written out.

Methods that change state in the source are methods of classes here, proved against functions about which the
properties are then proved. What the code does not decide (a failing save, a short read, an expiring entry) is an
arbitrary choice; where the worker or the storage is `calm` or `steady`, nothing fails of itself, and the contracts
then promise success.

## Assumptions of the migration results

The code needs each of these. `MigrationLimits` shows for A1, A3 and A4 exactly when the code keeps the bytes
without them, `MigrationBystanders` for A2, at the start and at the end of a migration; and for A1 to A4 there is a
run in which the bytes are lost.

- A1: source and target differ. Only the preflight compares them (src/features/migration/migration_service.py:157); creating does not.
- A2: a new migration uses no path of one that is unsettled or still held in memory, and a retried one no path of one whose
  promise is due. The partial unique indexes separate sources from sources and targets from targets, never a source from a
  target; a retry passes the same indexes, but does not look at the files. A start endangers what stands at its target
  (`StartKeepsBytesIff`), an end what stands at its source (`FinishKeepsBytesIff`).
- A3: the process does not die while the status reads PENDING and the source is already deleted. Recovery resets the
  status to PENDING, so a second crash before the next save would restart at the copy, whose tidying up deletes the only copy.
- A4: the save of COMPLETED does not fail. Its failure is blamed on the copy, so that a retry deletes the target.
- A5, built into the step function: the source does not change during the copy, a read returns at least one byte, and
  a save is atomic with the code that follows it. The catalogue's deletes check the locks, atomically with the
  delete; the check of the status in cancelling and retrying is likewise atomic with its write.

The target's old occupant is given up on purpose under the "overwrite" strategy. `released` in the protocol's state names the
migrations whose files somebody else has taken over since they settled: a delete of a video nobody locked, or a new
migration over a settled one. Nothing is promised about those; `UnsettledStaysDue` shows that an unsettled one is
never among them.

## Findings

- A migration that failed does not lock its paths. If its record had already moved and a browse then registers its
  source file, a retry of an overwriting migration takes the migrated video's record for a conflict and deletes it
  (`WitnessRivalTakesTheRecord`). `Threatened` is the exact condition (`RecordStaysTrueIff`); it also covers a
  migration cancelled while a worker is about to save its next status.
- Nor does it lock its target. The retry of a copy deletes whatever stands there by then: the file of another
  migration that has completed at the same target (`WitnessRetryTakesTheTarget`), or a file that has nothing to do
  with either, strategy "overwrite" or not (`BystanderSurvivesIff`).
- A retry that the unique indexes refuse, or whose save fails, has tidied up before that: the migration stays FAILED,
  but where the copy is to be repeated, what stood at its target is gone (`FailedRetryHasTidiedUp`).
- The unique indexes admit a migration over the source of one in progress. Until the other's copy is whole this
  endangers the other's bytes, and from then on the newcomer's, which the other deletes as its own source
  (`CreateOverSourceKeepsBytesIff`, `CreateOverSourceLosesBytes`).
- A copy to an object store that is itself cancelled leaves its multipart upload open: only ordinary exceptions
  abandon it (`StreamCopy.WriteFileStreaming`).
- Browsing can claim a migration's target: an answer to the lock query from before the migration was created lets a
  browse insert a record later, at the target, or at the source once the record has moved. Without such a browse in
  flight it cannot (`NeverClaimedIff`); both kinds do come about (`StaleTargetIsReached`, `StaleSourceIsReached`).
- An observer waits for ever if its channel is full, with no end marker in it from an earlier settlement, when its
  job settles and is not submitted again (`ObserverSafety`, `WitnessStrandedObserver`).
- Tag counts stay exact even when a tag is named both ways, unless an existing video of the batch loses the tag while a
  new one gains it (`BatchExactIff`). The input validator that refuses such lists excludes this case. An overwriting
  migration deletes its target's occupant without counting, which is harmless exactly when that carries no tag
  (`DisplaceOccupant`).
- A one-level recalculation records an unrecorded sub-directory as empty, and is right in size if and only if it is (`DirectSizeIff`).
- The free-name search changes the extension of names such as `film.mkv.`, which end in a bare dot (`ExtensionKeptIff`).
- Converting an S3 path to a key is not idempotent when a second slash follows the pseudo name (`ToFsIdempotentIff`);
  a local mount that is the root directory itself finds no file (`MountFindsItsFilesIff`).


## Model

| member | source | states |
|---|---|---|
| `MigrationProtocol.NoDataLoss` | src/features/migration/migration_service.py:516-685 | in every run of any number of migrations, with crashes between any two updates, recoveries, retries, cancels, copy failures, failed saves and lock-respecting deletes, under A1 to A4, the original bytes of each one nobody has taken over are complete at its source or at its target |
| `MigrationProtocol.StatusTellsTruth` | src/platform/jobs/state_machine.py:49-56 | in the same runs the persisted status and a queued ticket's start tell the truth about the files: which are whole, that some record stands at the target from DB_UPDATED on, and that the phase to resume at finds what it needs |
| `MigrationRecords.RecordTellsTruth` | src/features/migration/migration_service.py:607-633 | whose record: from its creation on, over every run of any number of migrations in which nothing endangers it, a migration at DB_UPDATED, DELETING_SOURCE or COMPLETED has the record of the video it was created for at the target, in the target's category |
| `MigrationRivals.RecordStaysTrueIff` | src/features/migration/migration_service.py:623-627 | in every state good runs lead to while nobody is let go of, with any number of migrations in progress and startup over or not, that stays so in all further runs if and only if it is not threatened: it overwrites, may still come back, and its whole source file is registered as another video |
| `MigrationProtocol.StepKeepsInv` | src/platform/jobs/state_machine.py:188-246 | one event of the whole system keeps every due promise, keeps due migrations apart, and keeps startup forgivable |
| `MigrationProtocol.ActKeepsInv` | src/features/migration/migration_service.py:539-685 | a step of one migration breaks no other one's promise |
| `MigrationProtocol.CreateKeepsInv` | src/features/migration/migration_service.py:221-276 | admission: the source exists, an occupied target was put up for overwriting, the unique indexes admit it; a new migration disturbs no due one |
| `MigrationProtocol.OutsideKeepsInv` | src/features/catalog/catalog_service.py:579-607 | a delete that found no lock, a browse that registers a file, and a new file break no due promise |
| `MigrationProtocol.UnsettledStaysDue` | src/features/migration/migration_service.py:396-422 | while a migration is unsettled nothing that happens can take its files over |
| `MigrationProtocol.CreatedIff` | src/features/migration/migration_service.py:221-276 | created if and only if the source is there, the target is free or put up for overwriting, and no unsettled migration has the same source or the same target |
| `MigrationProtocol.RetriedIff` | src/features/migration/migration_service.py:327-353 | a failed migration is taken back if and only if the same two indexes admit it |
| `MigrationProtocol.DeletedIff` | src/features/catalog/catalog_service.py:579-607 | a video is deleted, record and file and nothing else, if and only if no unsettled migration has its path |
| `MigrationProtocol.RegisteredIff` | src/features/browsing/browse_file_service.py:302-368 | a browse registers a file, and changes nothing else, if and only if it is there without a record and no unsettled migration has its path |
| `MigrationProtocol.ReleasedIff` | src/features/catalog/catalog_service.py:579-607 | a promise is given up exactly when somebody deletes the video at one of the paths, or starts a migration on one of them after it has settled |
| `MigrationResumption.DonePhasesAreNotRepeated` | src/platform/jobs/state_machine.py:49-56 | a phase that the persisted status, or the step a failure was blamed on, says is done is not run again by the restart or any retry until the next crash: no copying from PROCESS_DONE on, no looking up or moving of records from DB_UPDATED on |
| `MigrationResumption.OtherPhasesAreRun` | src/platform/jobs/state_machine.py:212-246 | every phase not recorded as done, and of a new migration all three, is run to its end before COMPLETED is reached |
| `MigrationResumption.CancelStopsTheCopy` | src/features/migration/migration_service.py:551-577 | a request to stop while it copies, or just before, is taken: it moves no further chunk and ends CANCELLED, unless the copy ran to its end or something failed |
| `MigrationResumption.CancelledInTheQueue` | src/features/migration/migration_service.py:300-307 | a request to stop before a worker has taken its ticket is taken: it is settled at once, and no worker ever touches it |
| `MigrationResumption.CancelledOnlyIfAsked` | src/features/migration/migration_service.py:573-581 | whatever breaks, dies or is retried, a migration nobody asked to stop does not end CANCELLED |
| `MigrationResumption.CancelComesTooLate` | src/features/migration/migration_service.py:556-581 | a request that comes once every byte is copied is taken too, but in no good run does that migration then end CANCELLED |
| `MigrationResumption.FailedRetryHasTidiedUp` | src/features/migration/migration_service.py:344-351 | a retry whose save fails, or that the indexes refuse, leaves the migration as it was, but has deleted what stood at the target where the copy is to be repeated |
| `MigrationSafety.StepKeepsOk` | src/platform/jobs/state_machine.py:212-246 | every step of one migration, whatever its outcome, keeps its promise, except a failed save of COMPLETED and a restart over PENDING without a source |
| `MigrationSafety.CopyKeepsOk` | src/features/migration/migration_service.py:547-584 | the copy loop: the target is always the prefix copied so far, and the whole source when the loop ends |
| `MigrationSafety.StepIsLocal` | src/features/migration/migration_service.py:77-84 | a step touches files and records at the migration's own two paths only |
| `MigrationSafety.WorkerStepsRunOut` | src/features/migration/migration_service.py:556-584 | every worker step lowers a bound made of phases left and bytes left |
| `MigrationSafety.WorkerNeverStuck` | src/platform/jobs/state_machine.py:212-246 | a running migration always has a next step that is not a failing save |
| `MigrationLimits.CompletedKeepsBytesIff` | src/features/migration/migration_service.py:191-276 | A1 is exact, over runs: a migration that deleted its source and completed has kept the bytes if and only if its two paths differ, staged or not and whatever the size |
| `MigrationLimits.OpenKeepsBytesIff` | src/features/migration/migration_service.py:556-572 | where a local file is lost first: the one step that opens the target keeps the bytes if and only if the paths differ or the file is empty |
| `MigrationLimits.RestartKeepsPromiseIff` | src/platform/jobs/state_machine.py:163-180 | A3 is exact: a restart keeps the promise, and the bytes, if and only if it does not find PENDING with the source gone |
| `MigrationLimits.FailedSaveKeepsBytesIff` | src/platform/jobs/state_machine.py:233-245 | A4 is exact: a failed save followed by a retry keeps the bytes unless the save was that of COMPLETED with the source deleted |
| `MigrationLimits.RetryKeepsPromiseIff` | src/features/migration/migration_service.py:327-353 | a retry looks at no file: it restores the promise if and only if the phase it resumes at finds what it needs, and its tidying up keeps the bytes if and only if the source still holds them |
| `MigrationLimits.WitnessSameFile` | src/features/migration/migration_service.py:221-276 | a run without A1, on either kind of storage, that completes with the file gone |
| `MigrationLimits.WitnessSourceReusedAsTarget` | src/features/migration/migration_task.py:54-73 | a run without A2, admitted by the indexes, that loses the bytes |
| `MigrationLimits.WitnessSecondCrash` | src/platform/jobs/state_machine.py:175-177 | a run without A3, two crashes, that loses the bytes |
| `MigrationLimits.WitnessCompletedSaveFails` | src/platform/jobs/state_machine.py:235-239 | a run without A4 that loses the bytes |
| `MigrationLimits.WitnessRivalTakesTheRecord` | src/features/migration/migration_service.py:623-631 | a run within A1 to A4 in which a file registered at a failed migration's source displaces the migrated video's record |
| `MigrationBystanders.StartKeepsBytesIff` | src/features/migration/migration_service.py:573-581 | A2 where a migration starts, or a retry goes back to the copy, on a path of another one: its own steps keep the other's bytes in every run if and only if they also stand whole at the other's other path |
| `MigrationBystanders.CreateOverSourceKeepsBytesIff` | src/features/migration/migration_task.py:54-73 | A2 for creating, in the protocol: a new migration over the source of an unsettled one, which the indexes admit, keeps the other's bytes in every run of its own steps if and only if the other's copy is whole |
| `MigrationBystanders.FinishKeepsBytesIff` | src/features/migration/migration_service.py:607-685 | A2 where a migration ends: one that has its copy behind it, its source a path of another one, keeps the other's bytes in every run of its own steps if and only if they also stand whole at the other's other path, or it cannot move the record it finds |
| `MigrationBystanders.CreateOverSourceLosesBytes` | src/features/migration/migration_task.py:54-73 | whose bytes: such a creation has a continuation within A1, A3 and A4 that loses the other's as long as the other's copy is not whole, and one that loses its own once the other has its copy behind it and no third record in its way |
| `MigrationBystanders.WitnessRetryTakesTheTarget` | src/features/migration/migration_service.py:344 | a run within A1 to A4 but for its last step, a retry whose tidying up deletes the target at which another migration has completed |
| `MigrationBystanders.BystanderSurvivesIff` | src/features/migration/migration_service.py:86-107 | a file no migration is using survives all that happens without anybody asking for it, crashes and overlaps included, if and only if no failed migration has its target there |
| `MigrationConvergence.CrashConvergence` | src/features/migration/migration_service.py:590-685 | any two uncancelled, unfailed lives of one migration that complete, however often each was interrupted, end in the same files, record and category |
| `MigrationConvergence.SingleCrashConverges` | src/platform/jobs/state_machine.py:143-182 | cut an uninterrupted run anywhere and crash there: recovery can finish, in exactly the state of the uninterrupted run |
| `MigrationConvergence.RecoverAndFinish` | src/platform/jobs/state_machine.py:157-182 | from wherever a forgivable crash left it there is a way to COMPLETED |
| `MigrationLiveness.NoStrandedTask` | src/platform/jobs/state_machine.py:91-112 | while the saves that end a run succeed, every unsettled migration is queued, in a worker, or between its insert or reset and its submit |
| `MigrationLiveness.LetsGoIff` | src/platform/jobs/state_machine.py:226-246 | the proviso is exact: these two failing saves, of FAILED and of a queued cancellation, are possible, and are the only steps of a worker that let go of an unsettled migration |
| `MigrationLiveness.WorkerStepsAreBounded` | src/platform/jobs/state_machine.py:212-246 | between crashes and retries one migration's worker takes at most the bounded number of steps, in every interleaving |
| `MigrationService.DbUpdateIsIdempotent` | src/features/migration/migration_service.py:611-633 | repointing twice leaves the records as repointing once |
| `MigrationService.EveryCutIsSafe` | src/features/migration/migration_service.py:539-685 | cut the log of the imperative phases anywhere, failed saves included: the bytes are complete at source or target |
| `MigrationService.Worker.UpdateTaskStatus` | src/platform/jobs/state_machine.py:240-245 | a save, of COMPLETED too, writes exactly the status and moves on, or changes nothing persisted and blames the step |
| `MigrationService.Worker.CleanupTarget` | src/features/migration/migration_service.py:481-485 | best effort: the target is gone or untouched, nothing else changes |
| `MigrationService.Worker.CopyAll` | src/features/migration/migration_service.py:547-572 | the copy loop ends with the whole source at the target, or stopped or broken |
| `MigrationService.Worker.ExecuteProcessing` | src/features/migration/migration_service.py:539-584 | phase 1 ends with the target whole, or cancelled or failed with only the target path touched |
| `MigrationService.Worker.ExecuteDbUpdate` | src/features/migration/migration_service.py:607-633 | phase 2 leaves the records repointed, accepts an already moved record, and fails when there is none |
| `MigrationService.Worker.ExecuteFsCleanup` | src/features/migration/migration_service.py:654-685 | phase 3 removes at most the source and warns exactly when it could not; it fails before the deletion with the files as they were, or after it when only the save of COMPLETED failed |
| `MigrationService.Worker.RunStateMachine` | src/platform/jobs/state_machine.py:212-246 | the phases from a resume point on, each update logged as a step of the protocol; where only the save of COMPLETED failed, all is done and the copy is blamed |
| `MigrationRuntime.NothingLostNobodyForgotten` | src/platform/jobs/task_runner.py:265-317 | protocol and runner together: no bytes lost, and each unsettled migration is in the queue, in a worker, or about to be submitted |
| `MigrationRuntime.OneWorkerPerTask` | src/platform/jobs/task_runner.py:278-295 | what runs in the protocol is exactly what the runner lists, one worker each, no more than the pool |
| `MigrationRuntime.SubmitIsNeverIgnored` | src/platform/jobs/task_runner.py:169-177 | a planned migration is never mistaken for a duplicate submission |
| `MigrationRuntime.PickStartsWhereTheTicketSays` | src/platform/jobs/task_runner.py:279-285 | a ticket is never stale, and the run starts at the phase it names |
| `MigrationRuntime.NeverStuck` | src/platform/jobs/task_runner.py:278-295 | while anybody runs or waits, taken over or not, some worker can take a step that lets go of nobody unsettled |
| `MigrationRuntime.RunnerKeepsOut` | src/features/migration/migration_service.py:278-353 | clients, the rest of the catalogue and recovery can do under the runner exactly what the protocol lets them |
| `MigrationRuntime.WatchingIsAPureRead` | src/platform/jobs/task_runner.py:207-212 | attaching, reading and leaving are always open and change nothing for migrations, queue or workers |
| `MigrationRuntime.LetGoMeansSettled` | src/platform/jobs/task_runner.py:282-295 | a worker lets go of a migration only in a terminal status |
| `MigrationSettling.EverybodySettles` | src/platform/jobs/task_runner.py:265-317 | from any state with startup over, every run without crash, retry or creation makes at most as many submissions, pick-ups and worker steps as a measure over all migrations says (phases, bytes and tickets left); where none of these is open, every migration is in a terminal status |
| `MigrationSettling.SystemSettles` | src/platform/jobs/task_runner.py:265-317 | the same after any good run from the start of the process |
| `MigrationSettling.WayToSettle` | src/platform/jobs/task_runner.py:265-317 | and such steps alone can always bring every migration to a terminal status |
| `MigrationSettling.ActLowers` | src/platform/jobs/state_machine.py:212-246 | a migration's own step lowers its share of the measure and raises nobody else's |
| `TaskRunner.ExclusionAndConservation` | src/platform/jobs/task_runner.py:169-188 | in every interleaving: waiting ids are the queue's, once each; waiting and running are disjoint; one worker per running id; at most the pool; nothing accepted is lost; first in, first out |
| `TaskRunner.ObserverSafety` | src/platform/jobs/task_runner.py:344-358 | in every interleaving: who waits has an active job or was told; it is stranded exactly when the last settlement found its channel full and without a marker; until then its channel holds the newest frames |
| `TaskRunner.EndReachesObserverIff` | src/platform/jobs/task_runner.py:344-358 | a settlement puts the marker into a channel with room, and strands a waiting observer if and only if its channel is full and holds no earlier marker |
| `TaskRunner.ShutdownTellsEverybody` | src/platform/jobs/task_runner.py:101-121 | after a shutdown every observer, of a queued, running or finished job, has been told: the marker is in its channel exactly when there was room or an earlier one |
| `TaskRunner.ReadsToTheEnd` | src/platform/jobs/task_runner.py:233-240 | an observer whose channel holds the marker is released by reading on |
| `TaskRunner.ObserverSeesItsTask` | src/platform/jobs/task_runner.py:318-342 | from its attachment on an observer is offered the frames its own job emits, in order and nothing else; while they fit its channel, what it has read and what is held are just these |
| `TaskRunner.ObserverLeavesIff` | src/platform/jobs/task_runner.py:233-259 | an observer leaves exactly when it detaches, finds its job not active as it attaches, or reads the marker |
| `TaskRunner.StrandedStays` | src/platform/jobs/task_runner.py:249-253 | a stranded observer stays so, whatever it reads, until its job is submitted again, it detaches, or the runner shuts down |
| `TaskRunner.WitnessStrandedObserver` | src/platform/jobs/task_runner.py:336-358 | a run of one job, one observer and 64 unread frames that ends with the observer stranded |
| `TaskRunner.PushKeepsNewest` | src/platform/jobs/task_runner.py:336-342 | a full channel drops its oldest frame, never the new one |
| `TaskRunner.Runner.Submit` | src/platform/jobs/task_runner.py:169-177 | the queue, the waiting set and the history after a submission, new or duplicate |
| `TaskRunner.Runner.Take` | src/platform/jobs/task_runner.py:278-282 | the worker loop's head moves the oldest ticket from waiting to running |
| `TaskRunner.Runner.Finish` | src/platform/jobs/task_runner.py:291-295 | the worker loop's end lets go of the id and tells its observers |
| `TaskRunner.Runner.Broadcast` | src/platform/jobs/task_runner.py:336-342 | every observer of the id gets the frame |
| `TaskRunner.Runner.EndAllStreams` | src/platform/jobs/task_runner.py:119-120 | the last part of a shutdown: every channel of every job gets the end push |
| `TaskRunner.Runner.Detach` | src/platform/jobs/task_runner.py:254-259 | only that observer's channel goes, and no empty entry stays |
| `MigrationBrowsing.BrowsingNeverClaimsTheTarget` | src/features/browsing/browse_file_service.py:193-368 | browses (list, lock query, find, upserts) interleaved with an uncancelled, unfailed migration and its crashes never put a rival record at its target, when no browse in flight had either path reported free before it was created |
| `MigrationBrowsing.NeverClaimedIff` | src/features/browsing/browse_file_service.py:193-368 | that proviso, for target and source, is exact: the target stays free of rivals and the record's move open in all runs if and only if it holds |
| `MigrationBrowsing.StaleAnswerClaimsTheTarget` | src/features/browsing/browse_file_service.py:244-251 | an older answer about the target, before or after the look-up, lets the browse insert a rival there |
| `MigrationBrowsing.StaleAnswerTakesTheSource` | src/features/browsing/browse_file_service.py:309-353 | an older answer about the source lets it register the source anew once the record has moved; after a crash the migration moves that record over its own, or is refused |
| `MigrationBrowsing.StaleTargetIsReached` | src/features/browsing/browse_file_service.py:199-247 | such an answer about a target comes about, from no browse and no migration |
| `MigrationBrowsing.StaleSourceIsReached` | src/features/browsing/browse_file_service.py:199-247 | so does one about a source |
| `MigrationBrowsing.HeldIsNotInserted` | src/features/browsing/browse_file_service.py:244-251 | a browse never inserts what it was told is locked, by this migration or another |
| `MigrationBrowsing.InsertedOnce` | src/features/browsing/browse_file_service.py:330-353 | and it inserts each path at most once |
| `MigrationBrowsing.NoneOutlivesTheProcess` | src/features/browsing/browse_file_service.py:199-247 | a browse inserts nothing without having listed in the same process: none survives a crash |
| `MigrationBrowsing.PathLockRegistry.LockedPaths` | src/platform/jobs/path_locks.py:68-75 | exactly the non-empty paths asked about that some provider holds |
| `MigrationBrowsing.BrowseFileService.SyncVideoDocuments` | src/features/browsing/browse_file_service.py:302-368 | exactly the listed files without a record and without a lock get one, each under an id nobody else has and in the category browsed; the records of the listed files are returned |
| `Placement.PlaceIsPlacement` | src/features/catalog/series_service.py:211-224 | the result is a permutation of members and selection, unselected members keep their index, the selection is in the requested order |
| `Placement.PlacementIsUnique` | src/features/catalog/series_service.py:211-224 | a sequence has those properties if and only if it is the placement |
| `Placement.PlaceIsIdempotent` | src/features/catalog/series_service.py:211-224 | placing again changes nothing |
| `SeriesCatalog.SeriesStayConsistent` | src/features/catalog/series_service.py:149-204 | over every sequence of assignments, clearings, deletions and new videos: listed by a series if and only if referring to it, no repeats, no empty series, names unique |
| `SeriesCatalog.AssignKeepsConsistent` | src/features/catalog/series_service.py:149-174 | an assignment keeps both halves consistent |
| `SeriesCatalog.ClearKeepsConsistent` | src/features/catalog/series_service.py:185-194 | a clearing keeps both halves consistent |
| `SeriesCatalog.DeleteKeepsConsistent` | src/features/catalog/series_service.py:196-204 | deleting documents and then detaching keeps both halves consistent |
| `SeriesCatalog.PullMembers` | src/features/catalog/series_service.py:226-246 | a pull takes exactly the ids out of every series but one, and deletes exactly the emptied ones |
| `SeriesCatalog.AssignLeaves` | src/features/catalog/series_service.py:127-174 | an assignment: the target, found by name or new, lists a placement of the selection into its members; every selected video names it, no other reference changes; the other series lose what joined, the rest staying in order |
| `SeriesCatalog.ClearLeaves` | src/features/catalog/series_service.py:176-194 | a clearing: exactly the named videos that exist lose their series and their places, the rest staying in order |
| `SeriesCatalog.DeleteLeaves` | src/features/catalog/series_service.py:196-204 | a deletion: exactly the deleted videos are gone from the documents and from every list, the rest staying in order |
| `SeriesCatalog.AssignChangedIff` | src/features/catalog/series_service.py:156-174 | an assignment reports a change if and only if the stored state changed |
| `SeriesCatalog.ClearChangedIff` | src/features/catalog/series_service.py:187-194 | a clearing reports a change if and only if the stored state changed |
| `SeriesCatalog.SingleEditMovesOnlyTheVideo` | src/features/catalog/catalog_service.py:401-422 | an edit that passed both validators moves no other video, and changes only the old and the target series |
| `SeriesService.SortSorts` | src/features/catalog/catalog_service.py:483 | sorting by order rearranges into ascending order |
| `SeriesService.ValidatedSeriesSequence` | src/features/catalog/catalog_service.py:455-483 | accepted if and only if unambiguous and naming the edited video, and then the ids in ascending order |
| `SeriesService.SeriesStore.ResolveIds` | src/features/catalog/series_service.py:261-273 | exactly the named videos that exist, without repeats, in the order in which each was first named |
| `SeriesService.SeriesStore.PullIds` | src/features/catalog/series_service.py:232-246 | the updates in place are the pull, reported if and only if something changed |
| `SeriesService.SeriesStore.AssignSelection` | src/features/catalog/series_service.py:149-174 | the updates in place are the assignment, consistent, reported if and only if something changed |
| `SeriesService.SeriesStore.ClearSelection` | src/features/catalog/series_service.py:185-194 | the updates in place are the clearing, consistent, reported if and only if something changed |
| `SeriesService.SeriesStore.DeleteVideos` | src/features/browsing/batch_operation_service.py:555-557 | documents first, then the series side: consistent again |
| `SeriesService.SeriesStore.GetVideosInSeries` | src/features/catalog/series_service.py:84-96 | exactly the listed videos that have a document of a valid category; nothing for an empty name or no category |
| `SeriesService.ListedInSeriesOrder` | src/features/catalog/series_service.py:96 | and they stand in series order, at ascending positions of the series |
| `SeriesService.SeriesStore.PositionsOf` | src/features/catalog/series_service.py:107-121 | for exactly the videos in a series, its name and the list index plus one |
| `SeriesService.SeriesStore.OrdersStayWithin` | src/features/catalog/catalog_service.py:509-541 | accepted if and only if every other listed video exists and belongs to the target series |
| `SeriesService.SeriesStore.EditSeries` | src/features/catalog/catalog_service.py:401-423 | refused, changing nothing, exactly when a validator refuses; else only the edited video moves |
| `TagCounts.UpdatedMovesByNet` | src/features/catalog/tag_operation_service.py:43-67 | while no count goes below zero, every count moves by exactly what was accumulated, absent meaning zero |
| `TagCounts.UpdatedTags` | src/features/catalog/tag_operation_service.py:43-67 | which tags have a number afterwards: an increment inserts, a decrement does not, and where anything was decremented only positive numbers stay |
| `TagCounts.TrackedTag` | src/features/catalog/tag_operation_service.py:85-87 | tracking counts the times and keeps the last direction |
| `TagCounts.AccountsKeepsExact` | src/features/catalog/tag_operation_service.py:43-67 | an accumulator that accounts for a change keeps exact counts exact |
| `TagCounts.RetagAccounts` | src/features/browsing/batch_operation_service.py:518-520 | one video's settled tags are accounted for in one pass, the two lists being disjoint |
| `TagCounts.BatchExactIff` | src/features/browsing/batch_operation_service.py:505-522 | after a batch the counts are exact if and only if no tag named both ways is lost by an existing video while a new one gains it |
| `TagCounts.TagStore.TrackTagChange` | src/features/catalog/tag_operation_service.py:85-87 | the accumulator after tracking a set in one direction |
| `TagCounts.TagStore.UpdateTagCounts` | src/features/catalog/tag_operation_service.py:41-67 | the bulk write and the clean-up leave the counts the accumulator asks for |
| `TagCounts.TagStore.EditTags` | src/features/catalog/catalog_service.py:379-430 | exact counts stay exact after a single edit |
| `TagCounts.TagStore.DeleteVideos` | src/features/browsing/batch_operation_service.py:559-563 | exact counts stay exact after a deletion |
| `TagCounts.TagStore.BatchUpdate` | src/features/browsing/batch_operation_service.py:505-545 | a known video carries what it had or is given and is not to lose, a new one what is given, every other one keeps its tags; and the exact condition for exact counts |
| `TagCounts.TagStore.DisplaceOccupant` | src/features/migration/migration_service.py:623-627 | an overwriting migration deletes the occupant's record without counting: the counts stay exact if and only if it carries no tag |
| `DirMetadataService.DirectIsAggregate` | src/features/browsing/dir_metadata_service.py:332-351 | with the sub-directories recorded right, one level gives the full walk's numbers and writes back nothing new |
| `DirMetadataService.DirectSizeIff` | src/features/browsing/dir_metadata_service.py:343-345 | one level never says too much, and says the right size if and only if no unrecorded sub-directory holds video bytes |
| `DirMetadataService.DirectTimeIff` | src/features/browsing/dir_metadata_service.py:343-351 | the same of the time: never too late, and right if and only if no unrecorded sub-directory holds a later video than was seen |
| `DirMetadataService.ListedIs` | src/features/browsing/dir_metadata_service.py:343-345 | what one level writes back: each sub-directory with its record, or with size and time zero |
| `DirMetadataService.ChangesStayInChains` | src/features/browsing/dir_metadata_service.py:375-386 | files changed in any directories make only their ancestor chains stale |
| `DirMetadataService.ClosedHoldsChain` | src/features/browsing/dir_metadata_service.py:376-386 | why the collecting walk may stop early: a set closed under parents holds the whole chain |
| `DirMetadataService.DirMetadata.GetMetadata` | src/features/browsing/dir_metadata_service.py:56-70 | a read through the cache is a read of the database, whatever has expired |
| `DirMetadataService.DirMetadata.SetMetadata` | src/features/browsing/dir_metadata_service.py:85-97 | one record written, cache still coherent |
| `DirMetadataService.DirMetadata.BulkSetMetadata` | src/features/browsing/dir_metadata_service.py:245-273 | all entries written, cache still coherent |
| `DirMetadataService.DirMetadata.CalculateRecursively` | src/features/browsing/dir_metadata_service.py:329-358 | the full walk collects every directory below with its own aggregate, and nothing else |
| `DirMetadataService.DirMetadata.CalculateDirectoryMetadata` | src/features/browsing/dir_metadata_service.py:290-307 | the three ways to ask: recorded, one level, full walk, and what each leaves stored |
| `DirMetadataService.DirMetadata.UpdateForward` | src/features/browsing/dir_metadata_service.py:402-424 | if only the path up from a directory is stale, recomputing along it restores agreement with a full walk everywhere, and ends |
| `DirMetadataService.DirMetadata.CollectChains` | src/features/browsing/dir_metadata_service.py:375-386 | the early-stopping loop collects exactly the ancestor closure up to the logical roots |
| `DirMetadataService.DirMetadata.BatchUpdateForward` | src/features/browsing/dir_metadata_service.py:369-393 | for any set of changed directories, deepest first, agreement is restored everywhere |
| `DirMetadataService.DirMetadata.ChangeFiles` | src/features/catalog/catalog_service.py:599-608 | joined: where all records agree with the storage, a change of files in one directory followed by its forward update leaves all agreeing with the changed storage |
| `DirMetadataService.DirMetadata.ChangeManyFiles` | src/features/browsing/batch_operation_service.py:425-430 | the same for changes in any number of directories and the batched update |
| `DirectoryTree.FilesBecomeLocal` | src/features/browsing/dir_metadata_service.py:332-351 | a change of files moves no directory, and only its directory and those above look different |
| `DirectoryTree.AggregateIsExact` | src/features/browsing/dir_metadata_service.py:329-358 | what a full walk says: the size is the sum over exactly the video files below, at any depth, each once; the time is that of the latest, or zero where there is none |
| `StreamCopy.PartsAreUnique` | src/platform/storage/s3/s3_handler.py:286-317 | the parts sent are the one way to cut the bytes with every part but the last of the minimum size and no needless empty part |
| `StreamCopy.CutAsTheyCome` | src/platform/storage/s3/s3_handler.py:292-306 | cutting while the chunks come in gives the parts of the whole |
| `StreamCopy.ReadFileStreaming` | src/platform/storage/base_resource_handler.py:181-187 | short reads or not, the chunks concatenate to the file, each within the chunk size, and the loop ends; a stream cut short has given a first part of the file |
| `StreamCopy.WriteFileStreaming` | src/platform/storage/s3/s3_handler.py:272-340 | all of the stream arrives as parts 1 to n, n at least 1, with the returned total its length, or the key is as it was and a request failed or the stream was cut short; an upload stays open only if abandoning it failed, or was not tried because the copy itself was cancelled |
| `StreamCopy.CopyToObjectStore` | src/features/migration/migration_service.py:547-572 | a copy across backends delivers the source byte for byte, or leaves the target key alone |
| `StreamCopy.LocalFile.WriteFileStreaming` | src/platform/storage/local_fs/local_fs_handler.py:77-84 | a local write delivers the stream, or leaves a prefix of its bytes, or, when the file cannot be opened, what was there |
| `StreamCopy.LocalFile.CopyFrom` | src/features/migration/migration_service.py:547-572 | a copy to a local file delivers the source byte for byte, or leaves a first part of it, or what was there |
| `UniqueName.ValueOfDecimal` | src/features/migration/migration_service.py:507 | a counter can be read back from its decimal numeral |
| `UniqueName.SplitExtIff` | src/features/migration/migration_service.py:502-504 | root and extension: the extension starts at the last dot, unless only dots come before it |
| `UniqueName.CandidateReads` | src/features/migration/migration_service.py:504-507 | a candidate is the root, the counter written in decimal in brackets, and the extension unless that is only a dot |
| `UniqueName.CandidateInjective` | src/features/migration/migration_service.py:507 | different counters give different names |
| `UniqueName.TriedAreDistinct` | src/features/migration/migration_service.py:505-510 | n tried names are n different names |
| `UniqueName.GenerateUniqueName` | src/features/migration/migration_service.py:502-510 | in a directory of k entries, at most k + 1 tries end with the smallest free candidate |
| `UniqueName.ExtensionKeptIff` | src/features/migration/migration_service.py:502-504 | the new name keeps the extension if and only if no bare dot at the end hides another one |
| `PathText.NormPathIdempotent` | src/platform/storage/local_fs/local_fs_handler.py:171-172 | normalising twice is normalising once |
| `PathText.NormPathLeadsThere` | src/platform/storage/local_fs/local_fs_handler.py:171-172 | the normal form leads to the same place as the path, from everywhere, `..` going up; and keeps the kind of root |
| `PathText.PosixJoinLeads` | src/platform/storage/local_fs/local_fs_handler.py:155-166 | a joined path leads where the second leads from where the first does |
| `PathText.NormPathOfJoin` | src/platform/storage/local_fs/local_fs_handler.py:155-166 | names joined to a base are appended to its normal form, unless that is only a root or a dot |
| `LocalPaths.LogicalToPhysical` | src/platform/storage/local_fs/local_fs_handler.py:144-169 | a logical path converts to the same place under its mount |
| `LocalPaths.UnderMount` | src/platform/storage/local_fs/local_fs_handler.py:111-142 | a normal path under a mount converts to the same place under its pseudo name |
| `LocalPaths.MountIs` | src/platform/storage/local_fs/local_fs_handler.py:99-109 | in a container a mount lies under root, category and pseudo name; outside, at the configured host directory |
| `LocalPaths.DbOfFsIff` | src/platform/storage/local_fs/local_fs_handler.py:111-169 | from logical to physical and back is the identity if and only if the mount holds the file (it is not a bare root) and no earlier mount does |
| `LocalPaths.FsOfDb` | src/platform/storage/local_fs/local_fs_handler.py:111-169 | from physical to logical and back is the identity on every normal absolute path, root mounts or not |
| `LocalPaths.ToDbIdempotent` | src/platform/storage/local_fs/local_fs_handler.py:111-142 | converting to logical form twice converts once |
| `LocalPaths.ToFsIdempotent` | src/platform/storage/local_fs/local_fs_handler.py:144-169 | converting to physical form twice converts once |
| `LocalPaths.MountFindsItsFilesIff` | src/platform/storage/local_fs/local_fs_handler.py:122-142 | a mount finds every file joined under it if and only if it is not a bare root, whatever the other mounts |
| `LocalPaths.RootMountFindsNothing` | src/platform/storage/local_fs/local_fs_handler.py:122-142 | a mount that is the root itself is never the one a file is found under |
| `S3Paths.DbOfFsIff` | src/platform/storage/s3/s3_handler.py:345-376 | from logical path to key and back is the identity if and only if the path has a pseudo name, no second slash after it and none at its end |
| `S3Paths.FsOfDb` | src/platform/storage/s3/s3_handler.py:345-376 | from key to logical path and back is the identity but for slashes at the end |
| `S3Paths.FsOfLogical` | src/platform/storage/s3/s3_handler.py:367-376 | the key of a clean logical path is its rest under the video prefix, a bare pseudo name ending in a slash |
| `S3Paths.DbOfKey` | src/platform/storage/s3/s3_handler.py:345-365 | the logical path of a key is its rest under the category, without slashes at the end |
| `S3Paths.ToDbIdempotent` | src/platform/storage/s3/s3_handler.py:345-365 | converting to logical form twice converts once, for every text that converts |
| `S3Paths.ToFsIdempotentIff` | src/platform/storage/s3/s3_handler.py:367-376 | converting to a key twice converts once if and only if no absolute path hides behind the pseudo name |

## Left out

- MigrationProtocol.NoDataLoss: says nothing about a migration in `released` or about the old occupant of an overwritten target; by-directory batches, which do not check the locks (src/resolvers/subscription_resolver.py:88-124), are not among the events.
- MigrationProtocol.OutsideKeepsInv: the lock test, the deletion of the record and that of the file are one step (A5).
- MigrationProtocol.StatusTellsTruth: the record at the target may be another video's; MigrationRecords.RecordTellsTruth says when it is not. CANCELLED says little, because cancelling a PENDING migration that is to resume late leaves its record at the target.
- MigrationRivals.RecordStaysTrueIff: says nothing of states in which an unsettled migration has been let go of (see MigrationLiveness.NoStrandedTask); there A3 may forbid the crash that brings it back.
- MigrationSettling.EverybodySettles: a file that appears at the source of a migration in progress is excluded, since what is being copied keeps its size (A5); so are the failed saves named under MigrationLiveness.NoStrandedTask.
- MigrationSafety.StepKeepsOk: finding and deleting the displaced record of an overwrite are one step.
- MigrationBystanders.FinishKeepsBytesIff: the moments between looking a record up and writing it back, and those in which a failure is being recorded, are not among its starting points.
- MigrationBystanders.BystanderSurvivesIff: a file at the source of a failed migration is taken to be that migration's own.
- MigrationConvergence.CrashConvergence: the series of an overwritten record is not part of the compared state; a crash between deleting that record and detaching it leaves its id listed.
- MigrationService.Worker.ExecuteFsCleanup: refreshing the two directories' aggregates and detaching a displaced record are not repeated here; DirMetadataService and SeriesCatalog model them.
- MigrationLiveness.NoStrandedTask: a failed planning pass, and a failed save of FAILED or of a queued cancellation, let go of an unsettled migration until the next start; such steps are excluded.
- MigrationProtocol.RetriedIff: a worker's save over a cancellation, which makes a settled migration unsettled again, is not checked against the unique indexes.
- MigrationBrowsing.BrowseFileService.SyncVideoDocuments: a record is an id and a category; durations and the other fields are left out.
- TaskRunner.ObserverSafety: the opening frame is left out; it may be stale after a retry.
- SeriesCatalog.SeriesStayConsistent: each write is taken as a whole; interleaved partial writes of one assignment and races between whole-document saves are not modelled.
- SeriesService.SeriesStore.EditSeries: ids that are no well-formed object ids and database errors are left out.
- TagCounts.TagStore.UpdateTagCounts: a partly failed bulk write is not modelled.
- DirMetadataService.DirMetadata.UpdateForward: walks that raise (the -1.0 sentinel), cache outages and interleaved updates are left out, sizes and times are integers, and the early return for a category among the logical roots is omitted because a root always has two parts.
- StreamCopy.WriteFileStreaming: the service's own cap on the number of parts, and a cancellation of the copy while a request is in flight, are not modelled.
- UniqueName.GenerateUniqueName: a directory is the set of its entry names; file systems that fold case are not modelled.
- LocalPaths.FsOfDb: text without backslashes on POSIX; Windows path rules are not modelled. Beside a mount that is the root itself, paths with exactly two leading slashes are excluded.
- The front end, the GraphQL schema and resolvers, wiring, settings and logging: transport and user interface.
- MongoDB, Redis, boto3, aiofiles and asyncio: maps, atomic saves, and awaits as step boundaries.
- Video probing, thumbnails and durations: foreign processes.
- HTTP range parsing: it does not follow section 14.1.2 of RFC 9110 for suffix ranges, so there is no conformance to state.
- Search, suggestions, directory flags, view counts and the preflight report: they would only add easy members.
