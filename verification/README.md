# WorkCall Transcriber: a verified model

WorkCall Transcriber is a desktop program that watches an Inbox for call recordings, moves or copies each one
into an archive, transcribes it in a separate GPU worker process and keeps every job in a SQLite table. Its hard
promises are about crashes: the application or the worker may die at any moment, and still no recording is lost,
no second worker is started, and a restart accepts exactly what had been finished.

This project models that program in Dafny and proves those promises. `dafny verify dfyconfig.toml` checks all of it.

## How it is laid out

| files | what they hold |
|---|---|
| `Models`, `Text`, `Timestamps` | job records, text order and decimal numbers, ISO timestamps |
| `Database`, `Repository` | one function per SQLite transaction, what holds whatever order they come in, and the repository object that runs them |
| `WorkerRunner`, `JobProtocol`, `JobSafety` | process ownership; the launch, stop and orphan-recovery protocol as a transition system; its invariant and the safety results |
| `LaunchFailures` | runs from the empty installation to two live workers, when a launch that is given up leaves its child alive |
| `ImportProtocol`, `ImportSafety` | importing as steps on rows and files, with crashes between any two; conservation and exact recovery |
| `JoinedProtocol` | both protocols over one job table; what holds of rows, files and processes together |
| `ImportHost`, `Archive`, `Stability`, `QueueService`, `Controller` | the imperative code of the importer, the queue and the controller, running on that protocol one step at a time |
| `Manifests`, `WorkerRun`, `Results` | one worker run with every way it can end; the manifest; the two routes by which a result reaches its row |
| `SpeakerProfiles`, `SpeakerMatching`, `Exports` | speaker centroids and matching over the reals; subtitle rendering and reading back |

The protocol of processes and the protocol of imports are two transition systems over the same job table functions.
`JoinedProtocol` runs them over one table and proves that each meets what the other demands: an import step is an
enabled table step of the job protocol with the same result, and what the job protocol writes is a step of the import
protocol. A `Host` object holds the durable state of the second one: its methods can only change it by enabled protocol steps,
it logs every state passed through, and between steps it lets the user and the other threads act. A method's log is
therefore the list of every state a crash inside it could leave behind, and the invariant holds in each of them.

## What is assumed

- A process inspection or listing that answers, answers truthfully; a terminator that reports success has killed the
  process; a worker is one process; there is one application instance.
- Splitting a Windows command line succeeds (a command is held as its arguments).
- A database transaction raises only where a parameter or a step of the model says so: while a pid is recorded, a launch is
  given up, a worker is reaped or an import is finished. A raising one changes nothing.
- A launch that is given up leaves no child alive. The program ignores the result of the terminator called after a pid
  could not be recorded, and terminates nothing when the thread that watches the child cannot be started;
  `JobSafety.UndoKeepsInvIff`, `JobSafety.WatchRaisesKeepsInvIff` and `LaunchFailures` say exactly what depends on it.
- Nobody rewrites a source while it is being imported, and nobody else writes into the archive.
- SHA-256 is injective, so a digest is modelled as the content itself; reads made to verify a file succeed.
- Retry, stop and manual enqueue are serialised with each other on the user-interface thread.
- Reals stand for floating-point numbers; any function with `root(x) >= 0` and `root(x) * root(x) == x` stands for `sqrt`.

## What turned out not to hold

Each of these is stated with the input that breaks it, or with the exact condition under which it holds.

- The transition table alone does not keep one row in processing (`Database.DirectProcessing`).
- A worker that is launched but cannot be recorded, or not be watched, is not always gone afterwards
  (`JobSafety.UndoKeepsInvIff`, `JobSafety.WatchRaisesKeepsInvIff`), and runs from the empty installation then end with
  two workers (`LaunchFailures.FailedUndoCostsSafety`, `LaunchFailures.UnwatchedCostsSafety`).
- A database error while an import is finished is caught by no handler: the row stays importing, during a start the start
  is cut off, and the next start decides the row (`QueueService.QueueService.RecoverImportingJobs`).
- A completed manifest is not final: an event that cannot be written turns it into a failure
  (`WorkerRun.CompletedManifestStays`, `WorkerRun.BrokenPipeOverwrites`).
- A retry leaves the manifest of the attempt before in place. If that is a done result of the job, a run can be cut off
  with a truncated export that recovery restores as completed; otherwise no run can (`Results.SoundUnlessRetried`). A
  retry that finds a complete result has such a moment exactly when it gets as far as opening the TXT file, even if it
  completes in the end (`Results.RetryIsUnsoundIff`). `Results.RetryRestoresStaleResult` is a case, step by step.
- The event and the manifest can record different columns (`Results.CompletedRoutesAgree`, `Results.FailedRoutesAgree`).
- Subtitles can be read back exactly when no name and no text contains a newline (`Exports.SrtDecodes`,
  `Exports.VttDecodes`). A blank line and a whole timing line inside a text even make one segment pass for two
  (`Exports.NewlineHidesCue`).

## Model

| member | source | states |
|---|---|---|
| JobSafety.NeverTwoWorkers | src/workcall_transcriber/controller.py:195-356 | in every run, with crashes, restarts, worker exits and pid reuse anywhere, at most one worker is alive, and a launch happens only when none is |
| JobSafety.RunsKeepInv | src/workcall_transcriber/controller.py:92-118 | every reachable state keeps the invariant over rows, processes, threads and held-back rows, startup included |
| JobSafety.TableIsConsistent | src/workcall_transcriber/database.py:353-371 | in every reachable state one row at most is in processing, a pid is on no other row, a live runner child has its row in processing, and rows queued with their archive columns keep them |
| JobSafety.FailureBranchesUnreachable | src/workcall_transcriber/controller.py:199-207 | given that rows are queued with their archive columns, the archive_missing and worker_busy branches are dead code |
| JoinedProtocol.TableShadows | src/workcall_transcriber/queue_service.py:273-297 | every move, note and retry the import code makes is an enabled table step of the job protocol with the same table, archive columns included |
| JoinedProtocol.ImportShadows | src/workcall_transcriber/queue_service.py:181-236 | so is every detection, start of an import, intent and archive record |
| JoinedProtocol.StoreShadows | src/workcall_transcriber/queue_service.py:181-297 | seen from the job protocol, every step of importing, recovery and retry is one of its enabled table steps with the same result, or changes nothing |
| JoinedProtocol.WorkMoves | src/workcall_transcriber/controller.py:195-410 | whatever startup, launching, stopping, finishing and orphan recovery write to the table is a step the import protocol allows |
| JoinedProtocol.RunsKeepInv | src/workcall_transcriber/controller.py:92-118 | in every run of the joined system both invariants hold over one table |
| JoinedProtocol.WorkersHaveTheirRecordings | src/workcall_transcriber/controller.py:195-219 | in every run there is at most one live worker, its row is in processing, and the accepted recording it works on is published, byte for byte |
| JoinedProtocol.QueuedRowsAreArchived | src/workcall_transcriber/queue_service.py:273-297 | in every run a row queued or in processing has both archive columns and its accepted recording on disk, with nothing assumed of the steps that queue it |
| JoinedProtocol.FailureBranchesUnreachable | src/workcall_transcriber/controller.py:199-207 | the archive_missing and worker_busy branches are dead code in every run of the joined system |
| JobSafety.ClaimStartsWithoutPid | src/workcall_transcriber/database.py:353-371 | a row that is claimed, again or for the first time, carries no pid of an earlier attempt |
| JobSafety.UndoKeepsInvIff | src/workcall_transcriber/worker_runner.py:160-169 | undoing a launch whose pid could not be recorded is safe exactly when the child is dead afterwards |
| JobSafety.WatchRaisesKeepsInvIff | src/workcall_transcriber/worker_runner.py:170-177 | giving up a launch whose watcher could not be started is safe exactly when the child is dead |
| LaunchFailures.FailedUndoAdmitsSecondWorker | src/workcall_transcriber/worker_runner.py:160-169 | when that terminator fails, the next three ordinary steps start a second worker |
| LaunchFailures.FailedUndoCostsSafety | src/workcall_transcriber/worker_runner.py:160-169 | a run from the empty installation exists in which that failure is the only unreliable step and which ends with two workers |
| LaunchFailures.UnwatchedCostsSafety | src/workcall_transcriber/worker_runner.py:170-177 | the same for a watcher that cannot be started: the row is given up, and after a crash the next start looks for no worker and launches a second |
| WorkerRunner.ExactForOneJob | src/workcall_transcriber/worker_runner.py:421-437 | a process can be the exact worker of one job only |
| WorkerRunner.RecordedVerdict | src/workcall_transcriber/worker_runner.py:193-222 | a verdict on a recorded pid permits recovery only if the job has no live worker, and names no other process for termination |
| WorkerRunner.UnrecordedVerdict | src/workcall_transcriber/worker_runner.py:224-257 | the same for a process listing, when no pid was recorded |
| WorkerRunner.RecordedDecides | src/workcall_transcriber/worker_runner.py:193-222 | a full and truthful answer about a recorded pid names the worker for termination if it is there, and otherwise lets the row go, the pid free or reused |
| WorkerRunner.UnrecordedDecides | src/workcall_transcriber/worker_runner.py:224-257 | a listing without a match lets the row go, a single match is the process named for termination |
| WorkerRunner.Runner.Start | src/workcall_transcriber/worker_runner.py:104-177 | what a launch leaves in the process table and in the runner, on each of its five ways to end |
| WorkerRunner.Runner.StopCurrent | src/workcall_transcriber/worker_runner.py:179-187 | only the live child of this runner is terminated |
| WorkerRunner.Runner.StopOrphanedWorker | src/workcall_transcriber/worker_runner.py:193-222 | recovery is permitted only once the recorded worker is gone; one pid at most is terminated, which was that worker's when inspected, and workers may exit and pids be reused in between |
| WorkerRunner.Runner.StopUnrecordedWorker | src/workcall_transcriber/worker_runner.py:224-257 | recovery is permitted only once no worker of the job is left; after Stopped it was the one listed match, the only process that could be the worker, that was terminated |
| Database.TransitionEffect | src/workcall_transcriber/database.py:250-263 | what a legal transition changes in its row, its three times and its pid included, and what it leaves alone, there and elsewhere |
| Database.LegalMovesOnly | src/workcall_transcriber/database.py:28-65 | a transition succeeds exactly for the moves an import, a run, a failure or a cancellation makes, and is refused otherwise |
| Database.ClaimEffect | src/workcall_transcriber/database.py:353-371 | a claim moves the first queued row, and only while no row is in processing |
| Database.RestoreEffect | src/workcall_transcriber/database.py:373-413 | a durable result replaces status, result and error columns, finishing time and pid of a row in processing, and nothing its import recorded |
| Database.SettledForever | src/workcall_transcriber/database.py:28-65 | completed, completed-with-warnings and duplicate rows keep their status through any calls with any arguments |
| Database.NoRetryOneActivePerSource | src/workcall_transcriber/database.py:157-203 | without retries, any sequence of calls keeps at most one active row per source |
| Database.ExecKeepsOneProcessing | src/workcall_transcriber/database.py:47-49 | no call but a transition that names PROCESSING can put a second row there |
| Database.DirectProcessing | src/workcall_transcriber/database.py:47-49 | such a transition keeps the rule exactly when no row is in processing |
| Database.ClaimLowersRank | src/workcall_transcriber/database.py:361-368 | each claim moves every job still queued up by exactly one place |
| Database.AheadShrinks | src/workcall_transcriber/database.py:584-590 | whatever call runs, with a clock that moves forward nothing gets in front of a job that stays in the queue |
| Database.NoStarvation | src/workcall_transcriber/database.py:353-371 | over any sequence of calls, no more jobs are claimed before a waiting one than were in front of it |
| Database.ClaimIsOldest | src/workcall_transcriber/database.py:361-368 | no queued job was queued at an earlier instant than the one claimed |
| Database.TiesGoToFirstDetected | src/workcall_transcriber/database.py:361-368 | of jobs queued at the same instant the one detected first is claimed, then the one with the lesser id |
| Timestamps.TextOrderIsTimeOrder | src/workcall_transcriber/database.py:670-671 | the order of stored timestamps as text is the order of the instants, although microseconds are left out when zero |
| Repository.JobRepository.UpdateRow | src/workcall_transcriber/database.py:570-604 | the loops that build the assignment list write exactly the specified row, and nothing on an error |
| Repository.JobRepository.Detect | src/workcall_transcriber/database.py:157-203 | the newest active row for the path is reused, otherwise one waiting row is added with what was seen and when, and nothing else recorded |
| Repository.JobRepository.Transition | src/workcall_transcriber/database.py:250-263 | the new table and each error are those of the transition specification |
| Repository.JobRepository.ClaimNextQueued | src/workcall_transcriber/database.py:353-371 | the new table and the claimed id are those of the claim specification |
| Repository.JobRepository.RestoreTerminalFromManifest | src/workcall_transcriber/database.py:373-413 | the new table and each error are those of the restore specification |
| Repository.JobRepository.RecoverAfterRestart | src/workcall_transcriber/database.py:426-450 | afterwards no row is importing, the rows in processing are exactly the held-back ones among those before, every changed row is interrupted with its code and keeps what its attempt recorded, and the count is the number of rows that were importing or in processing and not held back |
| Repository.JobRepository.Retry | src/workcall_transcriber/database.py:452-485 | each error exactly when the row is unknown or not retryable, with nothing written; otherwise the row is queued at once or waits without an observation, forgets the attempt before, and keeps what its import recorded |
| ImportSafety.RecordingsSurvive | src/workcall_transcriber/archive.py:64-100 | in every run, crashing after any primitive, the bytes of each accepted recording are at its source or at a published archive target, unless the user changed the source while no copy was published |
| ImportSafety.OnlyUserReleases | src/workcall_transcriber/queue_service.py:372-380 | in every run a recording is given up only after a step in which the user changed its source while no copy was published |
| ImportSafety.PublishedForever | src/workcall_transcriber/archive.py:123-140 | a published original is never overwritten and never removed in any run |
| ImportSafety.SourcesAreRespected | src/workcall_transcriber/archive.py:64-100 | outside the archive a step changes nothing but takes away the source of an Inbox job whose bytes are published; a manual source never changes |
| ImportSafety.DirectoriesAreNotShared | src/workcall_transcriber/archive.py:45-62 | in every run no two imports have the same archive directory, although all an import checks is that it made its own |
| ImportSafety.RecoveryIsExact | src/workcall_transcriber/queue_service.py:341-369 | on a first attempt the archived original is accepted exactly when the accepted recording has been published (a manual one also needs its hash or its unchanged source) |
| ImportSafety.RunsKeepInv | src/workcall_transcriber/queue_service.py:181-297 | every reachable state of importing, recovery and retry keeps the invariant over rows, files and accepted recordings |
| ImportHost.ActsKeep | src/workcall_transcriber/controller.py:169-193 | whatever other threads and the user do in between leaves the row being imported, its source and the archive as they were |
| Archive.ArchiveManager.CreateJobDirectory | src/workcall_transcriber/archive.py:45-58 | the search for a free name ends, after no more tries than there are directories, with the first free one |
| Archive.CandidatesDiffer | src/workcall_transcriber/archive.py:53-57 | two suffixes never give the same name |
| Archive.ArchiveManager.CopyVerified | src/workcall_transcriber/archive.py:123-140 | a copy is published exactly when every step works and the copied bytes are the source's; the source is intact either way |
| Archive.ArchiveManager.ImportInbox | src/workcall_transcriber/archive.py:64-86 | success means published and the source gone; failure means the source is intact, unless only reading the published original back failed |
| Archive.ArchiveManager.CopyManual | src/workcall_transcriber/archive.py:88-100 | the source is intact on every path; success means published |
| Stability.StableMeansQuiet | src/workcall_transcriber/stability.py:65-111 | a STABLE verdict means the file opens and probes, and one earlier observation, a whole window ago, since when every pass saw the same size and time |
| Stability.VerdictsExactly | src/workcall_transcriber/stability.py:65-111 | the exact condition of each of the seven verdicts, and that only a file seen as new is observed anew |
| Stability.ChangeRestartsWindow | src/workcall_transcriber/stability.py:65-111 | after a change, or after a retry that imports again, a whole new window has to pass |
| QueueService.QueueService.AdvanceWaitingJob | src/workcall_transcriber/queue_service.py:181-246 | a file is imported exactly when it has held still for the window, opens and probes; otherwise nothing is accepted and no file changes, and the row fails, is cancelled or keeps waiting. An import leaves the row queued or a duplicate with its recording archived, or failed with the accepted recording intact at its source or published, or, after a database error, importing with its recording archived |
| QueueService.QueueService.ImportInto | src/workcall_transcriber/queue_service.py:214-236 | the acceptance is recorded before any byte moves, and afterwards the recording is intact or published |
| QueueService.QueueService.FinishImport | src/workcall_transcriber/queue_service.py:273-297 | over four transactions: the row is a duplicate exactly when at the look some completed job had the same bytes and the row, as read with its hash, is not a manual one to be reprocessed, otherwise queued; if one raises, the row is still importing |
| QueueService.QueueService.RetryJob | src/workcall_transcriber/queue_service.py:126-129 | a retry of a finished row queues it at once exactly when its archived original is in its directory with its recorded hash, or without a hash vouched for by its source or by its recorded size; it forgets the pid, and touches no file and no other row |
| ImportProtocol.VerifiedIsAuthentic | src/workcall_transcriber/queue_service.py:341-369 | for a row of any status and any retry count, the verification rule accepts an archived original exactly under that condition, with its directory, size and bytes |
| QueueService.QueueService.RemoveVerifiedInboxSource | src/workcall_transcriber/queue_service.py:372-380 | the source of an Inbox job is removed exactly when it lies in the built-in Inbox, has the verified bytes and can be unlinked; no other file changes |
| QueueService.QueueService.RecoverImportingJobs | src/workcall_transcriber/queue_service.py:248-271 | every importing row is decided, each in a state of the log in which it was still untouched, queued or set aside exactly when its original verified there; a row whose finishing raises stays importing and ends the recovery with the rows after it untouched; no other row changes |
| QueueService.RecoveredExactly | src/workcall_transcriber/queue_service.py:248-271 | end to end, a first attempt left importing is queued or set aside exactly when its recording had been published, otherwise interrupted |
| Controller.WorkCallController.Start | src/workcall_transcriber/controller.py:92-118 | after startup no row is importing, the rows in processing are exactly the ones held back and carry the code and message of the hold, every usable final manifest found in a row's directory is applied, the rest are interrupted, nothing else changed, and both counts are the numbers of rows moved; or what holds of every row when a database error cut it off in an import |
| Controller.WorkCallController.StopRecordedOrphanedWorkers | src/workcall_transcriber/controller.py:274-301 | a row in processing is held back exactly when asking about its worker raised or left it unconfirmed, or no pid was recorded and the lease could not be checked or is not free; held rows are marked with code and message, no other row changes |
| Controller.LetGoIsSafe | src/workcall_transcriber/controller.py:326-340 | with truthful answers a row that is let go has no worker, and if no pid was recorded nobody holds the lease |
| Controller.WorkCallController.RecoverCompletedManifests | src/workcall_transcriber/queue_service.py:131-152 | the results of exactly the rows not held back are applied and counted |
| Controller.WorkCallController.OnWorkerFinished | src/workcall_transcriber/controller.py:358-410 | the row and the kept events are what the event route specifies, in one transaction or two |
| WorkerRun.Worker.RunJob | src/workcall_transcriber/worker.py:269-460 | for every combination of outcomes: the result, the terminal events, the final manifest and exports, the lease released on every path, and the exact list of states the directory goes through |
| WorkerRun.RunFailsIff | src/workcall_transcriber/worker.py:436-460 | the call itself fails exactly when removing the temporary files or a handler's event fails, or an interrupt meets the cleaning up or the failure manifest |
| WorkerRun.WarningsExactly | src/workcall_transcriber/worker.py:310-371 | which failures a run survives, progress reports included, and the warning codes it then has, in order |
| WorkerRun.CompletedWithWarningsIff | src/workcall_transcriber/worker.py:373-435 | a completed run says "with warnings" in outcome, event and manifest exactly when alignment, diarization or matching raised or there was no token |
| WorkerRun.CompletedColumns | src/workcall_transcriber/worker.py:300-430 | language, probability, duration and speaker count of a completed run come from the last stage that worked |
| WorkerRun.CompletesIffNothingFails | src/workcall_transcriber/worker.py:284-435 | a run completes exactly when no call on its way fails, alignment and diarization failures aside |
| WorkerRun.OneTerminalEvent | src/workcall_transcriber/worker.py:405-448 | one terminal event is attempted, and it agrees with the outcome, exactly when the completed event can be emitted and the failure manifest is not interrupted |
| WorkerRun.WarningCodesDiffer | src/workcall_transcriber/worker.py:311-371 | no warning shadows another in the manifest |
| WorkerRun.CompletedManifestStays | src/workcall_transcriber/worker.py:403-448 | a completed manifest outlives its run exactly when no raising emit is followed by a failure manifest that lands |
| WorkerRun.BrokenPipeOverwrites | src/workcall_transcriber/worker.py:405-448 | a concrete run in which a completed manifest becomes a failed one and two terminal events are attempted |
| WorkerRun.Worker.WriteTranscriptOutputs | src/workcall_transcriber/exports.py:71-99 | the five exports are written in order, all in full on success, with the manifest untouched throughout |
| Results.CompletedRoutesAgree | src/workcall_transcriber/controller.py:375-390 | for the same completed run, the restored row and the recorded row have the same status, and the same six result columns exactly when no number is infinite, the language is trimmed and the messages are not blank |
| Results.FailedRoutesAgree | src/workcall_transcriber/controller.py:394-401 | for the same failed run the statuses agree, and the error codes exactly when the failure has a code and a message that is not blank |
| Results.EventRouteExactly | src/workcall_transcriber/controller.py:358-401 | a row ends cancelled exactly on a stop by the user or a cancelled event, completed exactly on a completed one, failed otherwise, with the code of the event or worker_crashed; no other row changes |
| Results.CrashPrefixIsSafe | src/workcall_transcriber/queue_service.py:383-437 | cut off at any moment of a first attempt, a run is restored as completed only from its own manifest with all five exports in full |
| Results.SoundUnlessRetried | src/workcall_transcriber/queue_service.py:126-152 | whatever is in the directory, every run of the job, cut off at any state it really goes through, is restored as completed only with five full exports, exactly when what it finds is not a done result with this id and the five names |
| Results.RetryIsUnsoundIff | src/workcall_transcriber/exports.py:71-99 | run by run: a retry that finds a complete result goes through a state that is restored as completed beside a partial export exactly when it opens the TXT file |
| Results.RetryRestoresStaleResult | src/workcall_transcriber/controller.py:365-371 | the failing case: completed but cancelled, retried, claimed, cut off while the TXT file is overwritten, and restored as completed beside a truncated export |
| Results.JoinedTextsAgree | src/workcall_transcriber/queue_service.py:418-424 | the warning texts of event and manifest agree exactly when no message is blank, or a single one is empty |
| Manifests.StripBlank | src/workcall_transcriber/queue_service.py:444-445 | stripping leaves nothing exactly when there is nothing but white space |
| Manifests.StripTrims | src/workcall_transcriber/queue_service.py:444-445 | what is left has been cut out of the text, with only white space around it and none at its ends |
| SpeakerProfiles.FoldReference | src/workcall_transcriber/speaker_profiles.py:61-75 | folding a reference gives the direction of the sum in which the old centroid counts once per reference, a unit vector whose similarity to the new reference is never lower; it fails exactly when the two cancel |
| SpeakerProfiles.CosineBounds | src/workcall_transcriber/speaker_profiles.py:104-112 | similarity exists exactly for equal non-zero dimensions and lies between -1 and 1 |
| SpeakerProfiles.NormalizeUnit | src/workcall_transcriber/speaker_profiles.py:115-119 | normalising fails for the zero vector alone and otherwise gives a unit vector of the same direction |
| SpeakerProfiles.KeysIgnoreCase | src/workcall_transcriber/database.py:503-506 | two names mean one profile exactly when they differ at most in the case of ASCII letters |
| SpeakerProfiles.ProfileTable.Save | src/workcall_transcriber/database.py:497-533 | every save keeps all centroids unit vectors, folds the reference into a known speaker, who keeps id and name, or adds a new one, counts it, touches no other profile, and changes nothing on an error |
| SpeakerMatching.MatchIsClearWinner | src/workcall_transcriber/speaker_profiles.py:28-58 | a match is returned exactly when one profile reaches the threshold and beats every other of its dimension by the margin, with that profile's id, name and similarity |
| SpeakerMatching.OrderDoesNotMatter | src/workcall_transcriber/speaker_profiles.py:41-49 | with a positive margin any permutation of the profiles gives the same answer |
| SpeakerMatching.ScaleDoesNotMatter | src/workcall_transcriber/speaker_profiles.py:104-112 | any positive scaling of the embedding gives the same answer |
| SpeakerMatching.ApplyProfileMatches | src/workcall_transcriber/speaker_profiles.py:78-101 | exactly the segments of matched speakers get the profile's name and the numbers of the match, no raw label changes, and an error leaves every segment alone |
| Exports.Timestamp | src/workcall_transcriber/exports.py:166-172 | the three divisions write the text that reads back as the rounded milliseconds |
| Exports.TimestampRoundTrip | src/workcall_transcriber/exports.py:166-172 | a rendered time denotes exactly its milliseconds, for any number of hours |
| Exports.NearestMillisecond | src/workcall_transcriber/exports.py:167-168 | the rendered time is within half a millisecond of the time, and even on a tie; no time and a negative one are shown as zero |
| Exports.MillisecondsMonotone | src/workcall_transcriber/exports.py:167-168 | a later time is never rendered earlier |
| Exports.RenderSrt | src/workcall_transcriber/exports.py:137-145 | blocks joined by blank lines make the file that is four lines a cue |
| Exports.RenderVtt | src/workcall_transcriber/exports.py:148-159 | the collected lines make the file that is a header and three lines a cue |
| Exports.SingleSegmentFiles | src/workcall_transcriber/exports.py:137-163 | the SRT and the VTT file of one segment, letter by letter: number or header, both times, the shown name and the text |
| Exports.SrtDecodes | src/workcall_transcriber/exports.py:137-145 | the number of cues, their times and their payloads can be read back from an SRT file exactly when no name and no text contains a newline |
| Exports.VttDecodes | src/workcall_transcriber/exports.py:148-159 | the same for a VTT file |
| Exports.NewlineHidesCue | src/workcall_transcriber/exports.py:148-159 | a text with a blank line and a timing line in it makes one segment give the same VTT file, and with the cue number the same SRT file, as two |

## Left out

- The user interface, the tray, the single-instance server, autostart and the PowerShell scripts.
- WhisperX, torch, ffmpeg and ffprobe: each pipeline stage returns, raises or is interrupted as a script says.
- Windows calls: the mutex is one nullable holder, process queries are oracles under the assumptions above.
- SQLite and its SQL text: a transaction is a function on a map of rows, and a failed one changes nothing.
- JSON and CSV text, hashing and temporary files: structured values, content identity and atomic replacement. The TXT and TSV exports are written but their text is not modelled.
- Logging, redaction, settings validation and runtime checks; error texts reach the model already redacted and in lower case.
- The watchdog thread and the scheduler clock: detection, reconciliation and recovery happen at any time.
- Manual enqueue as a method, its duplicate prompt included: it is a detection step of the import protocol.
- The initial manifest written when an import ends: it carries no final status, so recovery never reads it as a result.
- File-name sanitising: a source name is reused in the archive as it is, and a job id consists of the characters a UUID has.
- Free disk space, failing directory creation and failing reads of an import are faults a caller of the model chooses.
- Manifests and exports are no part of the joined system: a result reaches it as the argument of a restore step.
- Infinity in a hand-edited manifest, whose conversion to an integer raises an error recovery does not catch.
- NearestMillisecond: rounding of floating-point products is not modelled, only the rounding to milliseconds.
- NoRetryOneActivePerSource: a retry can bring a second active row for a source, as in the program.
