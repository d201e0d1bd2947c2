/** The launch, finish and orphan-recovery protocol as one transition system: the durable job
    table, the operating system's processes and the threads of the application. Every database
    transaction and every process operation is one step, and between any two steps the
    application may die, a worker may exit and the system may reuse a pid. */
module JobProtocol {
  import opened Models
  import opened Database
  import opened WorkerRunner

  datatype Thread = Ui | Recon

  /** Where a thread is, with the local values it still needs. */
  datatype Task =
    | Idle
    // the orphan check of one row, read with the pid it then had
    | Asking(job: JobId, pid: Option<Pid>)
    | Killing(job: JobId, recorded: bool, victim: Pid)
    | CheckingLease(job: JobId)
    | Cleared(job: JobId)
    | Refused(job: JobId)
    // releasing a row that was held back at startup
    | Restoring(job: JobId)
    | Rereading(job: JobId)
    | Interrupting(job: JobId)
    // launching (reconciliation thread)
    | Claimed(job: JobId)
    | Spawned(job: JobId, child: Pid)
    | Undoing(job: JobId, child: Pid)
    // the pid is recorded, the thread that is to watch the child not yet started
    | Starting(job: JobId, child: Pid)
    | Unlaunched(job: JobId)
    // stopping the current worker (user interface)
    | Stopping(victim: Pid)

  /** The thread that reads one child's output and waits for its exit. */
  datatype Watch = Watch(job: JobId, pid: Pid, cleared: bool)

  /** `start` runs through the first four phases before any other thread exists. */
  datatype Phase = Scan(todo: set<JobId>) | RestoreResults(todo: set<JobId>) | RecoverImports | RecoverRows | Running

  datatype Gui =
    | Down
    | Up(phase: Phase, ui: Task, recon: Task, current: Option<Current>, watch: Option<Watch>, blocked: set<JobId>)

  datatype State = State(jobs: Db, procs: Procs, lease: Option<Pid>, gui: Gui)

  /** What the outside world does. */
  datatype WorldStep =
    | Exit(pid: Pid)
    | OtherProcess(pid: Pid)
    | TakeLease(pid: Pid)
    | Crash
    | Boot

  /** The orphan check of one row, which either thread can be in, and the release of the row. */
  datatype CheckStep =
    | Recheck(job: JobId)
    | Inspect(inspection: Option<Inspection>)
    | List(listing: Option<Listing>)
    | Kill(ok: bool)
    | ReadLease(inactive: bool)
    | GiveUp
    | Release
    | RestoreReleased(final: Option<Final>, at: string)
    | Reread
    | Interrupt(notes: seq<Assign>, at: string)

  /** The rest of `start`. */
  datatype StartupStep =
    | PickOrphan(job: JobId)
    | Hold
    | Pass
    | EndScan
    | RestoreOne(job: JobId, final: Option<Final>, at: string)
    | EndRestore
    | EndImports
    | RecoverAll

  /** Importing, observing and retrying, as far as the job table shows it. */
  datatype TableStep =
    | Detected(newId: JobId, path: Path, origin: JobOrigin, size: nat, mtime: int, at: string, clock: int)
    | Touch(job: JobId, updates: seq<Assign>)
    | Move(job: JobId, target: JobStatus, notes: seq<Assign>, at: string)
    | RetryJob(job: JobId, needsImport: bool, at: string)

  /** `_start_next_job` and `WorkerRunner.start`. */
  datatype LaunchStep =
    | ClaimJob(at: string)
    | ArchiveMissing(notes: seq<Assign>, at: string)
    | AbandonClaim
    | RunnerBusy(notes: seq<Assign>, at: string)
    | LaunchRaises
    | Spawn(pid: Pid)
    | RecordPid
    | RecordRaises
    | Undo(ok: bool)
    | WatchStarts
    | WatchRaises
    | MarkUnlaunched(written: bool, notes: seq<Assign>, at: string)

  /** `stop_current`, `_watch` and `_on_worker_finished`. */
  datatype FinishStep =
    | StopCurrent
    | StopKill(ok: bool)
    | SeeExit
    | Finish(written: bool, target: JobStatus, notes: seq<Assign>, at: string)

  datatype Step =
    | World(world: WorldStep)
    | Check(who: Thread, check: CheckStep)
    | Startup(startup: StartupStep)
    | Table(table: TableStep)
    | Launch(launch: LaunchStep)
    | Finishing(finish: FinishStep)

  // ----- reading a state -----

  predicate IsUp(s: State) { s.gui.Up? }

  predicate IsRunning(s: State) { s.gui.Up? && s.gui.phase.Running? }

  predicate HasStatus(s: State, j: JobId, st: JobStatus) { j in s.jobs && s.jobs[j].status == st }

  predicate HasArchive(job: Job) { job.archiveDir.Some? && job.archivedMedia.Some? }

  function TaskOf(s: State, who: Thread): Task
    requires IsUp(s)
  {
    if who == Ui then s.gui.ui else s.gui.recon
  }

  function WithTask(s: State, who: Thread, t: Task): State
    requires IsUp(s)
  {
    s.(gui := if who == Ui then s.gui.(ui := t) else s.gui.(recon := t))
  }

  predicate CurrentAlive(s: State) {
    IsUp(s) && s.gui.current.Some? && s.gui.current.value.pid in s.procs
    && s.procs[s.gui.current.value.pid] == Worker(s.gui.current.value.job)
  }

  ghost predicate NoWorkers(procs: Procs) { forall p | p in procs :: procs[p] == Other }

  /** During startup the scan is the user-interface thread's; afterwards both may recheck. */
  predicate MayProbe(s: State, who: Thread) {
    IsUp(s) && (s.gui.phase.Running? || (s.gui.phase.Scan? && who == Ui))
  }

  /** The calls to `transition` outside launching and finishing: import outcomes. That a row has its
      archive columns when it is queued, here and on a retry, is a guard of this system; the joined
      system proves that the import and retry code meets it. */
  predicate ImportMove(job: Job, target: JobStatus) {
    match job.status
    case WaitingForStable => target in {Importing, JobStatus.Failed, Cancelled}
    case Importing => (target in {Queued, Duplicate} && HasArchive(job)) || target in {JobStatus.Failed, Interrupted}
    case _ => false
  }

  // ----- the outside world -----

  ghost predicate WorldEnabled(s: State, step: WorldStep) {
    match step
    case Exit(pid) => pid in s.procs
    case OtherProcess(pid) => pid > 0 && pid !in s.procs
    case TakeLease(pid) => pid in s.procs && s.procs[pid].Worker? && s.lease == None
    case Crash => IsUp(s)
    case Boot => s.gui.Down?
  }

  ghost function DoWorld(s: State, step: WorldStep): State
    requires WorldEnabled(s, step)
  {
    match step
    case Exit(pid) => s.(procs := s.procs - {pid}, lease := if s.lease == Some(pid) then None else s.lease)
    case OtherProcess(pid) => s.(procs := s.procs[pid := Other])
    case TakeLease(pid) => s.(lease := Some(pid))
    case Crash => s.(gui := Down)
    case Boot => s.(gui := Up(Scan(WithStatus(s.jobs, Processing)), Idle, Idle, None, None, {}))
  }

  // ----- checking and releasing one row -----

  function Judged(v: Verdict, j: JobId, recorded: bool): Task {
    match v
    case Report(o) =>
      if !PermitsRecovery(o) then Refused(j) else if recorded then Cleared(j) else CheckingLease(j)
    case Terminate(victim) => Killing(j, recorded, victim)
  }

  function RestoreIfFinal(db: Db, j: JobId, final: Option<Final>, at: string): Db {
    if final.None? then db else OrSame(db, RestoreTerminal(db, j, final.value, at))
  }

  function Killed(procs: Procs, pid: Pid, ok: bool): Procs {
    if ok then procs - {pid} else procs
  }

  ghost predicate CheckEnabled(s: State, who: Thread, step: CheckStep) {
    MayProbe(s, who) &&
    var t := TaskOf(s, who);
    match step
    case Recheck(j) => s.gui.phase.Running? && t == Idle && HasStatus(s, j, Processing) && j in s.gui.blocked
    case Inspect(i) => t.Asking? && t.pid.Some? && (i.Some? ==> TruthfulInspection(s.procs, t.pid.value, i.value))
    case List(l) => t.Asking? && t.pid.None? && (l.Some? ==> TruthfulListing(s.procs, l.value))
    case Kill(ok) => t.Killing?
    case ReadLease(inactive) => t.CheckingLease? && (inactive ==> s.lease == None)
    case GiveUp => s.gui.phase.Running? && t.Refused?
    case Release => s.gui.phase.Running? && t.Cleared?
    case RestoreReleased(final, at) => t.Restoring?
    case Reread => t.Rereading? && t.job in s.jobs
    case Interrupt(notes, at) => t.Interrupting? && All(Note, notes)
  }

  ghost function DoCheck(s: State, who: Thread, step: CheckStep): State
    requires CheckEnabled(s, who, step)
  {
    var t := TaskOf(s, who);
    match step
    case Recheck(j) => WithTask(s, who, Asking(j, s.jobs[j].workerPid))
    case Inspect(i) => WithTask(s, who, Judged(JudgeRecorded(t.pid.value, i, t.job), t.job, true))
    case List(l) => WithTask(s, who, Judged(JudgeUnrecorded(l, t.job), t.job, false))
    case Kill(ok) =>
      var next := if !ok then Refused(t.job) else if t.recorded then Cleared(t.job) else CheckingLease(t.job);
      WithTask(s.(procs := Killed(s.procs, t.victim, ok)), who, next)
    case ReadLease(inactive) => WithTask(s, who, if inactive then Cleared(t.job) else Refused(t.job))
    case GiveUp => WithTask(s, who, Idle)
    case Release => WithTask(s.(gui := s.gui.(blocked := s.gui.blocked - {t.job})), who, Restoring(t.job))
    case RestoreReleased(final, at) =>
      WithTask(s.(jobs := RestoreIfFinal(s.jobs, t.job, final, at)), who, Rereading(t.job))
    case Reread => WithTask(s, who, if s.jobs[t.job].status == Processing then Interrupting(t.job) else Idle)
    case Interrupt(notes, at) =>
      WithTask(s.(jobs := OrSame(s.jobs, Transition(s.jobs, t.job, Interrupted, notes, at))), who, Idle)
  }

  // ----- startup -----

  ghost predicate StartupEnabled(s: State, step: StartupStep) {
    IsUp(s) && !s.gui.phase.Running? &&
    match step
    case PickOrphan(j) => s.gui.phase.Scan? && j in s.gui.phase.todo && j in s.jobs && s.gui.ui == Idle
    case Hold => s.gui.phase.Scan? && s.gui.ui.Refused? && s.gui.ui.job in s.jobs
    case Pass => s.gui.phase.Scan? && s.gui.ui.Cleared?
    case EndScan => s.gui.phase == Scan({}) && s.gui.ui == Idle
    case RestoreOne(j, final, at) => s.gui.phase.RestoreResults? && j in s.gui.phase.todo
    case EndRestore => s.gui.phase == RestoreResults({})
    case EndImports => s.gui.phase.RecoverImports?
    case RecoverAll => s.gui.phase.RecoverRows?
  }

  ghost function DoStartup(s: State, step: StartupStep): State
    requires StartupEnabled(s, step)
  {
    match step
    case PickOrphan(j) =>
      s.(gui := s.gui.(phase := Scan(s.gui.phase.todo - {j}), ui := Asking(j, s.jobs[j].workerPid)))
    case Hold =>
      s.(jobs := OrSame(s.jobs, Update(s.jobs, s.gui.ui.job, HoldNotes())),
         gui := s.gui.(ui := Idle, blocked := s.gui.blocked + {s.gui.ui.job}))
    case Pass => s.(gui := s.gui.(ui := Idle))
    case EndScan => s.(gui := s.gui.(phase := RestoreResults(WithStatus(s.jobs, Processing) - s.gui.blocked)))
    case RestoreOne(j, final, at) =>
      s.(jobs := RestoreIfFinal(s.jobs, j, final, at), gui := s.gui.(phase := RestoreResults(s.gui.phase.todo - {j})))
    case EndRestore => s.(gui := s.gui.(phase := RecoverImports))
    case EndImports => s.(gui := s.gui.(phase := RecoverRows))
    case RecoverAll => s.(jobs := RecoverAfterRestart(s.jobs, s.gui.blocked), gui := s.gui.(phase := Running))
  }

  // ----- the rest of the job table -----

  ghost predicate TableEnabled(s: State, step: TableStep) {
    IsUp(s) &&
    match step
    case Detected(_, _, _, _, _, _, _) => s.gui.phase.Running?
    case Touch(j, updates) => j in s.jobs && All(Mutable, updates) && !NamesPid(updates)
    case Move(j, target, notes, at) =>
      (s.gui.phase.Running? || s.gui.phase.RecoverImports?)
      && j in s.jobs && ImportMove(s.jobs[j], target) && All(Note, notes)
    case RetryJob(j, needsImport, at) =>
      s.gui.phase.Running? && s.gui.ui == Idle && j in s.jobs && (!needsImport ==> HasArchive(s.jobs[j]))
  }

  ghost function DoTable(s: State, step: TableStep): State
    requires TableEnabled(s, step)
  {
    match step
    case Detected(newId, path, origin, size, mtime, at, clock) =>
      s.(jobs := Detect(s.jobs, newId, path, origin, size, mtime, at, clock))
    case Touch(j, updates) => s.(jobs := OrSame(s.jobs, Update(s.jobs, j, updates)))
    case Move(j, target, notes, at) => s.(jobs := OrSame(s.jobs, Transition(s.jobs, j, target, notes, at)))
    case RetryJob(j, needsImport, at) => s.(jobs := OrSame(s.jobs, Retry(s.jobs, j, needsImport, at)))
  }

  // ----- launching -----

  ghost predicate LaunchEnabled(s: State, step: LaunchStep) {
    IsRunning(s) &&
    var t := s.gui.recon;
    match step
    case ClaimJob(at) => t == Idle
    case ArchiveMissing(notes, at) => t.Claimed? && t.job in s.jobs && !HasArchive(s.jobs[t.job]) && All(Note, notes)
    case AbandonClaim => t.Claimed?
    case RunnerBusy(notes, at) => t.Claimed? && CurrentAlive(s) && All(Note, notes)
    case LaunchRaises => t.Claimed? && !CurrentAlive(s)
    case Spawn(pid) => t.Claimed? && !CurrentAlive(s) && pid > 0 && pid !in s.procs
    case RecordPid => t.Spawned? && t.job in s.jobs
    case RecordRaises => t.Spawned?
    case Undo(ok) => t.Undoing?
    case WatchStarts => t.Starting?
    case WatchRaises => t.Starting?
    case MarkUnlaunched(written, notes, at) => t.Unlaunched? && All(Note, notes)
  }

  ghost function DoLaunch(s: State, step: LaunchStep): State
    requires LaunchEnabled(s, step)
  {
    var t := s.gui.recon;
    match step
    case ClaimJob(at) =>
      var (db, claimed) := Claim(s.jobs, at);
      s.(jobs := db, gui := if claimed.Some? then s.gui.(recon := Claimed(claimed.value)) else s.gui)
    case ArchiveMissing(notes, at) =>
      s.(jobs := OrSame(s.jobs, Transition(s.jobs, t.job, JobStatus.Failed, notes, at)), gui := s.gui.(recon := Idle))
    case AbandonClaim => s.(gui := s.gui.(recon := Idle))
    case RunnerBusy(notes, at) =>
      s.(jobs := OrSame(s.jobs, Transition(s.jobs, t.job, Interrupted, notes, at)), gui := s.gui.(recon := Idle))
    case LaunchRaises => s.(gui := s.gui.(recon := Unlaunched(t.job)))
    case Spawn(pid) =>
      s.(procs := s.procs[pid := Worker(t.job)],
         gui := s.gui.(recon := Spawned(t.job, pid), current := Some(Current(t.job, pid))))
    case RecordPid =>
      s.(jobs := OrSame(s.jobs, Update(s.jobs, t.job, [SetWorkerPid(Some(t.child))])),
         gui := s.gui.(recon := Starting(t.job, t.child)))
    case RecordRaises => s.(gui := s.gui.(recon := Undoing(t.job, t.child), current := None))
    case Undo(ok) => s.(procs := Killed(s.procs, t.child, ok), gui := s.gui.(recon := Unlaunched(t.job)))
    case WatchStarts => s.(gui := s.gui.(recon := Idle, watch := Some(Watch(t.job, t.child, false))))
    case WatchRaises => s.(gui := s.gui.(recon := Unlaunched(t.job)))
    case MarkUnlaunched(written, notes, at) =>
      s.(jobs := if written then OrSame(s.jobs, Transition(s.jobs, t.job, JobStatus.Failed, notes, at)) else s.jobs,
         gui := s.gui.(recon := Idle))
  }

  // ----- stopping and finishing -----

  ghost predicate FinishEnabled(s: State, step: FinishStep) {
    IsRunning(s) &&
    match step
    case StopCurrent => s.gui.ui == Idle && CurrentAlive(s) && !s.gui.recon.Spawned? && !s.gui.recon.Undoing?
    case StopKill(ok) => s.gui.ui.Stopping?
    case SeeExit =>
      && s.gui.watch.Some? && !s.gui.watch.value.cleared && !s.gui.recon.Spawned?
      && !(s.gui.watch.value.pid in s.procs && s.procs[s.gui.watch.value.pid] == Worker(s.gui.watch.value.job))
    case Finish(written, target, notes, at) =>
      && s.gui.watch.Some? && s.gui.watch.value.cleared && All(Note, notes)
      && target in {Completed, CompletedWithWarnings, JobStatus.Failed, Cancelled}
  }

  ghost function DoFinish(s: State, step: FinishStep): State
    requires FinishEnabled(s, step)
  {
    match step
    case StopCurrent => s.(gui := s.gui.(ui := Stopping(s.gui.current.value.pid)))
    case StopKill(ok) => s.(procs := Killed(s.procs, s.gui.ui.victim, ok), gui := s.gui.(ui := Idle))
    case SeeExit =>
      var w := s.gui.watch.value;
      var mine := s.gui.current == Some(Current(w.job, w.pid));
      s.(gui := s.gui.(watch := Some(w.(cleared := true)), current := if mine then None else s.gui.current))
    case Finish(written, target, notes, at) =>
      var j := s.gui.watch.value.job;
      s.(jobs := if written && HasStatus(s, j, Processing) then OrSame(s.jobs, Transition(s.jobs, j, target, notes, at)) else s.jobs,
         gui := s.gui.(watch := None))
  }

  // ----- runs -----

  ghost predicate Enabled(s: State, step: Step) {
    match step
    case World(w) => WorldEnabled(s, w)
    case Check(who, c) => CheckEnabled(s, who, c)
    case Startup(u) => StartupEnabled(s, u)
    case Table(t) => TableEnabled(s, t)
    case Launch(l) => LaunchEnabled(s, l)
    case Finishing(f) => FinishEnabled(s, f)
  }

  ghost function Do(s: State, step: Step): State
    requires Enabled(s, step)
  {
    match step
    case World(w) => DoWorld(s, w)
    case Check(who, c) => DoCheck(s, who, c)
    case Startup(u) => DoStartup(s, u)
    case Table(t) => DoTable(s, t)
    case Launch(l) => DoLaunch(s, l)
    case Finishing(f) => DoFinish(s, f)
  }

  /** Fresh installation: an empty job table and no worker. */
  ghost predicate Init(s: State) { s.jobs == map[] && NoWorkers(s.procs) && s.gui.Down? }

  /** The child of a launch in progress is running. */
  predicate ChildAlive(s: State) {
    IsUp(s) && (s.gui.recon.Spawned? || s.gui.recon.Undoing? || s.gui.recon.Starting?)
    && s.gui.recon.child in s.procs && s.procs[s.gui.recon.child].Worker?
  }

  /** What the protocol relies on without looking: a launch that is given up leaves no child alive.
      The terminator called after the pid could not be recorded may fail, and a child whose watcher
      could not be started is not terminated at all. */
  predicate Reliable(s: State, step: Step) {
    step.Launch? && ((step.launch.Undo? && !step.launch.ok) || step.launch.WatchRaises?) ==> !ChildAlive(s)
  }

  ghost predicate Run(states: seq<State>, steps: seq<Step>) {
    && |states| == |steps| + 1
    && forall i :: 0 <= i < |steps| ==> Enabled(states[i], steps[i]) && states[i + 1] == Do(states[i], steps[i])
  }
}
