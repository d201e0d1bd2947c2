/** What every run of the job protocol keeps: one worker at most, one row in processing, a pid
    only on that row, and a live worker only for the row that still records it. */
module JobSafety {
  import opened Models
  import opened Database
  import opened WorkerRunner
  import opened JobProtocol

  // ----- the invariant -----

  /** What the job table and the processes keep, whether or not the application is up. */
  ghost predicate Durable(db: Db, procs: Procs) {
    && OneProcessing(db)
    && (forall j | j in db :: db[j].workerPid.Some? ==> db[j].status == Processing)
    && (forall j | j in db :: db[j].status in {Queued, Processing} ==> HasArchive(db[j]))
    && (forall p | p in procs && procs[p].Worker? :: Recorded(db, procs[p].job, p))
    && (forall p, q | p in procs && q in procs :: procs[p].Worker? && procs[q].Worker? ==> p == q)
  }

  predicate Recorded(db: Db, j: JobId, p: Pid) {
    j in db && db[j].status == Processing && db[j].workerPid in {None, Some(p)}
  }

  predicate Launching(t: Task) { t.Claimed? || t.Spawned? || t.Undoing? || t.Starting? || t.Unlaunched? }

  /** The row whose worker this application is launching, running or reaping. */
  function Owned(g: Gui): Option<JobId>
    requires g.Up?
  {
    if Launching(g.recon) then Some(g.recon.job)
    else if g.watch.Some? then Some(g.watch.value.job)
    else None
  }

  ghost predicate OwnedInv(s: State)
    requires IsUp(s)
  {
    var g := s.gui;
    && (Owned(g).Some? ==>
          g.phase.Running? && HasStatus(s, Owned(g).value, Processing) && Owned(g).value !in g.blocked)
    && (Launching(g.recon) ==> g.watch == None)
    && (g.recon.Claimed? || g.recon.Spawned? || g.recon.Undoing? ==> s.jobs[g.recon.job].workerPid == None)
    && (g.recon.Starting? ==> s.jobs[g.recon.job].workerPid == Some(g.recon.child))
    && (g.recon.Claimed? || g.recon.Unlaunched? ==> NoWorkers(s.procs))
    && (g.recon.Spawned? || g.recon.Starting? ==> g.current == Some(Current(g.recon.job, g.recon.child)))
    && (g.recon.Undoing? ==> g.current == None)
    && (g.recon.Spawned? || g.recon.Undoing? || g.recon.Starting? ==> OnlyWorker(s.procs, g.recon.child))
    && (g.watch.Some? ==>
          && s.jobs[g.watch.value.job].workerPid == Some(g.watch.value.pid)
          && (g.watch.value.cleared ==> NoWorkers(s.procs))
          && g.current == if g.watch.value.cleared then None else Some(Current(g.watch.value.job, g.watch.value.pid)))
    && (g.watch == None && !g.recon.Spawned? && !g.recon.Starting? ==> !CurrentAlive(s))
  }

  ghost predicate OnlyWorker(procs: Procs, pid: Pid) {
    forall p | p in procs :: procs[p].Worker? ==> p == pid
  }

  predicate Probing(t: Task) { t.Asking? || t.Killing? || t.CheckingLease? || t.Cleared? || t.Refused? }

  predicate Releasing(t: Task) { t.Restoring? || t.Rereading? || t.Interrupting? }

  /** A thread that checks or releases a row: as long as the row is in processing it is nobody's
      launch, and once recovery is permitted its worker is gone. */
  ghost predicate CheckInv(s: State, t: Task)
    requires IsUp(s)
  {
    Probing(t) || Releasing(t) ==>
      && t.job in s.jobs
      && (HasStatus(s, t.job, Processing) ==> Owned(s.gui) != Some(t.job))
      && (t.Asking? && HasStatus(s, t.job, Processing) ==> s.jobs[t.job].workerPid == t.pid)
      && (t.Killing? ==> OnlyAt(s.procs, t.job, t.victim))
      && (t.CheckingLease? || t.Cleared? || Releasing(t) ==> NoWorker(s.procs, t.job))
      && (Releasing(t) ==> t.job !in s.gui.blocked)
  }

  ghost predicate GuiInv(s: State)
    requires IsUp(s)
  {
    var g := s.gui;
    && OwnedInv(s)
    && CheckInv(s, g.ui) && CheckInv(s, g.recon)
    && (forall j | j in g.blocked :: HasStatus(s, j, Processing))
    // only the reconciliation thread launches, only the user interface stops
    && !Launching(g.ui)
    && !g.recon.Stopping?
    // a row the user interface is checking cannot have been queued again meanwhile
    && (Probing(g.ui) || Releasing(g.ui) ==> s.jobs[g.ui.job].status !in {WaitingForStable, Importing, Queued})
    && (!g.phase.Running? ==> StartupInv(s))
  }

  /** During startup every worker that may still be alive belongs to a row not yet decided on. */
  ghost predicate StartupInv(s: State)
    requires IsUp(s)
  {
    var g := s.gui;
    && g.recon == Idle
    && (g.phase.Scan? ==> forall j | j in g.phase.todo :: HasStatus(s, j, Processing))
    && (Probing(g.ui) ==> HasStatus(s, g.ui.job, Processing))
    && (g.phase.RestoreResults? ==> g.phase.todo !! g.blocked && forall j | j in g.phase.todo :: j in s.jobs)
    && (if g.phase.Scan? then g.ui == Idle || Probing(g.ui) else g.ui == Idle)
    && (forall p | p in s.procs && s.procs[p].Worker? ::
          s.procs[p].job in g.blocked
          || (g.phase.Scan? && s.procs[p].job in g.phase.todo)
          || (Probing(g.ui) && !g.ui.Cleared? && g.ui.job == s.procs[p].job))
  }

  ghost predicate Inv(s: State) {
    Durable(s.jobs, s.procs) && (IsUp(s) ==> GuiInv(s))
  }

  // ----- small facts -----

  /** One row changes: enough that it enters no new status that needs more than it has, and
      leaves PROCESSING only without a worker. */
  ghost predicate SafeRowChange(db: Db, r: Db, procs: Procs, j: JobId) {
    && j in db && r.Keys == db.Keys && (forall k | k in db && k != j :: r[k] == db[k])
    && (r[j].status == Processing ==> db[j].status == Processing && r[j].workerPid == db[j].workerPid)
    && (r[j].workerPid.Some? ==> r[j].status == Processing)
    && (r[j].status in {Queued, Processing} ==> HasArchive(r[j]))
    && (db[j].status == Processing && r[j].status != Processing ==> NoWorker(procs, j))
  }

  lemma RowChangeKeepsDurable(db: Db, r: Db, procs: Procs, j: JobId)
    requires Durable(db, procs) && SafeRowChange(db, r, procs, j)
    ensures Durable(r, procs)
  {
    forall p | p in procs && procs[p].Worker? ensures Recorded(r, procs[p].job, p) {
      assert Recorded(db, procs[p].job, p);
    }
  }

  /** Moving a row keeps everything a settled or unclaimed row needs. */
  lemma TransitionIsSafe(db: Db, procs: Procs, j: JobId, target: JobStatus, notes: seq<Assign>, at: string)
    requires Durable(db, procs) && j in db && All(Note, notes)
    requires target != Processing && (target == Queued ==> HasArchive(db[j]))
    requires db[j].status == Processing ==> NoWorker(procs, j)
    ensures var r := OrSame(db, Transition(db, j, target, notes, at));
      && SafeRowChange(db, r, procs, j) && Durable(r, procs)
      && (target in Allowed(db[j].status) ==> r[j].status == target)
      && (target !in Allowed(db[j].status) ==> r == db)
  {
    var r := OrSame(db, Transition(db, j, target, notes, at));
    if target in Allowed(db[j].status) {
      TransitionEffect(db, j, target, notes, at);
    } else {
      NotesAreMutable(notes);
    }
    RowChangeKeepsDurable(db, r, procs, j);
  }

  lemma RestoreIsSafe(db: Db, procs: Procs, j: JobId, final: Option<Final>, at: string)
    requires Durable(db, procs) && j in db && NoWorker(procs, j)
    ensures var r := RestoreIfFinal(db, j, final, at);
      && SafeRowChange(db, r, procs, j) && Durable(r, procs)
      && (r[j].status == Processing || db[j].status != Processing ==> r == db)
      && (r != db ==> r[j].status in {Completed, CompletedWithWarnings, JobStatus.Failed})
  {
    var r := RestoreIfFinal(db, j, final, at);
    if final.Some? && db[j].status == Processing && final.value.status in {Completed, CompletedWithWarnings, JobStatus.Failed} {
      RestoreEffect(db, j, final.value, at);
    }
    RowChangeKeepsDurable(db, r, procs, j);
  }

  lemma FewerProcs(db: Db, procs: Procs, fewer: Procs)
    requires Durable(db, procs) && fewer.Keys <= procs.Keys && forall p | p in fewer :: fewer[p] == procs[p]
    ensures Durable(db, fewer)
  {
    forall p | p in fewer && fewer[p].Worker? ensures Recorded(db, fewer[p].job, p) {
      assert Recorded(db, procs[p].job, p);
    }
  }

  // ----- every step keeps the invariant -----

  lemma TouchIsSafe(db: Db, procs: Procs, j: JobId, updates: seq<Assign>)
    requires Durable(db, procs) && j in db && All(Mutable, updates) && !NamesPid(updates)
    ensures var r := OrSame(db, Update(db, j, updates));
      && SafeRowChange(db, r, procs, j) && Durable(r, procs)
      && r[j].status == db[j].status && r[j].workerPid == db[j].workerPid
  {
    UpdateEffect(db, j, updates);
    ApplyMutable(db[j], updates);
    RowChangeKeepsDurable(db, OrSame(db, Update(db, j, updates)), procs, j);
  }

  /** A row step leaves every thread's facts intact if it does not take a row away from its
      owner, its hold, or the user-interface thread that is checking it. */
  lemma RowChangeKeepsInv(s: State, db: Db, j: JobId)
    requires Inv(s) && IsUp(s) && SafeRowChange(s.jobs, db, s.procs, j)
    requires Owned(s.gui) == Some(j) || j in s.gui.blocked ==> db[j].status == s.jobs[j].status
    requires (Probing(s.gui.ui) || Releasing(s.gui.ui)) && s.gui.ui.job == j
         ==> db[j].status !in {WaitingForStable, Importing, Queued}
    requires s.gui.phase.Scan? ==> db[j].status == s.jobs[j].status
    ensures Inv(s.(jobs := db))
  {
    RowChangeKeepsDurable(s.jobs, db, s.procs, j);
    RowChangeKeepsChecks(s, db, j, s.gui.ui);
    RowChangeKeepsChecks(s, db, j, s.gui.recon);
  }

  lemma RowChangeKeepsChecks(s: State, db: Db, j: JobId, t: Task)
    requires IsUp(s) && SafeRowChange(s.jobs, db, s.procs, j) && CheckInv(s, t)
    ensures CheckInv(s.(jobs := db), t)
  {
  }

  /** A thread may forget what it was doing, or move on along a release. */
  lemma TaskChangeKeepsInv(s: State, who: Thread, t: Task)
    requires Inv(s) && IsRunning(s)
    requires Probing(TaskOf(s, who)) || Releasing(TaskOf(s, who))
    requires t == Idle || (Releasing(TaskOf(s, who)) && Releasing(t) && t.job == TaskOf(s, who).job)
    ensures Inv(WithTask(s, who, t))
  {
    if who == Ui { UiTaskKeepsInv(s, t); } else { ReconTaskKeepsInv(s, t); }
  }

  lemma UiTaskKeepsInv(s: State, t: Task)
    requires Inv(s) && IsRunning(s) && (Probing(s.gui.ui) || Releasing(s.gui.ui))
    requires t == Idle || (Releasing(s.gui.ui) && Releasing(t) && t.job == s.gui.ui.job)
    ensures Inv(s.(gui := s.gui.(ui := t)))
  {
  }

  lemma ReconTaskKeepsInv(s: State, t: Task)
    requires Inv(s) && IsRunning(s) && (Probing(s.gui.recon) || Releasing(s.gui.recon))
    requires t == Idle || (Releasing(s.gui.recon) && Releasing(t) && t.job == s.gui.recon.job)
    ensures Inv(s.(gui := s.gui.(recon := t)))
  {
  }

  lemma FewerProcsKeepInv(s: State, fewer: Procs)
    requires Inv(s) && fewer.Keys <= s.procs.Keys && forall p | p in fewer :: fewer[p] == s.procs[p]
    ensures Inv(s.(procs := fewer))
  {
    FewerProcs(s.jobs, s.procs, fewer);
  }

  lemma WorldKeepsInv(s: State, step: WorldStep)
    requires Inv(s) && WorldEnabled(s, step)
    ensures Inv(DoWorld(s, step))
  {
    match step
    case Exit(pid) => FewerProcsKeepInv(s, s.procs - {pid});
    case OtherProcess(pid) => OtherProcessKeepsInv(s, pid);
    case Boot => BootKeepsInv(s);
    case _ =>
  }

  lemma OtherProcessKeepsInv(s: State, pid: Pid)
    requires Inv(s) && pid !in s.procs
    ensures Inv(s.(procs := s.procs[pid := Other]))
  {
    OtherIsDurable(s.jobs, s.procs, pid);
    if IsUp(s) {
      OtherKeepsOwned(s, pid);
      OtherKeepsChecks(s, pid, s.gui.ui);
      OtherKeepsChecks(s, pid, s.gui.recon);
    }
  }

  lemma OtherKeepsOwned(s: State, pid: Pid)
    requires IsUp(s) && OwnedInv(s) && pid !in s.procs
    ensures OwnedInv(s.(procs := s.procs[pid := Other]))
  {
  }

  lemma OtherKeepsChecks(s: State, pid: Pid, t: Task)
    requires IsUp(s) && CheckInv(s, t) && pid !in s.procs
    ensures CheckInv(s.(procs := s.procs[pid := Other]), t)
  {
  }

  lemma OtherIsDurable(db: Db, procs: Procs, pid: Pid)
    requires Durable(db, procs) && pid !in procs
    ensures Durable(db, procs[pid := Other])
  {
    var more := procs[pid := Other];
    forall p | p in more && more[p].Worker? ensures Recorded(db, more[p].job, p) {
      assert p in procs && Recorded(db, procs[p].job, p);
    }
  }

  lemma BootKeepsInv(s: State)
    requires Inv(s)
    ensures Inv(s.(gui := Up(Scan(WithStatus(s.jobs, Processing)), Idle, Idle, None, None, {})))
  {
    forall p | p in s.procs && s.procs[p].Worker? ensures s.procs[p].job in WithStatus(s.jobs, Processing) {
      assert Recorded(s.jobs, s.procs[p].job, p);
    }
  }

  // ----- the orphan check -----

  /** A probing thread may move on to any stage whose facts hold. */
  lemma ProbeKeepsInv(s: State, who: Thread, t: Task)
    requires Inv(s) && MayProbe(s, who) && ProbeMove(s, TaskOf(s, who), t)
    ensures Inv(WithTask(s, who, t))
  {
    if who == Ui { UiProbeKeepsInv(s, t); } else { ReconProbeKeepsInv(s, t); }
  }

  ghost predicate ProbeMove(s: State, from: Task, t: Task) {
    && Probing(from) && Probing(t) && !t.Asking? && t.job == from.job
    && (t.Killing? ==> OnlyAt(s.procs, t.job, t.victim))
    && (t.CheckingLease? || t.Cleared? ==> NoWorker(s.procs, t.job))
  }

  lemma UiProbeKeepsInv(s: State, t: Task)
    requires Inv(s) && MayProbe(s, Ui) && ProbeMove(s, s.gui.ui, t)
    ensures Inv(s.(gui := s.gui.(ui := t)))
  {
  }

  lemma ReconProbeKeepsInv(s: State, t: Task)
    requires Inv(s) && MayProbe(s, Recon) && ProbeMove(s, s.gui.recon, t)
    ensures Inv(s.(gui := s.gui.(recon := t)))
  {
  }

  lemma InspectKeepsInv(s: State, who: Thread, i: Option<Inspection>)
    requires Inv(s) && CheckEnabled(s, who, Inspect(i))
    ensures Inv(DoCheck(s, who, Inspect(i)))
  {
    var t := TaskOf(s, who);
    forall p | p in s.procs && s.procs[p] == Worker(t.job) ensures p == t.pid.value {
      assert Recorded(s.jobs, t.job, p);
    }
    RecordedVerdict(s.procs, t.pid.value, i, t.job);
    ProbeKeepsInv(s, who, Judged(JudgeRecorded(t.pid.value, i, t.job), t.job, true));
  }

  lemma ListKeepsInv(s: State, who: Thread, l: Option<Listing>)
    requires Inv(s) && CheckEnabled(s, who, List(l))
    ensures Inv(DoCheck(s, who, List(l)))
  {
    var t := TaskOf(s, who);
    UnrecordedVerdict(s.procs, l, t.job);
    ProbeKeepsInv(s, who, Judged(JudgeUnrecorded(l, t.job), t.job, false));
  }

  lemma KillKeepsInv(s: State, who: Thread, ok: bool)
    requires Inv(s) && CheckEnabled(s, who, Kill(ok))
    ensures Inv(DoCheck(s, who, Kill(ok)))
  {
    var t := TaskOf(s, who);
    var mid := s.(procs := Killed(s.procs, t.victim, ok));
    FewerProcsKeepInv(s, mid.procs);
    ProbeKeepsInv(mid, who, TaskOf(DoCheck(s, who, Kill(ok)), who));
  }

  lemma RecheckKeepsInv(s: State, who: Thread, j: JobId)
    requires Inv(s) && CheckEnabled(s, who, Recheck(j))
    ensures Inv(DoCheck(s, who, Recheck(j)))
  {
  }

  lemma ReadLeaseKeepsInv(s: State, who: Thread, inactive: bool)
    requires Inv(s) && CheckEnabled(s, who, ReadLease(inactive))
    ensures Inv(DoCheck(s, who, ReadLease(inactive)))
  {
    ProbeKeepsInv(s, who, TaskOf(DoCheck(s, who, ReadLease(inactive)), who));
  }

  lemma ReleaseKeepsInv(s: State, who: Thread)
    requires Inv(s) && CheckEnabled(s, who, Release)
    ensures Inv(DoCheck(s, who, Release))
  {
  }

  /** A released row changes, and the thread goes on with it or forgets it. */
  lemma ReleasedRowKeepsInv(s: State, who: Thread, db: Db, t: Task)
    requires Inv(s) && IsRunning(s) && Releasing(TaskOf(s, who)) && SafeRowChange(s.jobs, db, s.procs, TaskOf(s, who).job)
    requires db[TaskOf(s, who).job].status in {s.jobs[TaskOf(s, who).job].status, Completed, CompletedWithWarnings, JobStatus.Failed, Interrupted}
    requires Owned(s.gui) == Some(TaskOf(s, who).job) ==> db == s.jobs
    requires t == Idle || (Releasing(t) && t.job == TaskOf(s, who).job)
    ensures Inv(WithTask(s.(jobs := db), who, t))
  {
    RowChangeKeepsInv(s, db, TaskOf(s, who).job);
    TaskChangeKeepsInv(s.(jobs := db), who, t);
  }

  lemma InterruptKeepsInv(s: State, who: Thread, notes: seq<Assign>, at: string)
    requires Inv(s) && CheckEnabled(s, who, Interrupt(notes, at))
    ensures Inv(DoCheck(s, who, Interrupt(notes, at)))
  {
    TransitionIsSafe(s.jobs, s.procs, TaskOf(s, who).job, Interrupted, notes, at);
    ReleasedRowKeepsInv(s, who, DoCheck(s, who, Interrupt(notes, at)).jobs, Idle);
  }

  lemma RestoreReleasedKeepsInv(s: State, who: Thread, final: Option<Final>, at: string)
    requires Inv(s) && CheckEnabled(s, who, RestoreReleased(final, at))
    ensures Inv(DoCheck(s, who, RestoreReleased(final, at)))
  {
    RestoreIsSafe(s.jobs, s.procs, TaskOf(s, who).job, final, at);
    ReleasedRowKeepsInv(s, who, DoCheck(s, who, RestoreReleased(final, at)).jobs, Rereading(TaskOf(s, who).job));
  }

  lemma CheckKeepsInv(s: State, who: Thread, step: CheckStep)
    requires Inv(s) && CheckEnabled(s, who, step)
    ensures Inv(DoCheck(s, who, step))
  {
    match step
    case Inspect(i) => InspectKeepsInv(s, who, i);
    case List(l) => ListKeepsInv(s, who, l);
    case Kill(ok) => KillKeepsInv(s, who, ok);
    case Recheck(j) => RecheckKeepsInv(s, who, j);
    case ReadLease(inactive) => ReadLeaseKeepsInv(s, who, inactive);
    case GiveUp => TaskChangeKeepsInv(s, who, Idle);
    case Release => ReleaseKeepsInv(s, who);
    case Reread => TaskChangeKeepsInv(s, who, TaskOf(DoCheck(s, who, step), who));
    case RestoreReleased(final, at) => RestoreReleasedKeepsInv(s, who, final, at);
    case Interrupt(notes, at) => InterruptKeepsInv(s, who, notes, at);
  }

  // ----- startup -----

  lemma StartupKeepsInv(s: State, step: StartupStep)
    requires Inv(s) && StartupEnabled(s, step)
    ensures Inv(DoStartup(s, step))
  {
    match step
    case Hold => HoldKeepsInv(s);
    case RestoreOne(j, final, at) => RestoreOneKeepsInv(s, j, final, at);
    case RecoverAll => RecoverAllKeepsInv(s);
    case _ => QuietStartupKeepsInv(s, step);
  }

  lemma QuietStartupKeepsInv(s: State, step: StartupStep)
    requires Inv(s) && StartupEnabled(s, step)
    requires !step.Hold? && !step.RestoreOne? && !step.RecoverAll?
    ensures Inv(DoStartup(s, step))
  {
    match step
    case PickOrphan(j) => PickKeepsInv(s, j);
    case Pass => PassKeepsInv(s);
    case EndScan => EndScanKeepsInv(s);
    case _ =>
  }

  lemma PickKeepsInv(s: State, j: JobId)
    requires Inv(s) && IsUp(s) && s.gui.phase.Scan? && j in s.gui.phase.todo && j in s.jobs && s.gui.ui == Idle
    ensures Inv(s.(gui := s.gui.(phase := Scan(s.gui.phase.todo - {j}), ui := Asking(j, s.jobs[j].workerPid))))
  {
  }

  lemma PassKeepsInv(s: State)
    requires Inv(s) && IsUp(s) && s.gui.phase.Scan? && s.gui.ui.Cleared?
    ensures Inv(s.(gui := s.gui.(ui := Idle)))
  {
  }

  lemma EndScanKeepsInv(s: State)
    requires Inv(s) && IsUp(s) && s.gui.phase == Scan({}) && s.gui.ui == Idle
    ensures Inv(s.(gui := s.gui.(phase := RestoreResults(WithStatus(s.jobs, Processing) - s.gui.blocked))))
  {
  }

  lemma HoldKeepsInv(s: State)
    requires Inv(s) && StartupEnabled(s, Hold)
    ensures Inv(DoStartup(s, Hold))
  {
    TouchIsSafe(s.jobs, s.procs, s.gui.ui.job, HoldNotes());
    var db := DoStartup(s, Hold).jobs;
    RowChangeKeepsInv(s, db, s.gui.ui.job);
    HeldKeepsInv(s.(jobs := db));
  }

  lemma HeldKeepsInv(s: State)
    requires Inv(s) && IsUp(s) && s.gui.phase.Scan? && s.gui.ui.Refused? && s.gui.ui.job in s.jobs
    ensures Inv(s.(gui := s.gui.(ui := Idle, blocked := s.gui.blocked + {s.gui.ui.job})))
  {
  }

  lemma RestoreOneKeepsInv(s: State, j: JobId, final: Option<Final>, at: string)
    requires Inv(s) && StartupEnabled(s, RestoreOne(j, final, at))
    ensures Inv(DoStartup(s, RestoreOne(j, final, at)))
  {
    RestoreIsSafe(s.jobs, s.procs, j, final, at);
    RowChangeKeepsInv(s, RestoreIfFinal(s.jobs, j, final, at), j);
  }

  lemma RecoverAllKeepsInv(s: State)
    requires Inv(s) && StartupEnabled(s, RecoverAll)
    ensures Inv(DoStartup(s, RecoverAll))
  {
    RecoveredIsDurable(s);
  }

  lemma RecoveredIsDurable(s: State)
    requires Inv(s) && IsUp(s) && s.gui.phase.RecoverRows?
    ensures Durable(RecoverAfterRestart(s.jobs, s.gui.blocked), s.procs)
  {
    var db := RecoverAfterRestart(s.jobs, s.gui.blocked);
    forall p | p in s.procs && s.procs[p].Worker? ensures Recorded(db, s.procs[p].job, p) {
      assert Recorded(s.jobs, s.procs[p].job, p);
    }
  }

  // ----- the rest of the job table -----

  lemma TableKeepsInv(s: State, step: TableStep)
    requires Inv(s) && TableEnabled(s, step)
    ensures Inv(DoTable(s, step))
  {
    var db := DoTable(s, step).jobs;
    match step
    case Detected(newId, path, origin, size, mtime, at, clock) => DetectKeepsInv(s, step);
    case Touch(j, updates) =>
      TouchIsSafe(s.jobs, s.procs, j, updates);
      RowChangeKeepsInv(s, db, j);
    case Move(j, target, notes, at) =>
      TransitionIsSafe(s.jobs, s.procs, j, target, notes, at);
      RowChangeKeepsInv(s, db, j);
    case RetryJob(j, needsImport, at) =>
      RowChangeKeepsInv(s, db, j);
  }

  lemma DetectKeepsInv(s: State, step: TableStep)
    requires Inv(s) && TableEnabled(s, step) && step.Detected?
    ensures Inv(DoTable(s, step))
  {
    var db := DoTable(s, step).jobs;
    if db != s.jobs { NewRowKeepsInv(s, step.newId, db[step.newId]); }
  }

  lemma NewRowKeepsInv(s: State, j: JobId, row: Job)
    requires Inv(s) && IsRunning(s) && j !in s.jobs && row.status == WaitingForStable && row.workerPid == None
    ensures Inv(s.(jobs := s.jobs[j := row]))
  {
    var db := s.jobs[j := row];
    forall p | p in s.procs && s.procs[p].Worker? ensures Recorded(db, s.procs[p].job, p) {
      assert Recorded(s.jobs, s.procs[p].job, p);
    }
  }

  // ----- launching -----

  lemma ClaimKeepsDurable(db: Db, procs: Procs, at: string)
    requires Durable(db, procs)
    ensures var (r, claimed) := Claim(db, at);
      && Durable(r, procs) && r.Keys == db.Keys
      && (claimed.None? ==> r == db)
      && (claimed.Some? ==>
            && NoWorkers(procs) && (forall j | j in db :: db[j].status != Processing)
            && claimed.value in db && db[claimed.value].status == Queued && r[claimed.value].status == Processing
            && r[claimed.value].workerPid == None && forall j | j in db && j != claimed.value :: r[j] == db[j])
  {
    ClaimEffect(db, at);
    if Claim(db, at).1.Some? {
      NoneProcessingNoWorker(db, procs);
      forall j | j in db ensures db[j].status != Processing { assert j !in WithStatus(db, Processing); }
    }
  }

  lemma ClaimKeepsInv(s: State, at: string)
    requires Inv(s) && LaunchEnabled(s, ClaimJob(at))
    ensures Inv(DoLaunch(s, ClaimJob(at)))
  {
    ClaimKeepsDurable(s.jobs, s.procs, at);
    if Claim(s.jobs, at).1.None? {
      assert DoLaunch(s, ClaimJob(at)) == s;
    } else {
      ClaimedKeepsInv(s, DoLaunch(s, ClaimJob(at)));
    }
  }

  lemma ClaimedKeepsInv(s: State, t: State)
    requires Inv(s) && IsRunning(s) && s.gui.recon == Idle && NoWorkers(s.procs) && Durable(t.jobs, s.procs)
    requires t.gui.Up? && t.gui.recon.Claimed? && t == s.(jobs := t.jobs, gui := s.gui.(recon := t.gui.recon))
    requires t.gui.recon.job in s.jobs && t.jobs.Keys == s.jobs.Keys && s.jobs[t.gui.recon.job].status == Queued
    requires forall j | j in s.jobs :: s.jobs[j].status != Processing
    requires t.jobs[t.gui.recon.job].status == Processing && t.jobs[t.gui.recon.job].workerPid == None
    requires forall j | j in s.jobs && j != t.gui.recon.job :: t.jobs[j] == s.jobs[j]
    ensures Inv(t)
  {
  }

  lemma NoneProcessingNoWorker(db: Db, procs: Procs)
    requires Durable(db, procs) && WithStatus(db, Processing) == {}
    ensures NoWorkers(procs)
  {
    assert forall p | p in procs && procs[p].Worker? :: procs[p].job in WithStatus(db, Processing);
  }

  lemma SpawnKeepsInv(s: State, pid: Pid)
    requires Inv(s) && LaunchEnabled(s, Spawn(pid))
    ensures Inv(DoLaunch(s, Spawn(pid)))
  {
    var t := DoLaunch(s, Spawn(pid));
    forall p | p in t.procs && t.procs[p].Worker? ensures Recorded(t.jobs, t.procs[p].job, p) && p == pid {}
  }

  lemma PidKeepsDurable(db: Db, procs: Procs, j: JobId, pid: Pid)
    requires Durable(db, procs) && j in db && db[j].status == Processing && OnlyWorker(procs, pid)
    ensures Durable(db[j := db[j].(workerPid := Some(pid))], procs)
  {
    var r := db[j := db[j].(workerPid := Some(pid))];
    forall p | p in procs && procs[p].Worker? ensures Recorded(r, procs[p].job, p) {
      assert Recorded(db, procs[p].job, p);
    }
  }

  /** The row records the pid of the one live worker. */
  lemma RecordedKeepsInv(s: State, r: Db)
    requires Inv(s) && IsRunning(s) && s.gui.recon.Spawned?
    requires r == s.jobs[s.gui.recon.job := s.jobs[s.gui.recon.job].(workerPid := Some(s.gui.recon.child))]
    ensures Inv(s.(jobs := r, gui := s.gui.(recon := Starting(s.gui.recon.job, s.gui.recon.child))))
  {
    PidKeepsDurable(s.jobs, s.procs, s.gui.recon.job, s.gui.recon.child);
  }

  lemma RecordPidKeepsInv(s: State)
    requires Inv(s) && LaunchEnabled(s, RecordPid)
    ensures Inv(DoLaunch(s, RecordPid))
  {
    UpdateOne(s.jobs, s.gui.recon.job, SetWorkerPid(Some(s.gui.recon.child)));
    RecordedKeepsInv(s, DoLaunch(s, RecordPid).jobs);
  }

  lemma WatchKeepsInv(s: State)
    requires Inv(s) && IsRunning(s) && s.gui.recon.Starting?
    ensures Inv(s.(gui := s.gui.(recon := Idle, watch := Some(Watch(s.gui.recon.job, s.gui.recon.child, false)))))
  {
  }

  /** A launch whose watcher cannot be started is given up safely exactly when the child is dead. */
  lemma WatchRaisesKeepsInvIff(s: State)
    requires Inv(s) && LaunchEnabled(s, WatchRaises)
    ensures Inv(DoLaunch(s, WatchRaises)) <==> !ChildAlive(s)
  {
    if ChildAlive(s) { assert !NoWorkers(DoLaunch(s, WatchRaises).procs); }
  }

  /** A failed pid write is undone safely exactly when the terminator got rid of the child. */
  lemma UndoKeepsInvIff(s: State, ok: bool)
    requires Inv(s) && LaunchEnabled(s, Undo(ok))
    ensures Inv(DoLaunch(s, Undo(ok))) <==> ok || !ChildAlive(s)
  {
    FewerProcs(s.jobs, s.procs, Killed(s.procs, s.gui.recon.child, ok));
    var t := DoLaunch(s, Undo(ok));
    if !ok && ChildAlive(s) { assert !NoWorkers(t.procs); }
  }

  lemma MarkUnlaunchedKeepsInv(s: State, step: LaunchStep)
    requires Inv(s) && LaunchEnabled(s, step) && step.MarkUnlaunched?
    ensures Inv(DoLaunch(s, step))
  {
    var j := s.gui.recon.job;
    TransitionIsSafe(s.jobs, s.procs, j, JobStatus.Failed, step.notes, step.at);
    var mid := s.(gui := s.gui.(recon := Idle));
    AbandonKeepsInv(s);
    RowChangeKeepsInv(mid, DoLaunch(s, step).jobs, j);
  }

  lemma AbandonKeepsInv(s: State)
    requires Inv(s) && IsRunning(s) && (s.gui.recon.Claimed? || s.gui.recon.Unlaunched?)
    ensures Inv(s.(gui := s.gui.(recon := Idle)))
    ensures Inv(s.(gui := s.gui.(recon := Unlaunched(s.gui.recon.job))))
  {
  }

  /** The branch for a claimed row without an archive cannot be reached, nor the one for a
      runner that still has a live worker. */
  lemma ClaimedRowIsReady(s: State)
    requires Inv(s) && IsRunning(s) && s.gui.recon.Claimed?
    ensures s.gui.recon.job in s.jobs && HasArchive(s.jobs[s.gui.recon.job])
    ensures NoWorkers(s.procs) && !CurrentAlive(s)
  {
  }

  lemma LaunchKeepsInv(s: State, step: LaunchStep)
    requires Inv(s) && LaunchEnabled(s, step) && Reliable(s, Launch(step))
    ensures Inv(DoLaunch(s, step))
  {
    match step
    case ClaimJob(at) => ClaimKeepsInv(s, at);
    case ArchiveMissing(notes, at) => ClaimedRowIsReady(s);
    case AbandonClaim => AbandonKeepsInv(s);
    case RunnerBusy(notes, at) => ClaimedRowIsReady(s);
    case LaunchRaises => AbandonKeepsInv(s);
    case Spawn(pid) => SpawnKeepsInv(s, pid);
    case RecordPid => RecordPidKeepsInv(s);
    case RecordRaises => RecordRaisesKeepsInv(s);
    case Undo(ok) => UndoKeepsInvIff(s, ok);
    case WatchStarts => WatchKeepsInv(s);
    case WatchRaises => WatchRaisesKeepsInvIff(s);
    case MarkUnlaunched(_, _, _) => MarkUnlaunchedKeepsInv(s, step);
  }

  lemma RecordRaisesKeepsInv(s: State)
    requires Inv(s) && LaunchEnabled(s, RecordRaises)
    ensures Inv(DoLaunch(s, RecordRaises))
  {
  }

  // ----- stopping and finishing -----

  lemma FinishKeepsInv(s: State, step: FinishStep)
    requires Inv(s) && FinishEnabled(s, step)
    ensures Inv(DoFinish(s, step))
  {
    match step
    case StopKill(ok) => FewerProcsKeepInv(s, Killed(s.procs, s.gui.ui.victim, ok));
    case Finish(_, _, _, _) => ReapKeepsInv(s, step);
    case StopCurrent => StoppingKeepsInv(s);
    case SeeExit => SeeExitKeepsInv(s);
  }

  lemma StoppingKeepsInv(s: State)
    requires Inv(s) && IsRunning(s) && s.gui.ui == Idle && CurrentAlive(s)
    ensures Inv(s.(gui := s.gui.(ui := Stopping(s.gui.current.value.pid))))
  {
  }

  lemma SeeExitKeepsInv(s: State)
    requires Inv(s) && FinishEnabled(s, SeeExit)
    ensures Inv(DoFinish(s, SeeExit))
  {
    var w := s.gui.watch.value;
    assert forall p | p in s.procs && s.procs[p].Worker? :: p == w.pid;
  }

  lemma ReapKeepsInv(s: State, step: FinishStep)
    requires Inv(s) && FinishEnabled(s, step) && step.Finish?
    ensures Inv(DoFinish(s, step))
  {
    var j := s.gui.watch.value.job;
    TransitionIsSafe(s.jobs, s.procs, j, step.target, step.notes, step.at);
    var mid := s.(gui := s.gui.(watch := None));
    assert Inv(mid);
    RowChangeKeepsInv(mid, DoFinish(s, step).jobs, j);
  }

  // ----- runs -----

  lemma StepKeepsInv(s: State, step: Step)
    requires Inv(s) && Enabled(s, step) && Reliable(s, step)
    ensures Inv(Do(s, step))
  {
    match step
    case World(w) => WorldKeepsInv(s, w);
    case Check(who, c) => CheckKeepsInv(s, who, c);
    case Startup(u) => StartupKeepsInv(s, u);
    case Table(t) => TableKeepsInv(s, t);
    case Launch(l) => LaunchKeepsInv(s, l);
    case Finishing(f) => FinishKeepsInv(s, f);
  }

  lemma {:induction false} RunsKeepInv(states: seq<State>, steps: seq<Step>, n: nat)
    requires Run(states, steps) && Init(states[0]) && n < |states|
    requires forall i :: 0 <= i < |steps| ==> Reliable(states[i], steps[i])
    ensures Inv(states[n])
  {
    if n > 0 {
      RunsKeepInv(states, steps, n - 1);
      StepKeepsInv(states[n - 1], steps[n - 1]);
    }
  }

  ghost predicate OneWorker(procs: Procs) {
    forall p, q | p in procs && q in procs :: procs[p].Worker? && procs[q].Worker? ==> p == q
  }

  /** The main safety result. Whatever the application's threads, its crashes and restarts, the
      workers' exits and the reuse of pids interleave to, there is never a second worker, and
      a worker is launched only when there is none. */
  lemma NeverTwoWorkers(states: seq<State>, steps: seq<Step>, n: nat)
    requires Run(states, steps) && Init(states[0]) && n < |states|
    requires forall i :: 0 <= i < |steps| ==> Reliable(states[i], steps[i])
    ensures OneWorker(states[n].procs)
    ensures n < |steps| && steps[n].Launch? && steps[n].launch.Spawn? ==> NoWorkers(states[n].procs)
  {
    RunsKeepInv(states, steps, n);
  }

  /** What the job table says in every reachable state: one row in processing, a pid on no other
      row, and a recording in the archive behind every row queued or in processing. */
  lemma TableIsConsistent(states: seq<State>, steps: seq<Step>, n: nat)
    requires Run(states, steps) && Init(states[0]) && n < |states|
    requires forall i :: 0 <= i < |steps| ==> Reliable(states[i], steps[i])
    ensures OneProcessing(states[n].jobs)
    ensures forall j | j in states[n].jobs :: states[n].jobs[j].workerPid.Some? ==> states[n].jobs[j].status == Processing
    ensures forall j | j in states[n].jobs :: states[n].jobs[j].status in {Queued, Processing} ==> HasArchive(states[n].jobs[j])
    ensures CurrentAlive(states[n]) ==> HasStatus(states[n], states[n].gui.current.value.job, Processing)
  {
    RunsKeepInv(states, steps, n);
    var s := states[n];
    if CurrentAlive(s) {
      assert Recorded(s.jobs, s.gui.current.value.job, s.gui.current.value.pid);
    }
  }

  /** The failure branches written for a missing archive and a busy runner are dead code: no run
      reaches a state in which either step could happen. */
  lemma FailureBranchesUnreachable(states: seq<State>, steps: seq<Step>, n: nat)
    requires Run(states, steps) && Init(states[0]) && n < |steps|
    requires forall i :: 0 <= i < |steps| ==> Reliable(states[i], steps[i])
    ensures !(steps[n].Launch? && (steps[n].launch.ArchiveMissing? || steps[n].launch.RunnerBusy?))
  {
    RunsKeepInv(states, steps, n);
    if steps[n].Launch? && (steps[n].launch.ArchiveMissing? || steps[n].launch.RunnerBusy?) {
      ClaimedRowIsReady(states[n]);
    }
  }

  /** A row that is claimed again carries no pid of an earlier attempt. */
  lemma ClaimStartsWithoutPid(states: seq<State>, steps: seq<Step>, n: nat)
    requires Run(states, steps) && Init(states[0]) && n < |steps|
    requires forall i :: 0 <= i < |steps| ==> Reliable(states[i], steps[i])
    requires steps[n].Launch? && steps[n].launch.ClaimJob? && Claim(states[n].jobs, steps[n].launch.at).1.Some?
    ensures var j := Claim(states[n].jobs, steps[n].launch.at).1.value;
      HasStatus(states[n + 1], j, Processing) && states[n + 1].jobs[j].workerPid == None
  {
    RunsKeepInv(states, steps, n);
    ClaimEffect(states[n].jobs, steps[n].launch.at);
  }
}
