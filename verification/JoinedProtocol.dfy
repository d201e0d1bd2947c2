/** The two protocols as one system over one job table: the processes and threads of the job
    protocol, the files and accepted recordings of the import protocol. What each side demands of
    the table steps of the other is proved here, so nothing is left assumed between them. */
module JoinedProtocol {
  import opened Models
  import opened Database
  import I = ImportProtocol
  import IS = ImportSafety
  import J = JobProtocol
  import JS = JobSafety
  import Runner = WorkerRunner

  datatype State = State(work: J.State, store: I.State)

  datatype Step = Work(work: J.Step) | Store(store: I.Step)

  predicate Coupled(s: State) { s.work.jobs == s.store.jobs }

  /** Imports run on the reconciliation thread, and once during startup. */
  predicate ImportPhase(w: J.State) {
    J.IsUp(w) && (w.gui.phase.Running? || w.gui.phase.RecoverImports?)
  }

  /** Which application threads may take a step of the import protocol. Crashes and everything that
      launches, finishes or recovers a worker belong to the job protocol. */
  predicate MayStore(w: J.State, step: I.Step) {
    match step
    case File(f) => f.UserChanges? || ImportPhase(w)
    case Control(c) => !c.Crash? && ImportPhase(w)
    case Table(t) => MayChangeTable(w, t)
    case Import(i) =>
      if i.RecoverRows? then false
      else if i.Detected? then J.IsRunning(w)
      else ImportPhase(w)
  }

  predicate MayChangeTable(w: J.State, t: I.TableStep) {
    match t
    case Annotate(_, updates) => J.IsUp(w) && !NamesPid(updates)
    case RetryJob(_, _) => J.IsRunning(w) && w.gui.ui == J.Idle
    case Advance(_, _, _, _) => false
    case RestoreResult(_, _, _) => false
    case _ => ImportPhase(w)
  }

  /** The job protocol's own table steps stand for the import protocol's, which are taken instead:
      none of its guards on them is assumed. */
  ghost predicate Enabled(s: State, step: Step) {
    match step
    case Work(w) => !w.Table? && J.Enabled(s.work, w)
    case Store(i) => MayStore(s.work, i) && I.Enabled(s.store, i)
  }

  predicate IsCrash(w: J.Step) { w.World? && w.world.Crash? }

  ghost function Do(s: State, step: Step): State
    requires Enabled(s, step)
  {
    match step
    case Work(w) =>
      var after := J.Do(s.work, w);
      State(after, s.store.(jobs := after.jobs, active := if IsCrash(w) then None else s.store.active))
    case Store(i) =>
      var after := I.Do(s.store, i);
      State(s.work.(jobs := after.jobs), after)
  }

  ghost predicate Init(s: State) { J.Init(s.work) && I.Init(s.store) }

  predicate Reliable(s: State, step: Step) { step.Work? ==> J.Reliable(s.work, step.work) }

  ghost predicate Run(states: seq<State>, steps: seq<Step>) {
    && |states| == |steps| + 1
    && forall i :: 0 <= i < |steps| ==>
         Enabled(states[i], steps[i]) && Reliable(states[i], steps[i]) && states[i + 1] == Do(states[i], steps[i])
  }

  // ----- import steps are table steps of the job protocol -----

  /** The table step an import step is, seen from the job protocol. */
  function Shadow(s: I.State, step: I.Step): Option<J.TableStep>
    requires I.Enabled(s, step)
  {
    match step
    case File(_) => None
    case Control(_) => None
    case Table(t) => TableShadow(s, t)
    case Import(i) => ImportShadow(s, i)
  }

  function TableShadow(s: I.State, t: I.TableStep): Option<J.TableStep>
    requires I.TableEnabled(s, t)
  {
    match t
    case Settle(j, target, notes, at) => Some(J.Move(j, target, notes, at))
    case FailImport(j, target, notes, at) => Some(J.Move(j, target, notes, at))
    case Drop(j, target, notes, at) => Some(J.Move(j, target, notes, at))
    case Annotate(j, updates) => Some(J.Touch(j, updates))
    case RetryJob(j, at) => Some(J.RetryJob(j, I.VerifiedMedia(s.jobs[j], s.files).None?, at))
    case _ => None
  }

  function ImportShadow(s: I.State, i: I.ImportStep): Option<J.TableStep>
    requires I.ImportEnabled(s, i)
  {
    match i
    case Detected(newId, path, origin, size, mtime, at, clock) => Some(J.Detected(newId, path, origin, size, mtime, at, clock))
    case Begin(j, at) => Some(J.Move(j, Importing, [], at))
    case Intend(j, dir) =>
      var a := I.Accepted(s, j, dir);
      Some(J.Touch(j, I.ArchiveUpdates(a.target, |a.bytes|)))
    case RecordArchive(j) =>
      var media := s.jobs[j].archivedMedia.value;
      Some(J.Touch(j, I.ArchiveUpdates(media, |s.files[media]|)))
    case RecordHash(j) => Some(J.Touch(j, [SetSourceSha(s.files[s.jobs[j].archivedMedia.value])]))
    case RecoverRows(_) => None
  }

  /** Under the import invariant every import step is an enabled table step of the job protocol with
      the same resulting table: in particular a row is queued only with its archive columns set. */
  ghost predicate IsTableStep(w: J.State, t: J.TableStep, after: Db) {
    J.TableEnabled(w, t) && J.DoTable(w, t) == w.(jobs := after)
  }

  lemma TableShadows(s: State, t: I.TableStep)
    requires Coupled(s) && I.Inv(s.store) && Enabled(s, Store(I.Table(t)))
    ensures TableShadow(s.store, t).Some?
    ensures IsTableStep(s.work, TableShadow(s.store, t).value, I.DoTable(s.store, t).jobs)
  {
    assert I.RowInv(s.store, t.job);
    if t.Annotate? {
      forall i | 0 <= i < |t.updates| ensures Mutable(t.updates[i]) { assert I.Quiet(t.updates[i]); }
    }
  }

  lemma ImportShadows(s: State, i: I.ImportStep)
    requires Coupled(s) && I.Inv(s.store) && Enabled(s, Store(I.Import(i)))
    ensures ImportShadow(s.store, i).Some?
    ensures IsTableStep(s.work, ImportShadow(s.store, i).value, I.DoImport(s.store, i).jobs)
  {
    if i.Detected? {
      DetectionShadows(s, i);
    } else if i.Begin? {
      BeginShadows(s, i.job, i.at);
    } else {
      RecordShadows(s, i);
    }
  }

  lemma DetectionShadows(s: State, i: I.ImportStep)
    requires Coupled(s) && i.Detected? && Enabled(s, Store(I.Import(i)))
    ensures IsTableStep(s.work, ImportShadow(s.store, i).value, I.DoImport(s.store, i).jobs)
  {
  }

  lemma BeginShadows(s: State, j: JobId, at: string)
    requires Coupled(s) && Enabled(s, Store(I.Import(I.Begin(j, at))))
    ensures IsTableStep(s.work, J.Move(j, Importing, [], at), I.DoImport(s.store, I.Begin(j, at)).jobs)
  {
  }

  lemma RecordShadows(s: State, i: I.ImportStep)
    requires Coupled(s) && (i.Intend? || i.RecordArchive? || i.RecordHash?) && Enabled(s, Store(I.Import(i)))
    ensures IsTableStep(s.work, ImportShadow(s.store, i).value, I.DoImport(s.store, i).jobs)
  {
  }

  /** Seen from the job protocol, an import step is one of its own table steps, enabled and with the
      same result, or nothing at all. */
  lemma StoreShadows(s: State, i: I.Step)
    requires Coupled(s) && I.Inv(s.store) && Enabled(s, Store(i))
    ensures match Shadow(s.store, i)
      case None => Do(s, Store(i)).work == s.work
      case Some(t) => J.Enabled(s.work, J.Table(t)) && Do(s, Store(i)).work == J.Do(s.work, J.Table(t))
  {
    match i
    case Table(t) => TableShadows(s, t);
    case Import(m) => ImportShadows(s, m);
    case _ => assert Do(s, Store(i)).work == s.work;
  }

  // ----- steps of the job protocol are import steps -----

  /** Nothing happens to rows and files, or what the import protocol allows. */
  ghost predicate StoreMoves(a: I.State, b: I.State) {
    a == b || exists step :: I.Enabled(a, step) && b == I.Do(a, step)
  }

  lemma ByTable(a: I.State, t: I.TableStep, db: Db)
    requires I.TableEnabled(a, t) && I.DoTable(a, t).jobs == db
    ensures StoreMoves(a, a.(jobs := db))
  {
    assert I.Enabled(a, I.Table(t)) && I.Do(a, I.Table(t)) == a.(jobs := db);
  }

  /** A transition out of an import, a queue place or a run; any other is refused. */
  lemma TransitionMoves(a: I.State, j: JobId, target: JobStatus, notes: seq<Assign>, at: string)
    requires All(Note, notes) && target in {Completed, CompletedWithWarnings, JobStatus.Failed, Cancelled, Interrupted}
    requires j in a.jobs && a.jobs[j].status == Importing ==> target != Cancelled
    ensures StoreMoves(a, a.(jobs := OrSame(a.jobs, Transition(a.jobs, j, target, notes, at))))
  {
    var db := OrSame(a.jobs, Transition(a.jobs, j, target, notes, at));
    if j in a.jobs && target in Allowed(a.jobs[j].status) {
      match a.jobs[j].status
      case WaitingForStable => ByTable(a, I.Drop(j, target, notes, at), db);
      case Importing => ByTable(a, I.FailImport(j, target, notes, at), db);
      case _ => ByTable(a, I.Advance(j, target, notes, at), db);
    } else {
      assert db == a.jobs;
    }
  }

  lemma RestoreMoves(a: I.State, j: JobId, final: Option<Final>, at: string)
    ensures StoreMoves(a, a.(jobs := J.RestoreIfFinal(a.jobs, j, final, at)))
  {
    if final.Some? && j in a.jobs {
      ByTable(a, I.RestoreResult(j, final.value, at), J.RestoreIfFinal(a.jobs, j, final, at));
    } else {
      assert J.RestoreIfFinal(a.jobs, j, final, at) == a.jobs;
    }
  }

  lemma NotesMove(a: I.State, j: JobId, updates: seq<Assign>)
    requires j in a.jobs && All(I.Quiet, updates)
    ensures StoreMoves(a, a.(jobs := OrSame(a.jobs, Update(a.jobs, j, updates))))
  {
    ByTable(a, I.Annotate(j, updates), OrSame(a.jobs, Update(a.jobs, j, updates)));
  }

  /** A claim is the transition of the first queued row. */
  lemma ClaimMoves(a: I.State, at: string)
    ensures StoreMoves(a, a.(jobs := Claim(a.jobs, at).0))
  {
    ClaimEffect(a.jobs, at);
    var (db, claimed) := Claim(a.jobs, at);
    if claimed.Some? {
      assert Heading(Some(Processing), [], at) + [] == Heading(Some(Processing), [], at);
      ByTable(a, I.Advance(claimed.value, Processing, [], at), db);
    }
  }

  lemma CheckMoves(s: State, who: J.Thread, c: J.CheckStep)
    requires Coupled(s) && J.CheckEnabled(s.work, who, c)
    ensures StoreMoves(s.store, s.store.(jobs := J.DoCheck(s.work, who, c).jobs))
  {
    var t := J.TaskOf(s.work, who);
    match c
    case RestoreReleased(final, at) => RestoreMoves(s.store, t.job, final, at);
    case Interrupt(notes, at) => TransitionMoves(s.store, t.job, Interrupted, notes, at);
    case _ =>
  }

  lemma StartupMoves(s: State, u: J.StartupStep)
    requires Coupled(s) && J.StartupEnabled(s.work, u)
    ensures StoreMoves(s.store, s.store.(jobs := J.DoStartup(s.work, u).jobs))
  {
    match u
    case Hold => NotesMove(s.store, s.work.gui.ui.job, HoldNotes());
    case RestoreOne(j, final, at) => RestoreMoves(s.store, j, final, at);
    case RecoverAll =>
      var step := I.Import(I.RecoverRows(s.work.gui.blocked));
      assert I.Enabled(s.store, step) && I.Do(s.store, step) == s.store.(jobs := J.DoStartup(s.work, u).jobs);
    case _ =>
  }

  lemma LaunchMoves(s: State, l: J.LaunchStep)
    requires Coupled(s) && J.LaunchEnabled(s.work, l)
    ensures StoreMoves(s.store, s.store.(jobs := J.DoLaunch(s.work, l).jobs))
  {
    var t := s.work.gui.recon;
    match l
    case ClaimJob(at) => ClaimMoves(s.store, at);
    case ArchiveMissing(notes, at) => TransitionMoves(s.store, t.job, JobStatus.Failed, notes, at);
    case RunnerBusy(notes, at) => TransitionMoves(s.store, t.job, Interrupted, notes, at);
    case RecordPid => NotesMove(s.store, t.job, [SetWorkerPid(Some(t.child))]);
    case MarkUnlaunched(written, notes, at) =>
      if written { TransitionMoves(s.store, t.job, JobStatus.Failed, notes, at); }
    case _ =>
  }

  lemma FinishMoves(s: State, f: J.FinishStep)
    requires Coupled(s) && J.FinishEnabled(s.work, f)
    ensures StoreMoves(s.store, s.store.(jobs := J.DoFinish(s.work, f).jobs))
  {
    if f.Finish? && f.written && J.HasStatus(s.work, s.work.gui.watch.value.job, Processing) {
      TransitionMoves(s.store, s.work.gui.watch.value.job, f.target, f.notes, f.at);
    }
  }

  lemma WorkMoves(s: State, w: J.Step)
    requires Coupled(s) && Enabled(s, Work(w))
    ensures StoreMoves(s.store, Do(s, Work(w)).store)
  {
    match w
    case World(_) =>
      if IsCrash(w) {
        var crash := I.Control(I.Crash);
        assert I.Enabled(s.store, crash) && I.Do(s.store, crash) == Do(s, Work(w)).store;
      }
    case Check(who, c) => CheckMoves(s, who, c);
    case Startup(u) => StartupMoves(s, u);
    case Launch(l) => LaunchMoves(s, l);
    case Finishing(f) => FinishMoves(s, f);
  }

  // ----- the joined invariant -----

  ghost predicate Inv(s: State) { Coupled(s) && JS.Inv(s.work) && I.Inv(s.store) }

  lemma WorkKeepsInv(s: State, w: J.Step)
    requires Inv(s) && Enabled(s, Work(w)) && J.Reliable(s.work, w)
    ensures Inv(Do(s, Work(w)))
  {
    JS.StepKeepsInv(s.work, w);
    WorkMoves(s, w);
    var t := Do(s, Work(w)).store;
    if t != s.store {
      var step :| I.Enabled(s.store, step) && t == I.Do(s.store, step);
      IS.StepKeepsInv(s.store, step);
    }
  }

  lemma StoreKeepsInv(s: State, i: I.Step)
    requires Inv(s) && Enabled(s, Store(i))
    ensures Inv(Do(s, Store(i)))
  {
    IS.StepKeepsInv(s.store, i);
    StoreShadows(s, i);
    if Shadow(s.store, i).Some? {
      JS.TableKeepsInv(s.work, Shadow(s.store, i).value);
    }
  }

  lemma {:induction false} RunsKeepInv(states: seq<State>, steps: seq<Step>, n: nat)
    requires Run(states, steps) && Init(states[0]) && n < |states|
    ensures Inv(states[n])
  {
    if n > 0 {
      RunsKeepInv(states, steps, n - 1);
      var s, step := states[n - 1], steps[n - 1];
      if step.Work? { WorkKeepsInv(s, step.work); } else { StoreKeepsInv(s, step.store); }
    }
  }

  // ----- what holds of rows, files and processes together -----

  /** There is never a second worker, and each live worker's row is in processing with the accepted
      recording it works on published in the archive, byte for byte. */
  lemma WorkersHaveTheirRecordings(states: seq<State>, steps: seq<Step>, n: nat)
    requires Run(states, steps) && Init(states[0]) && n < |states|
    ensures JS.OneWorker(states[n].work.procs)
    ensures forall p | p in states[n].work.procs && states[n].work.procs[p].Worker? ::
      J.HasStatus(states[n].work, states[n].work.procs[p].job, Processing)
      && HasPublishedRecording(states[n].store, states[n].work.procs[p].job)
  {
    RunsKeepInv(states, steps, n);
    var s := states[n];
    forall p | p in s.work.procs && s.work.procs[p].Worker?
      ensures J.HasStatus(s.work, s.work.procs[p].job, Processing) && HasPublishedRecording(s.store, s.work.procs[p].job) {
      assert JS.Recorded(s.work.jobs, s.work.procs[p].job, p);
      PublishedRow(s.store, s.work.procs[p].job);
    }
  }

  ghost predicate HasPublishedRecording(s: I.State, j: JobId) {
    && j in s.jobs && J.HasArchive(s.jobs[j]) && I.Archived(s, j)
    && exists a :: a in s.log && a.job == j && a.target == s.jobs[j].archivedMedia.value && s.files[a.target] == a.bytes
  }

  lemma PublishedRow(s: I.State, j: JobId)
    requires I.Inv(s) && j in s.jobs && s.jobs[j].status in {Queued, Processing}
    ensures HasPublishedRecording(s, j)
  {
    assert I.RowInv(s, j);
    assert I.InLog(s, j, s.jobs[j].archivedMedia.value);
    var a :| a in s.log && a.job == j && a.target == s.jobs[j].archivedMedia.value;
    assert s.files[a.target] == a.bytes;
  }

  /** In every run a row that is queued or in processing has both archive columns set and its
      recording on disk; nothing about it is assumed of the steps that queue it. */
  lemma QueuedRowsAreArchived(states: seq<State>, steps: seq<Step>, n: nat, j: JobId)
    requires Run(states, steps) && Init(states[0]) && n < |states|
    requires j in states[n].store.jobs && states[n].store.jobs[j].status in {Queued, Processing}
    ensures states[n].work.jobs == states[n].store.jobs && HasPublishedRecording(states[n].store, j)
  {
    RunsKeepInv(states, steps, n);
    PublishedRow(states[n].store, j);
  }

  /** So the branches for a missing archive and a busy runner are dead code. */
  lemma FailureBranchesUnreachable(states: seq<State>, steps: seq<Step>, n: nat)
    requires Run(states, steps) && Init(states[0]) && n < |steps|
    ensures !(steps[n].Work? && steps[n].work.Launch?
              && (steps[n].work.launch.ArchiveMissing? || steps[n].work.launch.RunnerBusy?))
  {
    RunsKeepInv(states, steps, n);
    var w := steps[n];
    if w.Work? && w.work.Launch? && (w.work.launch.ArchiveMissing? || w.work.launch.RunnerBusy?) {
      JS.ClaimedRowIsReady(states[n].work);
    }
  }
}
