/** What the two launches that the program gives up without looking can cost: a child whose pid could
    not be recorded and whose termination failed, or whose watcher could not be started, lives on
    while another job gets a worker of its own. */
module LaunchFailures {
  import opened Models
  import opened Database
  import opened WorkerRunner
  import opened JobProtocol
  import opened JobSafety

  // ----- joining runs -----

  lemma TwoSteps(a: State, b: State, c: State, first: Step, second: Step)
    requires Enabled(a, first) && b == Do(a, first) && Enabled(b, second) && c == Do(b, second)
    ensures Run([a, b, c], [first, second])
  {
  }

  /** A run goes on where another ended. */
  lemma RunsJoin(states: seq<State>, steps: seq<Step>, more: seq<State>, further: seq<Step>)
    requires Run(states, steps) && Run(more, further) && states[|steps|] == more[0]
    ensures Run(states + more[1..], steps + further)
    ensures (states + more[1..])[|steps + further|] == more[|further|]
  {
    var all, both := states + more[1..], steps + further;
    forall i | |steps| <= i <= |both| ensures all[i] == more[i - |steps|] {}
    forall i | 0 <= i < |both| ensures Enabled(all[i], both[i]) && all[i + 1] == Do(all[i], both[i]) {
      if i >= |steps| { assert Enabled(more[i - |steps|], further[i - |steps|]); }
    }
  }

  // ----- from a launch that is being undone -----

  lemma RowGivenUp(db: Db, j: JobId, at: string)
    requires OneProcessing(db) && j in db && db[j].status == Processing
    ensures var r := OrSame(db, Transition(db, j, JobStatus.Failed, [], at));
      WithStatus(r, Processing) == {} && WithStatus(db, Queued) <= WithStatus(r, Queued)
  {
    TransitionEffect(db, j, JobStatus.Failed, [], at);
  }

  /** The failed termination goes unnoticed: the row is given up and the runner is free again. */
  lemma FailedUndoFinishesRow(s: State, at: string) returns (b: State)
    requires Inv(s) && IsRunning(s) && s.gui.recon.Undoing?
    ensures exists a :: Run([s, a, b], [Launch(Undo(false)), Launch(MarkUnlaunched(true, [], at))])
    ensures b.procs == s.procs && IsRunning(b) && b.gui.recon == Idle && b.gui.current == None
    ensures WithStatus(b.jobs, Processing) == {} && WithStatus(s.jobs, Queued) <= WithStatus(b.jobs, Queued)
  {
    var a := Do(s, Launch(Undo(false)));
    b := Do(a, Launch(MarkUnlaunched(true, [], at)));
    RowGivenUp(s.jobs, s.gui.recon.job, at);
    TwoSteps(s, a, b, Launch(Undo(false)), Launch(MarkUnlaunched(true, [], at)));
  }

  lemma ClaimAndSpawn(b: State, at: string, q: Pid) returns (d: State)
    requires IsRunning(b) && b.gui.recon == Idle && b.gui.current == None && q > 0 && q !in b.procs
    requires WithStatus(b.jobs, Processing) == {} && WithStatus(b.jobs, Queued) != {}
    ensures exists c :: Run([b, c, d], [Launch(ClaimJob(at)), Launch(Spawn(q))])
    ensures q in d.procs && d.procs[q].Worker? && forall p | p in b.procs :: p in d.procs && d.procs[p] == b.procs[p]
  {
    ClaimEffect(b.jobs, at);
    var c := Do(b, Launch(ClaimJob(at)));
    d := Do(c, Launch(Spawn(q)));
    TwoSteps(b, c, d, Launch(ClaimJob(at)), Launch(Spawn(q)));
  }

  /** When the terminator fails after a pid could not be recorded, the next queued job gets a
      second worker: the failed row is finished, the claim goes through, and two run. */
  lemma FailedUndoAdmitsSecondWorker(s: State, at: string, q: Pid) returns (states: seq<State>, steps: seq<Step>)
    requires Inv(s) && IsRunning(s) && s.gui.recon.Undoing? && q > 0 && q !in s.procs
    requires s.gui.recon.child in s.procs && s.procs[s.gui.recon.child] == Worker(s.gui.recon.job)
    requires WithStatus(s.jobs, Queued) != {}
    ensures Run(states, steps) && states[0] == s && |steps| == 4
    ensures steps[0] == Launch(Undo(false)) && forall i :: 1 <= i < 4 ==> Reliable(states[i], steps[i])
    ensures !OneWorker(states[4].procs)
  {
    var b := FailedUndoFinishesRow(s, at);
    var d := ClaimAndSpawn(b, at, q);
    var undo, launch := [Launch(Undo(false)), Launch(MarkUnlaunched(true, [], at))], [Launch(ClaimJob(at)), Launch(Spawn(q))];
    var a :| Run([s, a, b], undo);
    var c :| Run([b, c, d], launch);
    RunsJoin([s, a, b], undo, [b, c, d], launch);
    states, steps := [s, a, b] + [b, c, d][1..], undo + launch;
    assert d.procs[s.gui.recon.child].Worker? && d.procs[q].Worker?;
  }

  // ----- from the empty installation -----

  /** Some run of steps whose terminator works leads from one state to the other. */
  ghost predicate Path(states: seq<State>, steps: seq<Step>, s: State, t: State) {
    && Run(states, steps) && states[0] == s && states[|steps|] == t
    && forall i :: 0 <= i < |steps| ==> Reliable(states[i], steps[i])
  }

  ghost predicate Reaches(s: State, t: State) { exists states, steps :: Path(states, steps, s, t) }

  lemma Here(s: State)
    ensures Reaches(s, s)
  {
    assert Path([s], [], s, s);
  }

  lemma Then(s: State, t: State, step: Step)
    requires Reaches(s, t) && Enabled(t, step) && Reliable(t, step)
    ensures Reaches(s, Do(t, step))
  {
    GoesOn(s, t, [t, Do(t, step)], [step], Do(t, step));
  }

  /** The application up and idle, no process alive. */
  function Quiet(db: Db): State { Ready(db, map[], None) }

  const INSTALLED := State(map[], map[], None, Down)

  lemma GoesOn(s: State, t: State, more: seq<State>, further: seq<Step>, u: State)
    requires Reaches(s, t) && Path(more, further, t, u)
    ensures Reaches(s, u)
  {
    var states, steps :| Path(states, steps, s, t);
    RunsJoin(states, steps, more, further);
    var all, both := states + more[1..], steps + further;
    forall i | 0 <= i < |both| ensures Reliable(all[i], both[i]) {
      if i < |steps| {
        assert all[i] == states[i];
      } else {
        assert all[i] == more[i - |steps|] && both[i] == further[i - |steps|];
      }
    }
    assert Path(all, both, s, u);
  }

  /** The application once its startup is over and nothing was held back. */
  function Ready(db: Db, procs: Procs, lease: Option<Pid>): State {
    State(db, procs, lease, Up(Running, Idle, Idle, None, None, {}))
  }

  /** Without rows in processing a start looks for no worker. */
  lemma StartsUp(s: State, down: State)
    requires Reaches(s, down) && down.gui.Down? && WithStatus(down.jobs, Processing) == {}
    ensures Reaches(s, Ready(RecoverAfterRestart(down.jobs, {}), down.procs, down.lease))
  {
    Then(s, down, World(Boot));
    var up := Do(down, World(Boot));
    Then(s, up, Startup(EndScan));
    var scanned := Do(up, Startup(EndScan));
    assert scanned.gui.phase == RestoreResults({});
    Then(s, scanned, Startup(EndRestore));
    StartsIdle(s, Do(scanned, Startup(EndRestore)));
  }

  lemma StartsIdle(s: State, restored: State)
    requires Reaches(s, restored) && restored.gui == Up(RecoverImports, Idle, Idle, None, None, {})
    ensures Reaches(s, Ready(RecoverAfterRestart(restored.jobs, {}), restored.procs, restored.lease))
  {
    Then(s, restored, Startup(EndImports));
    var imported := Do(restored, Startup(EndImports));
    Then(s, imported, Startup(RecoverAll));
  }

  lemma Started()
    ensures Init(INSTALLED) && Reaches(INSTALLED, Quiet(map[]))
  {
    Here(INSTALLED);
    StartsUp(INSTALLED, INSTALLED);
    assert RecoverAfterRestart(map[], {}) == map[];
  }

  lemma ThenTable(s: State, db: Db, step: TableStep)
    requires Reaches(s, Quiet(db)) && TableEnabled(Quiet(db), step)
    ensures Reaches(s, Quiet(DoTable(Quiet(db), step).jobs))
  {
    Then(s, Quiet(db), Table(step));
  }

  /** Row `j` is new or changed, the others are as they were. */
  ghost predicate OthersStay(db: Db, r: Db, j: JobId) {
    r.Keys == db.Keys + {j} && forall k | k in db && k != j :: r[k] == db[k]
  }

  lemma MoveOne(s: State, db: Db, j: JobId, target: JobStatus, at: string) returns (r: Db)
    requires Reaches(s, Quiet(db)) && j in db && ImportMove(db[j], target)
    ensures Reaches(s, Quiet(r)) && OthersStay(db, r, j)
    ensures SameImport(r[j], db[j]) && r[j].status == target
  {
    TransitionEffect(db, j, target, [], at);
    ThenTable(s, db, Move(j, target, [], at));
    r := OrSame(db, Transition(db, j, target, [], at));
  }

  lemma ArchiveOne(s: State, db: Db, j: JobId, dir: string, media: Path) returns (r: Db)
    requires Reaches(s, Quiet(db)) && j in db
    ensures Reaches(s, Quiet(r)) && OthersStay(db, r, j) && HasArchive(r[j])
    ensures r[j].status == db[j].status && r[j].sourcePath == db[j].sourcePath
  {
    UpdateTwo(db, j, SetArchiveDir(dir), SetArchivedMedia(media));
    ThenTable(s, db, Touch(j, [SetArchiveDir(dir), SetArchivedMedia(media)]));
    r := OrSame(db, Update(db, j, [SetArchiveDir(dir), SetArchivedMedia(media)]));
  }

  lemma DetectOne(s: State, db: Db, j: JobId, path: Path, at: string) returns (r: Db)
    requires Reaches(s, Quiet(db)) && j !in db && ActiveFor(db, path) == {}
    ensures Reaches(s, Quiet(r)) && OthersStay(db, r, j)
    ensures r[j].status == WaitingForStable && r[j].sourcePath == path
  {
    ThenTable(s, db, TableStep.Detected(j, path, Manual, 5, 10, at, 0));
    r := Detect(db, j, path, Manual, 5, 10, at, 0);
  }

  /** A recording is detected, imported and queued. */
  lemma QueueOne(s: State, db: Db, j: JobId, path: Path, dir: string, media: Path, at: string) returns (r: Db)
    requires Reaches(s, Quiet(db)) && j !in db && ActiveFor(db, path) == {}
    ensures Reaches(s, Quiet(r)) && OthersStay(db, r, j)
    ensures r[j].status == Queued && r[j].sourcePath == path
  {
    var waiting := DetectOne(s, db, j, path, at);
    var importing := MoveOne(s, waiting, j, Importing, at);
    var archived := ArchiveOne(s, importing, j, dir, media);
    r := MoveOne(s, archived, j, Queued, at);
  }

  /** With two jobs queued and none in processing, one is claimed and its child is started. */
  lemma LaunchOne(s: State, db: Db, i: JobId, j: JobId, at: string, p: Pid) returns (t: State)
    requires Reaches(s, Quiet(db)) && p > 0
    requires WithStatus(db, Processing) == {} && i != j && {i, j} <= WithStatus(db, Queued)
    ensures Reaches(s, t) && IsRunning(t) && t.gui.recon.Spawned? && t.gui.recon.child == p
    ensures t.procs == map[p := Worker(t.gui.recon.job)] && t.gui.recon.job in t.jobs && t.lease == None
    ensures WithStatus(t.jobs, Queued) - {t.gui.recon.job} != {}
  {
    var claimed := ClaimOne(s, db, i, j, at);
    Then(s, claimed, Launch(Spawn(p)));
    t := Do(claimed, Launch(Spawn(p)));
  }

  lemma ClaimOne(s: State, db: Db, i: JobId, j: JobId, at: string) returns (t: State)
    requires Reaches(s, Quiet(db)) && WithStatus(db, Processing) == {} && i != j && {i, j} <= WithStatus(db, Queued)
    ensures Reaches(s, t) && t.procs == map[] && t.lease == None && IsRunning(t) && t.gui.current == None
    ensures t.gui.recon.Claimed? && t.gui.recon.job in t.jobs && WithStatus(t.jobs, Queued) - {t.gui.recon.job} != {}
  {
    ClaimEffect(db, at);
    Then(s, Quiet(db), Launch(ClaimJob(at)));
    t := Do(Quiet(db), Launch(ClaimJob(at)));
    var left := if t.gui.recon.job == i then j else i;
    assert left in WithStatus(t.jobs, Queued) - {t.gui.recon.job};
  }

  lemma FirstQueued() returns (db: Db)
    ensures Reaches(INSTALLED, Quiet(db))
    ensures db.Keys == {"a"} && db["a"].status == Queued && db["a"].sourcePath == ExternalFile("a")
  {
    Started();
    db := QueueOne(INSTALLED, map[], "a", ExternalFile("a"), "a", ArchiveFile("a", Original("a")), "1");
  }

  lemma TwoQueued() returns (db: Db)
    ensures Reaches(INSTALLED, Quiet(db))
    ensures WithStatus(db, Processing) == {} && {"a", "b"} <= WithStatus(db, Queued)
  {
    var first := FirstQueued();
    db := QueueOne(INSTALLED, first, "b", ExternalFile("b"), "b", ArchiveFile("b", Original("b")), "2");
    assert db.Keys == {"a", "b"};
  }

  lemma OneLaunched() returns (t: State)
    ensures Reaches(INSTALLED, t) && IsRunning(t) && t.gui.recon.Spawned? && t.gui.recon.child == 7
    ensures t.procs == map[7 := Worker(t.gui.recon.job)] && t.gui.recon.job in t.jobs && t.lease == None
    ensures WithStatus(t.jobs, Queued) - {t.gui.recon.job} != {}
  {
    var db := TwoQueued();
    t := LaunchOne(INSTALLED, db, "a", "b", "3", 7);
  }

  /** A run of the program from its installation in which one step alone is not what the protocol
      relies on, and which ends with two workers. */
  ghost predicate OnlyFailure(states: seq<State>, steps: seq<Step>, n: nat, failure: LaunchStep) {
    && Run(states, steps) && Init(states[0]) && n < |steps| && steps[n] == Launch(failure)
    && (forall i :: 0 <= i < |steps| && i != n ==> Reliable(states[i], steps[i]))
    && !OneWorker(states[|steps|].procs)
  }

  /** A reliable run, the failure, and a reliable run to two workers. */
  lemma FailureBetween(s: State, t: State, failure: LaunchStep, u: State)
    requires Init(s) && Reaches(s, t) && Enabled(t, Launch(failure)) && Reaches(Do(t, Launch(failure)), u)
    requires !OneWorker(u.procs)
    ensures exists states, steps, n: nat :: OnlyFailure(states, steps, n, failure)
  {
    var b := Do(t, Launch(failure));
    var before, calm :| Path(before, calm, s, t);
    var after, rest :| Path(after, rest, b, u);
    RunsJoin(before, calm, [t, b], [Launch(failure)]);
    var mid, most := before + [t, b][1..], calm + [Launch(failure)];
    RunsJoin(mid, most, after, rest);
    var all, both := mid + after[1..], most + rest;
    forall i | 0 <= i < |both| && i != |calm| ensures Reliable(all[i], both[i]) {
      if i < |calm| {
        assert all[i] == before[i] && both[i] == calm[i];
      } else {
        assert all[i] == after[i - |most|] && both[i] == rest[i - |most|];
      }
    }
    assert OnlyFailure(all, both, |calm|, failure);
  }

  // ----- a termination that fails -----

  /** Without the terminator's success the main safety result is false. */
  lemma FailedUndoCostsSafety()
    ensures exists states, steps, n: nat :: OnlyFailure(states, steps, n, Undo(false))
  {
    var spawned := OneLaunched();
    Then(INSTALLED, spawned, Launch(RecordRaises));
    var t := Do(spawned, Launch(RecordRaises));
    ReachedInv(t);
    var after, steps := FailedUndoAdmitsSecondWorker(t, "4", 8);
    RestOfRun(after, steps);
    FailureBetween(INSTALLED, t, Undo(false), after[4]);
  }

  lemma ReachedInv(t: State)
    requires Reaches(INSTALLED, t)
    ensures Inv(t)
  {
    var states, steps :| Path(states, steps, INSTALLED, t);
    RunsKeepInv(states, steps, |steps|);
  }

  lemma RestOfRun(states: seq<State>, steps: seq<Step>)
    requires Run(states, steps) && |steps| > 0 && forall i :: 1 <= i < |steps| ==> Reliable(states[i], steps[i])
    ensures Reaches(states[1], states[|steps|])
  {
    forall i | 0 <= i < |steps[1..]| ensures Enabled(states[1..][i], steps[1..][i]) && Reliable(states[1..][i], steps[1..][i])
      && states[1..][i + 1] == Do(states[1..][i], steps[1..][i]) {
      assert Enabled(states[i + 1], steps[i + 1]) && Reliable(states[i + 1], steps[i + 1]);
    }
    assert Path(states[1..], steps[1..], states[1], states[|steps|]);
  }

  // ----- a watcher that cannot be started -----

  /** The row is given up although its child runs, and the application dies. While it lives, the
      runner still knows the child and starts no other. */
  lemma UnwatchedThenCrash(t: State, at: string) returns (down: State)
    requires Inv(t) && IsRunning(t) && t.gui.recon.Starting?
    ensures Enabled(t, Launch(WatchRaises)) && Reaches(Do(t, Launch(WatchRaises)), down)
    ensures down.gui.Down? && down.procs == t.procs && down.lease == t.lease
    ensures WithStatus(down.jobs, Processing) == {} && WithStatus(t.jobs, Queued) <= WithStatus(down.jobs, Queued)
  {
    var a := Do(t, Launch(WatchRaises));
    RowGivenUp(t.jobs, t.gui.recon.job, at);
    Here(a);
    Then(a, a, Launch(MarkUnlaunched(true, [], at)));
    var b := Do(a, Launch(MarkUnlaunched(true, [], at)));
    Then(a, b, World(Crash));
    down := Do(b, World(Crash));
  }

  /** The next start sees no row in processing, so it looks for no worker and launches a second. */
  lemma RestartAdmitsSecondWorker(s: State, down: State, at: string, p: Pid, q: Pid) returns (u: State)
    requires Reaches(s, down) && down.gui.Down? && WithStatus(down.jobs, Processing) == {}
    requires WithStatus(down.jobs, Queued) != {} && p in down.procs && down.procs[p].Worker? && q > 0 && q !in down.procs
    ensures Reaches(s, u) && !OneWorker(u.procs)
  {
    StartsUp(s, down);
    var up := Ready(RecoverAfterRestart(down.jobs, {}), down.procs, down.lease);
    StillQueued(down.jobs);
    u := ClaimAndSpawn(up, at, q);
    var c :| Run([up, c, u], [Launch(ClaimJob(at)), Launch(Spawn(q))]);
    GoesOn(s, up, [up, c, u], [Launch(ClaimJob(at)), Launch(Spawn(q))], u);
    assert u.procs[p].Worker? && u.procs[q].Worker?;
  }

  lemma StillQueued(db: Db)
    requires WithStatus(db, Processing) == {} && WithStatus(db, Queued) != {}
    ensures var r := RecoverAfterRestart(db, {}); WithStatus(r, Processing) == {} && WithStatus(r, Queued) != {}
  {
    var j :| j in WithStatus(db, Queued);
    assert j in WithStatus(RecoverAfterRestart(db, {}), Queued);
  }

  lemma OneRecorded() returns (t: State)
    ensures Reaches(INSTALLED, t) && IsRunning(t) && t.gui.recon.Starting?
    ensures t.procs == map[7 := Worker(t.gui.recon.job)] && WithStatus(t.jobs, Queued) != {}
  {
    var spawned := OneLaunched();
    Then(INSTALLED, spawned, Launch(RecordPid));
    t := Do(spawned, Launch(RecordPid));
    UpdateOne(spawned.jobs, spawned.gui.recon.job, SetWorkerPid(Some(7)));
    var left :| left in WithStatus(spawned.jobs, Queued) - {spawned.gui.recon.job};
    assert left in WithStatus(t.jobs, Queued);
  }

  /** Nor does it hold when a watcher cannot be started and its child lives on. */
  lemma UnwatchedCostsSafety()
    ensures exists states, steps, n: nat :: OnlyFailure(states, steps, n, WatchRaises)
  {
    var t := OneRecorded();
    ReachedInv(t);
    var down := UnwatchedThenCrash(t, "4");
    var u := RestartAdmitsSecondWorker(Do(t, Launch(WatchRaises)), down, "5", 7, 8);
    FailureBetween(INSTALLED, t, WatchRaises, u);
  }
}
