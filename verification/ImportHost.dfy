/** The durable state as an object: every change is one protocol step and is logged, so a
    method's log is the list of all the states a crash could leave behind. */
module ImportHost {
  import opened Models
  import opened Database
  import opened ImportProtocol
  import opened ImportSafety

  /** What may happen between two steps of the import of row `j`: other rows move on, new files
      are detected, the user changes files other than the one being imported. */
  predicate Foreign(s: State, step: Step, j: JobId) {
    Enabled(s, step) &&
    match step
    case File(f) => f.UserChanges?
    case Table(t) => t.Annotate? || (t.job != j && !t.Settle? && !t.FailImport?)
    case Import(i) => i.Detected?
    case Control(_) => false
  }

  /** During startup the application has no other threads: only the user acts. */
  predicate Acts(states: seq<State>, steps: seq<Step>, from: State, j: JobId, usersOnly: bool) {
    && |states| == |steps| + 1 && states[0] == from
    && forall i :: 0 <= i < |steps| ==>
         Foreign(states[i], steps[i], j) && (usersOnly ==> steps[i].File?) && states[i + 1] == Do(states[i], steps[i])
  }

  /** The row being imported, the log and the other rows' results are as before. */
  ghost predicate RowKept(s: State, t: State, j: JobId) {
    && t.active == s.active && s.dirs <= t.dirs && t.log == s.log
    && (j in s.jobs ==> j in t.jobs && SameRow(s.jobs[j], t.jobs[j]))
    && (forall k, sha | k in DoneWith(s.jobs, sha) :: k in DoneWith(t.jobs, sha))
  }

  predicate SameRow(a: Job, b: Job) {
    && b.status == a.status && b.sourcePath == a.sourcePath && b.origin == a.origin && b.sourceSize == a.sourceSize
    && b.archiveDir == a.archiveDir && b.archivedMedia == a.archivedMedia && b.sourceSha == a.sourceSha
    && b.retryCount == a.retryCount
  }

  /** What the import of row `j` may rely on after others have acted. */
  ghost predicate Undisturbed(s: State, t: State, j: JobId) {
    RowKept(s, t, j) && t.dirs == s.dirs && FilesKept(s, t, j)
  }

  ghost predicate FilesKept(s: State, t: State, j: JobId) {
    && (forall p: Path | Protected(s, j, p) :: p in s.files <==> p in t.files)
    && (forall p: Path | Protected(s, j, p) && p in s.files :: t.files[p] == s.files[p])
  }

  /** The archive is the program's, and so is the source while it is being imported. */
  predicate Protected(s: State, j: JobId, p: Path) {
    p.ArchiveFile? || (Working(s, j) && p == s.jobs[j].sourcePath)
  }

  /** No row loses its hash or, once done, its status. */
  lemma DoneRowsStay(s: State, step: TableStep, k: JobId)
    requires TableEnabled(s, step) && k in s.jobs
    ensures k in DoTable(s, step).jobs
    ensures var t := DoTable(s, step);
      t.jobs[k].sourceSha == s.jobs[k].sourceSha && (IsDone(s.jobs[k].status) ==> t.jobs[k].status == s.jobs[k].status)
  {
    TableStepMoves(s, step);
    match step
    case Annotate(j, updates) => UpdateKeepsRow(s.jobs, j, updates, k);
    case RestoreResult(j, final, at) => RestoreKeepsRow(s.jobs, j, final, at, k);
    case RetryJob(j, at) =>
    case _ =>
  }

  lemma AnnotatedRow(s: State, step: TableStep)
    requires TableEnabled(s, step) && step.Annotate?
    ensures SameRow(s.jobs[step.job], DoTable(s, step).jobs[step.job])
  {
    TableStepMoves(s, step);
    forall i | 0 <= i < |step.updates| ensures Mutable(step.updates[i]) { assert Quiet(step.updates[i]); }
    UpdateEffect(s.jobs, step.job, step.updates);
    ApplyMutable(s.jobs[step.job], step.updates);
  }

  lemma ForeignStep(s: State, step: Step, j: JobId)
    requires Foreign(s, step, j)
    ensures Undisturbed(s, Do(s, step), j)
  {
    if step.Table? {
      TableStepMoves(s, step.table);
      if step.table.Annotate? { AnnotatedRow(s, step.table); }
      forall k, sha | k in DoneWith(s.jobs, sha) ensures k in DoneWith(Do(s, step).jobs, sha) {
        DoneRowsStay(s, step.table, k);
      }
    }
  }

  lemma {:induction false} ActsKeep(states: seq<State>, steps: seq<Step>, s: State, j: JobId, usersOnly: bool, n: nat)
    requires Inv(s) && Acts(states, steps, s, j, usersOnly) && n < |states|
    ensures Inv(states[n]) && Undisturbed(s, states[n], j) && (usersOnly ==> states[n].jobs == s.jobs)
  {
    if n > 0 {
      ActsKeep(states, steps, s, j, usersOnly, n - 1);
      StepKeepsInv(states[n - 1], steps[n - 1]);
      ForeignStep(states[n - 1], steps[n - 1], j);
    }
  }

  ghost predicate Logged(states: seq<State>, steps: seq<Step>, s: State) {
    && Run(states, steps) && states[|states| - 1] == s
    && forall i :: 0 <= i < |states| ==> Inv(states[i])
  }

  lemma ActsExtendLog(states: seq<State>, steps: seq<Step>, more: seq<State>, acts: seq<Step>,
                      s: State, j: JobId, usersOnly: bool)
    requires Logged(states, steps, s) && Inv(s) && Acts(more, acts, s, j, usersOnly)
    ensures var t := more[|more| - 1];
      && Logged(states + more[1..], steps + acts, t)
      && Undisturbed(s, t, j) && (usersOnly ==> t.jobs == s.jobs)
  {
    ActsKeep(more, acts, s, j, usersOnly, |more| - 1);
    var all, did := states + more[1..], steps + acts;
    forall i | 0 <= i < |all| ensures Inv(all[i]) {
      if i >= |states| { ActsKeep(more, acts, s, j, usersOnly, i - |states| + 1); }
    }
    forall i | 0 <= i < |did| ensures Enabled(all[i], did[i]) && all[i + 1] == Do(all[i], did[i]) {
      if i >= |steps| {
        var n := i - |steps|;
        assert Foreign(more[n], acts[n], j) && more[n + 1] == Do(more[n], acts[n]);
        assert all[i] == more[n];
      }
    }
  }

  class Host {
    var s: State
    ghost var states: seq<State>
    ghost var steps: seq<Step>

    ghost predicate Valid()
      reads this
    {
      Logged(states, steps, s)
    }

    constructor (initial: State)
      requires Inv(initial)
      ensures Valid() && s == initial && states == [initial]
    {
      s := initial;
      states, steps := [initial], [];
    }

    /** One atomic step. */
    method Take(step: Step)
      requires Valid() && Enabled(s, step)
      modifies this
      ensures Valid() && s == Do(old(s), step)
      ensures states == old(states) + [s] && steps == old(steps) + [step]
    {
      StepKeepsInv(s, step);
      s := Do(s, step);
      states, steps := states + [s], steps + [step];
    }

    /** Others act for as long as they like: the user, and unless the application is still
        starting up, its other threads. */
    method OthersAct(j: JobId, usersOnly: bool)
      requires Valid()
      modifies this
      ensures Valid() && Undisturbed(old(s), s, j) && (usersOnly ==> s.jobs == old(s).jobs)
      ensures old(states) <= states
    {
      assert Acts([s], [], s, j, usersOnly);
      var more: seq<State>, acts: seq<Step> :| Acts(more, acts, s, j, usersOnly);
      ActsExtendLog(states, steps, more, acts, s, j, usersOnly);
      assert |more| > 0;
      s := more[|more| - 1];
      states, steps := states + more[1..], steps + acts;
    }
  }
}
