/** No step, and so no crash, restart, retry or user action in any order, loses a recording the
    program accepted, overwrites a published one, or touches a manual source. */
module ImportSafety {
  import opened Models
  import opened Database
  import opened ImportProtocol

  // ----- steps on the job table -----

  /** One row changes without a change to what its import recorded. */
  ghost predicate RowMoves(s: State, db: Db, j: JobId) {
    && j in s.jobs && db.Keys == s.jobs.Keys && (forall k | k in db && k != j :: db[k] == s.jobs[k])
    && var (old_, new_) := (s.jobs[j], db[j]);
    && new_.sourcePath == old_.sourcePath && new_.origin == old_.origin && new_.sourceSize == old_.sourceSize
    && new_.archiveDir == old_.archiveDir && new_.archivedMedia == old_.archivedMedia && new_.sourceSha == old_.sourceSha
    && (NeedsArchive(new_.status) ==> NeedsArchive(old_.status) || Archived(s, j))
    && (new_.retryCount == 0 && new_.status in {WaitingForStable, Importing} ==>
          old_.retryCount == 0 && old_.status in {WaitingForStable, Importing}
          && (new_.status == WaitingForStable ==> old_.status == WaitingForStable))
  }

  lemma RowMovesKeepInv(s: State, db: Db, j: JobId)
    requires Inv(s) && RowMoves(s, db, j)
    ensures Inv(s.(jobs := db))
  {
    var t := s.(jobs := db);
    forall k | k in db ensures RowInv(t, k) { RowMovesKeepRow(s, db, j, k); }
    forall a | a in t.log && a !in t.released ensures Held(t, a) { HeldAgain(s, t, a); }
  }

  lemma RowMovesKeepRow(s: State, db: Db, j: JobId, k: JobId)
    requires Inv(s) && RowMoves(s, db, j) && k in db
    ensures RowInv(s.(jobs := db), k)
  {
    assert RowInv(s, k);
    if db[k].archivedMedia.Some? { assert InLog(s, k, db[k].archivedMedia.value); }
  }

  /** A recording stays held when the files do not change. */
  lemma HeldAgain(s: State, t: State, a: Acceptance)
    requires Held(s, a) && t.files == s.files && s.log <= t.log
    ensures Held(t, a)
  {
    if !(a.source in s.files && s.files[a.source] == a.bytes) {
      var b :| b in s.log && PublishedAs(s, a, b);
      assert b in t.log && PublishedAs(t, a, b);
    }
  }

  lemma TransitionMoves(s: State, j: JobId, target: JobStatus, notes: seq<Assign>, at: string)
    requires j in s.jobs && target in Allowed(s.jobs[j].status) && All(Note, notes)
    requires NeedsArchive(target) ==> NeedsArchive(s.jobs[j].status) || Archived(s, j)
    requires target != WaitingForStable && (target == Importing ==> s.jobs[j].status == WaitingForStable)
    ensures RowMoves(s, OrSame(s.jobs, Transition(s.jobs, j, target, notes, at)), j)
    ensures OrSame(s.jobs, Transition(s.jobs, j, target, notes, at))[j].status == target
  {
    TransitionEffect(s.jobs, j, target, notes, at);
  }

  lemma {:induction false} ApplyQuiet(job: Job, updates: seq<Assign>)
    requires All(Quiet, updates)
    ensures var r := Apply(job, updates);
      && r.sourceSize == job.sourceSize && r.archiveDir == job.archiveDir
      && r.archivedMedia == job.archivedMedia && r.sourceSha == job.sourceSha
  {
    if updates != [] {
      ApplyQuiet(job, updates[..|updates| - 1]);
      assert Quiet(updates[|updates| - 1]);
    }
  }

  lemma NoteMoves(s: State, j: JobId, updates: seq<Assign>)
    requires j in s.jobs && All(Quiet, updates)
    ensures RowMoves(s, OrSame(s.jobs, Update(s.jobs, j, updates)), j)
  {
    forall i | 0 <= i < |updates| ensures Mutable(updates[i]) { assert Quiet(updates[i]); }
    UpdateEffect(s.jobs, j, updates);
    ApplyMutable(s.jobs[j], updates);
    ApplyQuiet(s.jobs[j], updates);
  }

  /** A row is queued again without a new import only when its archived original verifies. */
  lemma RetryMoves(s: State, j: JobId, at: string)
    requires j in s.jobs
    ensures RowMoves(s, OrSame(s.jobs, Retry(s.jobs, j, VerifiedMedia(s.jobs[j], s.files).None?, at)), j)
  {
    assert VerifiedMedia(s.jobs[j], s.files).Some? ==> Archived(s, j);
  }

  lemma RestoreMoves(s: State, j: JobId, final: Final, at: string)
    requires j in s.jobs
    ensures RowMoves(s, OrSame(s.jobs, RestoreTerminal(s.jobs, j, final, at)), j)
  {
    if s.jobs[j].status == Processing && final.status in {Completed, CompletedWithWarnings, Failed} {
      RestoreEffect(s.jobs, j, final, at);
    }
  }

  lemma TableStepMoves(s: State, step: TableStep)
    requires TableEnabled(s, step)
    ensures RowMoves(s, DoTable(s, step).jobs, step.job)
  {
    match step
    case Settle(j, target, notes, at) => TransitionMoves(s, j, target, notes, at);
    case FailImport(j, target, notes, at) => TransitionMoves(s, j, target, notes, at);
    case Drop(j, target, notes, at) => TransitionMoves(s, j, target, notes, at);
    case Advance(j, target, notes, at) => TransitionMoves(s, j, target, notes, at);
    case Annotate(j, updates) => NoteMoves(s, j, updates);
    case RestoreResult(j, final, at) => RestoreMoves(s, j, final, at);
    case RetryJob(j, at) => RetryMoves(s, j, at);
  }

  // ----- detection and import -----

  /** Rows that did not change keep their part of the invariant when only the log grows. */
  lemma OtherRowKept(s: State, t: State, k: JobId)
    requires k in s.jobs && k in t.jobs && t.jobs[k] == s.jobs[k] && RowInv(s, k)
    requires t.files == s.files && s.log <= t.log && forall a | a in t.log && a !in s.log :: a.job != k
    ensures RowInv(t, k)
  {
    if s.jobs[k].archivedMedia.Some? {
      var b :| b in s.log && b.job == k && b.target == s.jobs[k].archivedMedia.value;
      assert b in t.log && InLog(t, k, b.target);
    }
  }

  lemma AllHeldAgain(s: State, t: State)
    requires Conserved(s) && t.files == s.files && s.log <= t.log && s.released <= t.released
    requires forall a | a in t.log && a !in s.log :: Held(t, a)
    ensures Conserved(t)
  {
    forall a | a in t.log && a !in t.released ensures Held(t, a) {
      if a in s.log { HeldAgain(s, t, a); }
    }
  }

  lemma DetectedKeepsInv(s: State, step: ImportStep)
    requires Inv(s) && ImportEnabled(s, step) && step.Detected?
    ensures Inv(DoImport(s, step))
  {
    var t := DoImport(s, step);
    forall k | k in t.jobs ensures RowInv(t, k) {
      if k in s.jobs { OtherRowKept(s, t, k); }
    }
    AllHeldAgain(s, t);
  }

  lemma BeginKeepsInv(s: State, j: JobId, at: string)
    requires Inv(s) && ImportEnabled(s, Begin(j, at))
    ensures Inv(DoImport(s, Begin(j, at)))
  {
    assert RowInv(s, j);
    var t := DoImport(s, Begin(j, at));
    TransitionMoves(s, j, Importing, [], at);
    RowMovesKeepInv(s, t.jobs, j);
    var u := s.(jobs := t.jobs);
    forall k | k in t.jobs ensures RowInv(t, k) { OtherRowKept(u, t, k); }
    AllHeldAgain(u, t);
  }

  lemma IntendEffect(s: State, j: JobId, dir: string)
    requires ImportEnabled(s, Intend(j, dir))
    ensures var a := Accepted(s, j, dir);
      DoImport(s, Intend(j, dir)).jobs == s.jobs[j := s.jobs[j].(
        archiveDir := Some(dir), archivedMedia := Some(a.target), sourceSize := Some(|a.bytes|))]
  {
    var a := Accepted(s, j, dir);
    UpdateThree(s.jobs, j, SetArchiveDir(dir), SetArchivedMedia(a.target), SetSourceSize(|a.bytes|));
  }

  lemma IntendKeepsRow(s: State, j: JobId, dir: string, k: JobId)
    requires Inv(s) && ImportEnabled(s, Intend(j, dir)) && k in s.jobs
    ensures k in DoImport(s, Intend(j, dir)).jobs && RowInv(DoImport(s, Intend(j, dir)), k)
  {
    IntendEffect(s, j, dir);
    var t := DoImport(s, Intend(j, dir));
    assert RowInv(s, j);
    if k == j {
      assert Accepted(s, j, dir) in t.log && InLog(t, j, Accepted(s, j, dir).target);
    } else {
      OtherRowKept(s, t, k);
    }
  }

  lemma IntendKeepsLog(s: State, j: JobId, dir: string)
    requires Inv(s) && ImportEnabled(s, Intend(j, dir))
    ensures LogInv(DoImport(s, Intend(j, dir)))
  {
    IntendEffect(s, j, dir);
  }

  lemma IntendKeepsInv(s: State, j: JobId, dir: string)
    requires Inv(s) && ImportEnabled(s, Intend(j, dir))
    ensures Inv(DoImport(s, Intend(j, dir)))
  {
    IntendKeepsLog(s, j, dir);
    assert RowInv(s, j);
    IntendEffect(s, j, dir);
    var t := DoImport(s, Intend(j, dir));
    forall k | k in t.jobs ensures RowInv(t, k) { IntendKeepsRow(s, j, dir, k); }
    AllHeldAgain(s, t);
  }

  function Recorded(s: State, step: ImportStep): Db
    requires ImportEnabled(s, step) && (step.RecordArchive? || step.RecordHash?)
  {
    var j := step.job;
    var data := s.files[s.jobs[j].archivedMedia.value];
    s.jobs[j := if step.RecordHash? then s.jobs[j].(sourceSha := Some(data))
                else s.jobs[j].(archiveDir := Some(s.jobs[j].archivedMedia.value.dir), sourceSize := Some(|data|))]
  }

  lemma RecordEffect(s: State, step: ImportStep)
    requires ImportEnabled(s, step) && (step.RecordArchive? || step.RecordHash?)
    ensures DoImport(s, step) == s.(jobs := Recorded(s, step))
  {
    var media := s.jobs[step.job].archivedMedia.value;
    if step.RecordHash? {
      UpdateOne(s.jobs, step.job, SetSourceSha(s.files[media]));
    } else {
      UpdateThree(s.jobs, step.job, SetArchiveDir(media.dir), SetArchivedMedia(media), SetSourceSize(|s.files[media]|));
    }
  }

  lemma RecordKeepsInv(s: State, step: ImportStep)
    requires Inv(s) && ImportEnabled(s, step) && (step.RecordArchive? || step.RecordHash?)
    ensures Inv(DoImport(s, step))
  {
    RecordEffect(s, step);
    var t := DoImport(s, step);
    assert RowInv(s, step.job);
    forall k | k in t.jobs ensures RowInv(t, k) {
      if k == step.job {
        assert InLog(s, k, s.jobs[k].archivedMedia.value) && t.log == s.log;
      } else {
        OtherRowKept(s, t, k);
      }
    }
    AllHeldAgain(s, t);
  }

  lemma ImportKeepsInv(s: State, step: ImportStep)
    requires Inv(s) && ImportEnabled(s, step)
    ensures Inv(DoImport(s, step))
  {
    match step
    case Detected(_, _, _, _, _, _, _) => DetectedKeepsInv(s, step);
    case Begin(j, at) => BeginKeepsInv(s, j, at);
    case Intend(j, dir) => IntendKeepsInv(s, j, dir);
    case RecordArchive(_) => RecordKeepsInv(s, step);
    case RecordHash(_) => RecordKeepsInv(s, step);
    case RecoverRows(blocked) => RecoverRowsKeepInv(s, blocked);
  }

  lemma RecoverRowsKeepInv(s: State, blocked: set<JobId>)
    requires Inv(s)
    ensures Inv(DoImport(s, RecoverRows(blocked)))
  {
    var t := DoImport(s, RecoverRows(blocked));
    forall k | k in t.jobs ensures RowInv(t, k) { RecoveredRowKept(s, blocked, k); }
    AllHeldAgain(s, t);
  }

  lemma RecoveredRowKept(s: State, blocked: set<JobId>, k: JobId)
    requires Inv(s) && k in s.jobs
    ensures RowInv(DoImport(s, RecoverRows(blocked)), k)
  {
    assert RowInv(s, k);
    if s.jobs[k].archivedMedia.Some? { assert InLog(s, k, s.jobs[k].archivedMedia.value); }
  }

  lemma ControlKeepsInv(s: State, step: ControlStep)
    requires Inv(s) && ControlEnabled(s, step)
    ensures Inv(DoControl(s, step))
  {
    var t := DoControl(s, step);
    forall k | k in t.jobs ensures RowInv(t, k) { OtherRowKept(s, t, k); }
    AllHeldAgain(s, t);
  }

  // ----- steps on files -----

  /** The table stays, published originals stay, and every accepted recording stays held. */
  ghost predicate FilesMove(s: State, t: State) {
    && t.jobs == s.jobs && t.dirs == s.dirs && t.log == s.log && s.released <= t.released && t.active == s.active
    && (forall p | p in s.files && IsTarget(p) :: p in t.files && t.files[p] == s.files[p])
    && (forall a | a in s.log && a.target in t.files :: t.files[a.target] == a.bytes)
    && (forall p | p in t.files && p.ArchiveFile? :: p.dir in s.dirs)
    && (forall dir | Unused(s, dir) :: Unused(t, dir))
    && (forall a | a in s.log && a.source in s.files && s.files[a.source] == a.bytes && a !in t.released ::
          Held(t, a))
  }

  lemma FilesMoveKeepsInv(s: State, t: State)
    requires Inv(s) && FilesMove(s, t)
    ensures Inv(t)
  {
    forall k | k in t.jobs ensures RowInv(t, k) {
      assert RowInv(s, k);
      if s.jobs[k].archivedMedia.Some? { assert InLog(s, k, s.jobs[k].archivedMedia.value); }
    }
    forall a | a in t.log && a !in t.released ensures Held(t, a) {
      assert Held(s, a);
      if !(a.source in s.files && s.files[a.source] == a.bytes) {
        var b :| b in s.log && PublishedAs(s, a, b);
        assert IsTarget(b.target) && PublishedAs(t, a, b);
      }
    }
  }

  lemma FileStepMoves(s: State, step: FileStep)
    requires Inv(s) && FileEnabled(s, step)
    ensures FilesMove(s, DoFile(s, step))
  {
    var t := DoFile(s, step);
    if !step.UserChanges? { assert RowInv(s, step.acceptance.job); }
    forall a | a in s.log && a.source in s.files && s.files[a.source] == a.bytes && a !in t.released
      ensures Held(t, a)
    {
      assert RowInv(s, a.job);
      if step.MoveSource? || step.RemoveSource? {
        assert a.source == step.acceptance.source ==> PublishedAs(t, a, step.acceptance);
      }
    }
  }

  lemma StepKeepsInv(s: State, step: Step)
    requires Inv(s) && Enabled(s, step)
    ensures Inv(Do(s, step))
  {
    match step
    case File(f) =>
      FileStepMoves(s, f);
      FilesMoveKeepsInv(s, DoFile(s, f));
    case Table(t) =>
      TableStepMoves(s, t);
      RowMovesKeepInv(s, DoTable(s, t).jobs, t.job);
    case Import(i) => ImportKeepsInv(s, i);
    case Control(c) => ControlKeepsInv(s, c);
  }

  // ----- runs -----

  lemma {:induction false} RunsKeepInv(states: seq<State>, steps: seq<Step>, n: nat)
    requires Run(states, steps) && Init(states[0]) && n < |states|
    ensures Inv(states[n])
  {
    if n > 0 {
      RunsKeepInv(states, steps, n - 1);
      StepKeepsInv(states[n - 1], steps[n - 1]);
    }
  }

  predicate ByUser(step: Step) { step.File? && step.file.UserChanges? }

  /** The user changed the source of an accepted recording of which nothing was published. */
  ghost predicate Releases(s: State, step: Step, a: Acceptance) {
    ByUser(step) && step.file.path == a.source && a in s.log && !HasCopy(s, a)
  }

  /** A recording is given up in one way only: at some step of the run the user changed its source
      before anything was published, outside an import of that source. */
  lemma {:induction false} OnlyUserReleases(states: seq<State>, steps: seq<Step>, n: nat, a: Acceptance)
    requires Run(states, steps) && Init(states[0]) && n < |states| && a in states[n].released
    ensures exists m: nat :: m < n && Releases(states[m], steps[m], a)
  {
    if n > 0 {
      if a in states[n - 1].released {
        OnlyUserReleases(states, steps, n - 1, a);
      } else {
        assert Releases(states[n - 1], steps[n - 1], a);
      }
    }
  }

  /** Conservation. In every run, after every step, the bytes of each accepted recording are at
      its source or at a published archive target, unless the user changed the source while
      nothing was published. */
  lemma RecordingsSurvive(states: seq<State>, steps: seq<Step>, n: nat, a: Acceptance)
    requires Run(states, steps) && Init(states[0]) && n < |states| && a in states[n].log
    requires forall m: nat :: m < n ==> !Releases(states[m], steps[m], a)
    ensures exists p :: p in states[n].files && states[n].files[p] == a.bytes && (p == a.source || IsTarget(p))
  {
    RunsKeepInv(states, steps, n);
    if a in states[n].released { OnlyUserReleases(states, steps, n, a); }
    var s := states[n];
    assert Held(s, a);
    if !(a.source in s.files && s.files[a.source] == a.bytes) {
      var b :| b in s.log && PublishedAs(s, a, b);
      assert s.files[b.target] == a.bytes;
    }
  }

  /** No two imports share an archive directory, so none can meet another's files. */
  lemma DirectoriesAreNotShared(states: seq<State>, steps: seq<Step>, n: nat, a: Acceptance, b: Acceptance)
    requires Run(states, steps) && Init(states[0]) && n < |states|
    requires a in states[n].log && b in states[n].log && a != b
    ensures IsTarget(a.target) && IsTarget(b.target) && a.target.dir != b.target.dir
  {
    RunsKeepInv(states, steps, n);
  }

  /** A published original is never overwritten and never removed, by any step. */
  lemma {:induction false} PublishedForever(states: seq<State>, steps: seq<Step>, m: nat, n: nat, p: Path)
    requires Run(states, steps) && Init(states[0]) && m <= n < |states|
    requires IsTarget(p) && p in states[m].files
    ensures p in states[n].files && states[n].files[p] == states[m].files[p]
    decreases n
  {
    if m < n {
      PublishedForever(states, steps, m, n - 1, p);
      RunsKeepInv(states, steps, n - 1);
      StepKeepsPublished(states[n - 1], steps[n - 1], p);
    }
  }

  lemma StepKeepsPublished(s: State, step: Step, p: Path)
    requires Inv(s) && Enabled(s, step) && IsTarget(p) && p in s.files
    ensures p in Do(s, step).files && Do(s, step).files[p] == s.files[p]
  {
    if step.File? {
      FileStepMoves(s, step.file);
    }
  }

  /** Outside the archive the program changes one kind of file only: it takes away the Inbox
      source of an Inbox job, with the same bytes published. A manual import changes none. */
  lemma SourcesAreRespected(s: State, step: Step, p: Path)
    requires Inv(s) && Enabled(s, step) && !ByUser(step) && !p.ArchiveFile?
    ensures var t := Do(s, step);
      || ((p in t.files <==> p in s.files) && (p in s.files ==> t.files[p] == s.files[p]))
      || (&& p in s.files && p !in t.files && p.InboxFile? && s.active.Some?
          && s.jobs[s.active.value.job].origin == Inbox && s.jobs[s.active.value.job].sourcePath == p
          && exists a :: a in s.log && a.source == p && a.target in t.files && t.files[a.target] == s.files[p])
  {
    if step.File? && (step.file.MoveSource? || step.file.RemoveSource?) {
      var a := step.file.acceptance;
      assert RowInv(s, a.job);
      assert a.source == p ==> a.target in Do(s, step).files && Do(s, step).files[a.target] == s.files[p];
    }
  }

  // ----- restart recovery of first attempts -----

  /** The recording accepted for this row, when there is one. */
  ghost predicate AcceptedFor(s: State, j: JobId, a: Acceptance) {
    j in s.jobs && a in s.log && a.job == j && s.jobs[j].archivedMedia == Some(a.target)
  }

  /** Restart recovery accepts an importing first attempt exactly when its accepted recording has
      been published: always for an Inbox job, and for a manual job once its hash is recorded or
      while its source is unchanged. */
  lemma RecoveryIsExact(s: State, j: JobId)
    requires Inv(s) && HasStatus(s, j, Importing) && s.jobs[j].retryCount == 0
    ensures VerifiedMedia(s.jobs[j], s.files).Some? <==>
      exists a :: AcceptedFor(s, j, a) && a.target in s.files
        && (s.jobs[j].origin == Inbox || s.jobs[j].sourceSha.Some?
            || (a.source in s.files && s.files[a.source] == a.bytes))
    ensures VerifiedMedia(s.jobs[j], s.files).Some? ==>
      exists a :: AcceptedFor(s, j, a) && VerifiedMedia(s.jobs[j], s.files).value == Imported(a.target.dir, a.target, |a.bytes|, a.bytes)
  {
    assert RowInv(s, j);
    if s.jobs[j].archivedMedia.Some? {
      var a :| a in s.log && a.job == j && a.target == s.jobs[j].archivedMedia.value;
      assert AcceptedFor(s, j, a);
      assert s.jobs[j].sourcePath == a.source;
    }
  }
}
