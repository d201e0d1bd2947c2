/** The durable job table: one pure function per SQLite transaction, the repository class
    that runs them, and what holds of the table whatever order they come in. */
module Database {
  import opened Models
  import opened Text
  import Timestamps

  type Db = map<JobId, Job>

  datatype DbError = UnknownJob | IllegalTransition | UnsupportedColumn | NotFinal

  /** One `column = value` of an UPDATE statement. */
  datatype Assign =
    | SetStatus(status: JobStatus)
    | SetQueuedAt(at: string)
    | SetStartedAt(at: string)
    | SetCompletedAt(at: string)
    | SetSourceSize(size: nat)
    | SetObservation(observation: Observation)
    | SetArchiveDir(dir: string)
    | SetArchivedMedia(media: Path)
    | SetSourceSha(sha: Bytes)
    | SetSummary(summary: Summary)
    | SetWarningText(text: Option<string>)
    | SetErrorCode(text: Option<string>)
    | SetErrorMessage(text: Option<string>)
    | SetWorkerPid(pid: Option<Pid>)
    | SetAllowDuplicate(allow: bool)

  /** The columns a caller may name; status and its three times are not among them. */
  predicate Mutable(a: Assign) {
    !a.SetStatus? && !a.SetQueuedAt? && !a.SetStartedAt? && !a.SetCompletedAt?
  }

  /** The columns the controller and the queue pass along with a transition. */
  predicate Note(a: Assign) { a.SetErrorCode? || a.SetErrorMessage? || a.SetWarningText? }

  predicate All(p: Assign -> bool, updates: seq<Assign>) {
    forall i :: 0 <= i < |updates| ==> p(updates[i])
  }

  /** SQLite stores nan as NULL; infinities it keeps. */
  function StoredNumber(x: Option<Number>): Option<Number> { if x == Some(NaN) then None else x }

  function Stored(s: Summary): Summary {
    s.(duration := StoredNumber(s.duration), probability := StoredNumber(s.probability))
  }

  function ApplyOne(job: Job, a: Assign): Job {
    match a
    case SetStatus(s) => job.(status := s)
    case SetQueuedAt(t) => job.(queuedAt := Some(t))
    case SetStartedAt(t) => job.(startedAt := Some(t))
    case SetCompletedAt(t) => job.(completedAt := Some(t))
    case SetSourceSize(n) => job.(sourceSize := Some(n))
    case SetObservation(o) => job.(observation := Some(o))
    case SetArchiveDir(d) => job.(archiveDir := Some(d))
    case SetArchivedMedia(m) => job.(archivedMedia := Some(m))
    case SetSourceSha(h) => job.(sourceSha := Some(h))
    case SetSummary(s) => job.(summary := Stored(s))
    case SetWarningText(t) => job.(summary := job.summary.(warningText := t))
    case SetErrorCode(t) => job.(errorCode := t)
    case SetErrorMessage(t) => job.(errorMessage := t)
    case SetWorkerPid(p) => job.(workerPid := p)
    case SetAllowDuplicate(b) => job.(allowDuplicate := b)
  }

  function Apply(job: Job, assigns: seq<Assign>): Job
    decreases |assigns|
  {
    if assigns == [] then job
    else ApplyOne(Apply(job, assigns[..|assigns| - 1]), assigns[|assigns| - 1])
  }

  function Heading(target: Option<JobStatus>, updates: seq<Assign>, now: string): seq<Assign> {
    match target
    case None => []
    case Some(s) =>
      [SetStatus(s)] + (
      if s == Queued then [SetQueuedAt(now)]
      else if s == Processing then [SetStartedAt(now)]
      else if !Active(s) then
        [SetCompletedAt(now)]
        + (if NamesPid(updates) then [] else [SetWorkerPid(None)])
      else [])
  }

  function UpdateRow(db: Db, id: JobId, target: Option<JobStatus>, updates: seq<Assign>, now: string)
    : Result<Db, DbError>
  {
    if !All(Mutable, updates) then Err(UnsupportedColumn)
    else
      var assigns := Heading(target, updates, now) + updates;
      if assigns == [] then Ok(db)
      else if id !in db then Err(UnknownJob)
      else Ok(db[id := Apply(db[id], assigns)])
  }

  function Allowed(s: JobStatus): set<JobStatus> {
    match s
    case WaitingForStable => {Importing, Queued, Failed, Cancelled, Duplicate}
    case Importing => {Queued, Failed, Cancelled, Interrupted, Duplicate}
    case Queued => {Processing, Failed, Cancelled, Interrupted}
    case Processing => {Completed, CompletedWithWarnings, Failed, Cancelled, Interrupted}
    case _ => {}
  }

  function Transition(db: Db, id: JobId, target: JobStatus, updates: seq<Assign>, now: string)
    : Result<Db, DbError>
  {
    if !All(Mutable, updates) then Err(UnsupportedColumn)
    else if id !in db then Err(UnknownJob)
    else if target !in Allowed(db[id].status) then Err(IllegalTransition)
    else UpdateRow(db, id, Some(target), updates, now)
  }

  function Update(db: Db, id: JobId, updates: seq<Assign>): Result<Db, DbError> {
    UpdateRow(db, id, None, updates, "")
  }

  // ----- detection -----

  function ActiveFor(db: Db, path: Path): set<JobId> {
    set id | id in db && db[id].sourcePath == path && Active(db[id].status)
  }

  function NewJob(path: Path, origin: JobOrigin, size: nat, mtime: int, now: string, clock: int): Job {
    Job(path, origin, WaitingForStable, now, Some(size), Some(Observation(size, mtime, clock)),
        None, None, None, None, None, None, NO_SUMMARY, None, None, 0, None, false)
  }

  /** A new id that is already taken violates the primary key: nothing is inserted. */
  function Detect(db: Db, newId: JobId, path: Path, origin: JobOrigin, size: nat, mtime: int,
                  now: string, clock: int): Db {
    if ActiveFor(db, path) != {} || newId in db then db
    else db[newId := NewJob(path, origin, size, mtime, now, clock)]
  }

  // ----- claiming -----

  predicate OptionLess(a: Option<string>, b: Option<string>) {
    b.Some? && (a.None? || TextLess(a.value, b.value))
  }

  /** ORDER BY queued_at, detected_at, id. */
  predicate Before(db: Db, i: JobId, j: JobId)
    requires i in db && j in db
  {
    OptionLess(db[i].queuedAt, db[j].queuedAt) || (db[i].queuedAt == db[j].queuedAt &&
    (TextLess(db[i].detectedAt, db[j].detectedAt) || (db[i].detectedAt == db[j].detectedAt &&
    TextLess(i, j))))
  }

  function WithStatus(db: Db, s: JobStatus): set<JobId> {
    set id | id in db && db[id].status == s
  }

  predicate IsFirst(db: Db, ids: set<JobId>, i: JobId)
    requires forall k | k in ids :: k in db
  {
    i in ids && forall k | k in ids :: k == i || Before(db, i, k)
  }

  lemma BeforeTotal(db: Db, i: JobId, j: JobId)
    requires i in db && j in db
    ensures i == j || Before(db, i, j) || Before(db, j, i)
    ensures !(Before(db, i, j) && Before(db, j, i))
  {
    TextLessTotal(i, j);
    TextLessTotal(db[i].detectedAt, db[j].detectedAt);
    if db[i].queuedAt.Some? && db[j].queuedAt.Some? {
      TextLessTotal(db[i].queuedAt.value, db[j].queuedAt.value);
    }
  }

  lemma BeforeTransitive(db: Db, i: JobId, j: JobId, k: JobId)
    requires i in db && j in db && k in db
    requires Before(db, i, j) && Before(db, j, k)
    ensures Before(db, i, k)
  {
    if TextLess(i, j) && TextLess(j, k) { TextLessTransitive(i, j, k); }
    var di, dj, dk := db[i].detectedAt, db[j].detectedAt, db[k].detectedAt;
    if TextLess(di, dj) && TextLess(dj, dk) { TextLessTransitive(di, dj, dk); }
    var qi, qj, qk := db[i].queuedAt, db[j].queuedAt, db[k].queuedAt;
    if OptionLess(qi, qj) && OptionLess(qj, qk) && qi.Some? {
      TextLessTransitive(qi.value, qj.value, qk.value);
    }
  }

  lemma {:induction false} FirstExists(db: Db, ids: set<JobId>) returns (first: JobId)
    requires ids != {} && forall k | k in ids :: k in db
    ensures IsFirst(db, ids, first)
    decreases |ids|
  {
    var i :| i in ids;
    var rest := ids - {i};
    if rest == {} {
      first := i;
      forall k | k in ids ensures k == i { assert k !in rest; }
    } else {
      var f := FirstExists(db, rest);
      BeforeTotal(db, i, f);
      if Before(db, f, i) {
        first := f;
        forall k | k in ids && k != f ensures Before(db, f, k) { assert k == i || k in rest; }
      } else {
        first := i;
        forall k | k in ids && k != i ensures Before(db, i, k) {
          assert k in rest;
          if k != f { BeforeTransitive(db, i, f, k); }
        }
      }
    }
  }

  function Earliest(db: Db): (first: JobId)
    requires WithStatus(db, Queued) != {}
    ensures IsFirst(db, WithStatus(db, Queued), first)
  {
    assert exists i :: IsFirst(db, WithStatus(db, Queued), i) by {
      var first := FirstExists(db, WithStatus(db, Queued));
    }
    assert forall i, j | IsFirst(db, WithStatus(db, Queued), i) && IsFirst(db, WithStatus(db, Queued), j)
      :: i == j by {
      forall i, j | IsFirst(db, WithStatus(db, Queued), i) && IsFirst(db, WithStatus(db, Queued), j)
        ensures i == j { BeforeTotal(db, i, j); }
    }
    var first: JobId :| IsFirst(db, WithStatus(db, Queued), first);
    first
  }

  /** At most one row is claimed, and only while none is being processed. */
  function Claim(db: Db, now: string): (Db, Option<JobId>) {
    if WithStatus(db, Processing) != {} || WithStatus(db, Queued) == {} then (db, None)
    else
      var id := Earliest(db);
      (db[id := Apply(db[id], Heading(Some(Processing), [], now))], Some(id))
  }

  // ----- recovery and retry -----

  const HOLD_CODE := "worker_recovery_unconfirmed"
  const HOLD_TEXT :=
    "A previous transcription worker could not be confirmed stopped. The queue is paused to protect the GPU until it can be verified."

  /** What marks a row whose worker could not be ruled out. */
  function HoldNotes(): seq<Assign> { [SetErrorCode(Some(HOLD_CODE)), SetErrorMessage(Some(HOLD_TEXT))] }

  const APP_RESTARTED_TEXT :=
    "Processing was interrupted by an application restart. Your recording is safe and can be retried."

  function ResultColumns(final: Final): seq<Assign> {
    [SetSummary(final.summary), SetErrorCode(final.errorCode), SetErrorMessage(final.errorMessage)]
  }

  /** `set_result_summary`; the metadata it writes afresh held the request to reprocess. */
  function SummaryColumns(summary: Summary): seq<Assign> { [SetSummary(summary), SetAllowDuplicate(false)] }

  function RestoreTerminal(db: Db, id: JobId, final: Final, now: string): Result<Db, DbError> {
    if final.status !in {Completed, CompletedWithWarnings, JobStatus.Failed} then Err(NotFinal)
    else if id !in db then Err(UnknownJob)
    else if db[id].status != Processing then Ok(db)
    else
      var updates := ResultColumns(final);
      var job := Apply(db[id], Heading(Some(final.status), updates, now) + updates);
      Ok(db[id := if final.completedAt.Some? && final.completedAt.value != ""
                  then job.(completedAt := final.completedAt) else job])
  }

  /** Rows that died with the application: importing, or processing and not held back. */
  predicate Stranded(job: Job, blocked: bool) {
    job.status == Importing || (job.status == Processing && !blocked)
  }

  function StrandedRows(db: Db, blocked: set<JobId>): set<JobId> {
    set id | id in db && Stranded(db[id], id in blocked)
  }

  function RestartedRow(job: Job, blocked: bool): Job {
    if Stranded(job, blocked)
    then job.(status := Interrupted, workerPid := None, errorCode := Some("app_restarted"),
              errorMessage := Some(APP_RESTARTED_TEXT))
    else job
  }

  function RecoverAfterRestart(db: Db, blocked: set<JobId>): Db {
    map id | id in db :: RestartedRow(db[id], id in blocked)
  }

  function Retry(db: Db, id: JobId, needsImport: bool, now: string): Result<Db, DbError> {
    if id !in db then Err(UnknownJob)
    else if !Retryable(db[id].status) then Err(IllegalTransition)
    else
      var job := db[id].(startedAt := None, completedAt := None, workerPid := None,
                         errorCode := None, errorMessage := None, retryCount := db[id].retryCount + 1);
      Ok(db[id := if needsImport
                  then job.(status := WaitingForStable, queuedAt := None, observation := None)
                  else job.(status := Queued, queuedAt := Some(now))])
  }

  function DoneWith(db: Db, sha: Bytes): set<JobId> {
    set id | id in db && db[id].sourceSha == Some(sha) && IsDone(db[id].status)
  }

  // ----- what an UPDATE can change -----

  lemma ApplyPair(job: Job, a: Assign, b: Assign)
    ensures Apply(job, [a]) == ApplyOne(job, a)
    ensures Apply(job, [a, b]) == ApplyOne(ApplyOne(job, a), b)
  {
    assert [a][..0] == [] && [a, b][..1] == [a];
    assert Apply(job, []) == job;
  }

  lemma ApplyTriple(job: Job, a: Assign, b: Assign, c: Assign)
    ensures Apply(job, [a, b, c]) == ApplyOne(ApplyOne(ApplyOne(job, a), b), c)
  {
    ApplyPair(job, a, b);
    assert [a, b, c][..2] == [a, b];
  }

  /** Everything but status, its three times and the worker pid. */
  predicate SameImport(a: Job, b: Job) {
    && a.sourcePath == b.sourcePath && a.origin == b.origin && a.detectedAt == b.detectedAt
    && a.sourceSize == b.sourceSize && a.observation == b.observation && a.archiveDir == b.archiveDir
    && a.archivedMedia == b.archivedMedia && a.sourceSha == b.sourceSha
    && a.retryCount == b.retryCount && a.allowDuplicate == b.allowDuplicate
  }

  lemma {:induction false} ApplyAppend(job: Job, a: seq<Assign>, b: seq<Assign>)
    ensures Apply(job, a + b) == Apply(Apply(job, a), b)
  {
    if b == [] {
      assert a + b == a;
    } else {
      assert (a + b)[..|a + b| - 1] == a + b[..|b| - 1];
      ApplyAppend(job, a, b[..|b| - 1]);
    }
  }

  /** Updates a caller may pass leave status, times, source and retry count alone. */
  lemma {:induction false} ApplyMutable(job: Job, updates: seq<Assign>)
    requires All(Mutable, updates)
    ensures var r := Apply(job, updates);
      && r.status == job.status && r.queuedAt == job.queuedAt && r.startedAt == job.startedAt
      && r.completedAt == job.completedAt && r.sourcePath == job.sourcePath
      && r.origin == job.origin && r.retryCount == job.retryCount && r.detectedAt == job.detectedAt
      && (job.archiveDir.Some? ==> r.archiveDir.Some?) && (job.archivedMedia.Some? ==> r.archivedMedia.Some?)
      && (!NamesPid(updates) ==> r.workerPid == job.workerPid)
  {
    if updates != [] {
      var front, last := updates[..|updates| - 1], updates[|updates| - 1];
      ApplyMutable(job, front);
      assert NamesPid(front) || last.SetWorkerPid? ==> NamesPid(updates);
      assert Mutable(last);
      OneMutable(Apply(job, front), last);
    }
  }

  lemma OneMutable(job: Job, a: Assign)
    requires Mutable(a)
    ensures var r := ApplyOne(job, a);
      && r.status == job.status && r.queuedAt == job.queuedAt && r.startedAt == job.startedAt
      && r.completedAt == job.completedAt && r.sourcePath == job.sourcePath
      && r.origin == job.origin && r.retryCount == job.retryCount && r.detectedAt == job.detectedAt
      && (job.archiveDir.Some? ==> r.archiveDir.Some?) && (job.archivedMedia.Some? ==> r.archivedMedia.Some?)
      && (!a.SetWorkerPid? ==> r.workerPid == job.workerPid)
  {
  }

  lemma {:induction false} ApplyNotes(job: Job, updates: seq<Assign>)
    requires All(Note, updates)
    ensures SameImport(Apply(job, updates), job)
    ensures Apply(job, updates).workerPid == job.workerPid
  {
    if updates != [] {
      ApplyNotes(job, updates[..|updates| - 1]);
      assert Note(updates[|updates| - 1]);
    }
  }

  lemma NotesAreMutable(updates: seq<Assign>)
    requires All(Note, updates)
    ensures All(Mutable, updates)
  {
    forall i | 0 <= i < |updates| ensures Mutable(updates[i]) { assert Note(updates[i]); }
  }

  function Headed(job: Job, target: JobStatus, now: string): Job {
    var moved := job.(status := target);
    if target == Queued then moved.(queuedAt := Some(now))
    else if target == Processing then moved.(startedAt := Some(now))
    else if !Active(target) then moved.(completedAt := Some(now), workerPid := None)
    else moved
  }

  predicate NamesPid(updates: seq<Assign>) {
    exists i :: 0 <= i < |updates| && updates[i].SetWorkerPid?
  }

  lemma ApplyHeading(job: Job, target: JobStatus, updates: seq<Assign>, now: string)
    ensures var moved := Headed(job, target, now);
      Apply(job, Heading(Some(target), updates, now))
        == if NamesPid(updates) then moved.(workerPid := job.workerPid) else moved
  {
    if target == Queued {
      HeadingPair(job, target, SetQueuedAt(now));
    } else if target == Processing {
      HeadingPair(job, target, SetStartedAt(now));
    } else if Active(target) {
      ApplyPair(job, SetStatus(target), SetStatus(target));
      assert Heading(Some(target), updates, now) == [SetStatus(target)];
    } else {
      SettlingHeading(job, target, updates, now);
    }
  }

  lemma HeadingPair(job: Job, target: JobStatus, a: Assign)
    ensures Apply(job, [SetStatus(target)] + [a]) == ApplyOne(job.(status := target), a)
  {
    ApplyPair(job, SetStatus(target), a);
    assert [SetStatus(target)] + [a] == [SetStatus(target), a];
  }

  lemma SettlingHeading(job: Job, target: JobStatus, updates: seq<Assign>, now: string)
    requires !Active(target)
    ensures var moved := Headed(job, target, now);
      Apply(job, Heading(Some(target), updates, now))
        == if NamesPid(updates) then moved.(workerPid := job.workerPid) else moved
  {
    if NamesPid(updates) {
      HeadingPair(job, target, SetCompletedAt(now));
      assert Heading(Some(target), updates, now) == [SetStatus(target)] + [SetCompletedAt(now)];
    } else {
      ApplyTriple(job, SetStatus(target), SetCompletedAt(now), SetWorkerPid(None));
      assert Heading(Some(target), updates, now) == [SetStatus(target), SetCompletedAt(now), SetWorkerPid(None)];
    }
  }

  /** The heading first, then the notes. */
  lemma TransitionIs(db: Db, id: JobId, target: JobStatus, notes: seq<Assign>, now: string)
    requires id in db && target in Allowed(db[id].status) && All(Note, notes)
    ensures Transition(db, id, target, notes, now) == Ok(db[id := Apply(Headed(db[id], target, now), notes)])
  {
    NotesAreMutable(notes);
    assert !NamesPid(notes) by {
      forall i | 0 <= i < |notes| ensures !notes[i].SetWorkerPid? { assert Note(notes[i]); }
    }
    ApplyHeading(db[id], target, notes, now);
    ApplyAppend(db[id], Heading(Some(target), notes, now), notes);
  }

  /** A legal transition with notes moves the status, stamps its time, drops the pid on the
      way out of the active statuses, and touches nothing the import recorded. */
  lemma TransitionEffect(db: Db, id: JobId, target: JobStatus, notes: seq<Assign>, now: string)
    requires id in db && target in Allowed(db[id].status) && All(Note, notes)
    ensures Transition(db, id, target, notes, now).Ok?
    ensures var r := Transition(db, id, target, notes, now).value;
      && r.Keys == db.Keys && (forall k | k in db && k != id :: r[k] == db[k])
      && SameImport(r[id], db[id]) && r[id].status == target
      && r[id].workerPid == (if Active(target) then db[id].workerPid else None)
      && r[id].queuedAt == (if target == Queued then Some(now) else db[id].queuedAt)
      && r[id].startedAt == (if target == Processing then Some(now) else db[id].startedAt)
      && r[id].completedAt == if Active(target) then db[id].completedAt else Some(now)
  {
    TransitionIs(db, id, target, notes, now);
    NotesAreMutable(notes);
    ApplyNotes(Headed(db[id], target, now), notes);
    ApplyMutable(Headed(db[id], target, now), notes);
  }

  lemma ClaimEffect(db: Db, now: string)
    ensures var (r, claimed) := Claim(db, now);
      && r.Keys == db.Keys
      && (claimed.None? ==> r == db)
      && (claimed.Some? ==>
          && claimed.value in db && db[claimed.value].status == Queued
          && WithStatus(db, Processing) == {}
          && IsFirst(db, WithStatus(db, Queued), claimed.value)
          && r == db[claimed.value := db[claimed.value].(status := Processing, startedAt := Some(now))])
  {
    if WithStatus(db, Processing) == {} && WithStatus(db, Queued) != {} {
      ApplyHeading(db[Earliest(db)], Processing, [], now);
    }
  }

  lemma RestoredColumns(job: Job, final: Final, now: string)
    requires final.status in {Completed, CompletedWithWarnings, JobStatus.Failed}
    ensures Apply(job, Heading(Some(final.status), ResultColumns(final), now) + ResultColumns(final))
         == Headed(job, final.status, now).(summary := Stored(final.summary), errorCode := final.errorCode,
                                            errorMessage := final.errorMessage)
  {
    var updates := ResultColumns(final);
    ApplyHeading(job, final.status, updates, now);
    ApplyAppend(job, Heading(Some(final.status), updates, now), updates);
    ApplyTriple(Headed(job, final.status, now), updates[0], updates[1], updates[2]);
  }

  lemma RestoreEffect(db: Db, id: JobId, final: Final, now: string)
    requires id in db && db[id].status == Processing
    requires final.status in {Completed, CompletedWithWarnings, JobStatus.Failed}
    ensures RestoreTerminal(db, id, final, now).Ok?
    ensures var r := RestoreTerminal(db, id, final, now).value;
      && r.Keys == db.Keys && (forall k | k in db && k != id :: r[k] == db[k])
      && SameImport(r[id], db[id]) && r[id].status == final.status && r[id].workerPid == None
      && r[id].summary == Stored(final.summary) && r[id].errorCode == final.errorCode
      && r[id].errorMessage == final.errorMessage
      && r[id].completedAt == if final.completedAt in {None, Some("")} then Some(now) else final.completedAt
  {
    RestoredColumns(db[id], final, now);
  }

  lemma UpdateEffect(db: Db, id: JobId, updates: seq<Assign>)
    requires id in db && All(Mutable, updates)
    ensures Update(db, id, updates) == Ok(db[id := Apply(db[id], updates)])
  {
    assert Heading(None, updates, "") + updates == updates;
    if updates == [] {
      assert db[id := db[id]] == db;
    }
  }

  lemma UpdateOne(db: Db, id: JobId, a: Assign)
    requires id in db && Mutable(a)
    ensures OrSame(db, Update(db, id, [a])) == db[id := ApplyOne(db[id], a)]
  {
    UpdateEffect(db, id, [a]);
    ApplyPair(db[id], a, a);
  }

  lemma UpdateTwo(db: Db, id: JobId, a: Assign, b: Assign)
    requires id in db && Mutable(a) && Mutable(b)
    ensures OrSame(db, Update(db, id, [a, b])) == db[id := ApplyOne(ApplyOne(db[id], a), b)]
  {
    UpdateEffect(db, id, [a, b]);
    ApplyPair(db[id], a, b);
  }

  lemma UpdateThree(db: Db, id: JobId, a: Assign, b: Assign, c: Assign)
    requires id in db && Mutable(a) && Mutable(b) && Mutable(c)
    ensures OrSame(db, Update(db, id, [a, b, c])) == db[id := ApplyOne(ApplyOne(ApplyOne(db[id], a), b), c)]
  {
    UpdateEffect(db, id, [a, b, c]);
    ApplyTriple(db[id], a, b, c);
  }

  // ----- every write the program can make, in any order -----

  datatype Call =
    | DetectCall(newId: JobId, path: Path, origin: JobOrigin, size: nat, mtime: int, at: string, clock: int)
    | TransitionCall(id: JobId, target: JobStatus, updates: seq<Assign>, at: string)
    | UpdateCall(id: JobId, updates: seq<Assign>)
    | ClaimCall(at: string)
    | RestoreCall(id: JobId, final: Final, at: string)
    | RecoverCall(blocked: set<JobId>)
    | RetryCall(id: JobId, needsImport: bool, at: string)

  /** A call that raises is rolled back. */
  function OrSame(db: Db, r: Result<Db, DbError>): Db {
    if r.Ok? then r.value else db
  }

  function Exec(db: Db, call: Call): Db {
    match call
    case DetectCall(newId, path, origin, size, mtime, at, clock) => Detect(db, newId, path, origin, size, mtime, at, clock)
    case TransitionCall(id, target, updates, at) => OrSame(db, Transition(db, id, target, updates, at))
    case UpdateCall(id, updates) => OrSame(db, Update(db, id, updates))
    case ClaimCall(at) => Claim(db, at).0
    case RestoreCall(id, final, at) => OrSame(db, RestoreTerminal(db, id, final, at))
    case RecoverCall(blocked) => RecoverAfterRestart(db, blocked)
    case RetryCall(id, needsImport, at) => OrSame(db, Retry(db, id, needsImport, at))
  }

  function ExecAll(db: Db, calls: seq<Call>): Db
    decreases |calls|
  {
    if calls == [] then db else ExecAll(Exec(db, calls[0]), calls[1..])
  }

  /** Status and source of a row after an arbitrary transition or update. */
  lemma ArbitraryUpdate(db: Db, id: JobId, target: Option<JobStatus>, updates: seq<Assign>, at: string)
    requires id in db && UpdateRow(db, id, target, updates, at).Ok?
    ensures var r := UpdateRow(db, id, target, updates, at).value;
      && r.Keys == db.Keys && (forall k | k in db && k != id :: r[k] == db[k])
      && r[id].status == (if target.Some? then target.value else db[id].status)
      && r[id].sourcePath == db[id].sourcePath
  {
    var h := Heading(target, updates, at);
    ApplyAppend(db[id], h, updates);
    if target.Some? {
      ApplyHeading(db[id], target.value, updates, at);
    }
    assert |h| == 0 ==> Apply(db[id], h) == db[id];
    if h + updates == [] {
      assert updates == [];
    }
    ApplyMutable(Apply(db[id], h), updates);
  }

  predicate KeepsRow(db: Db, r: Db, id: JobId, retried: bool)
    requires id in db
  {
    && id in r && r[id].sourcePath == db[id].sourcePath
    && (Settled(db[id].status) ==> r[id].status == db[id].status)
    && (!Active(db[id].status) && !retried ==> !Active(r[id].status))
  }

  /** One call: rows stay, keep their source, a settled row keeps its status, and only a
      retry makes a finished row active again. */
  lemma ExecKeepsRow(db: Db, call: Call, id: JobId)
    requires id in db
    ensures KeepsRow(db, Exec(db, call), id, call.RetryCall?)
  {
    match call
    case TransitionCall(k, target, updates, at) => TransitionKeepsRow(db, k, target, updates, at, id);
    case UpdateCall(k, updates) => UpdateKeepsRow(db, k, updates, id);
    case ClaimCall(at) => ClaimEffect(db, at);
    case RestoreCall(k, final, at) => RestoreKeepsRow(db, k, final, at, id);
    case _ =>
  }

  lemma UpdateKeepsRow(db: Db, k: JobId, updates: seq<Assign>, id: JobId)
    requires id in db
    ensures KeepsRow(db, OrSame(db, Update(db, k, updates)), id, false)
  {
    if k in db && Update(db, k, updates).Ok? {
      ArbitraryUpdate(db, k, None, updates, "");
    }
  }

  lemma TransitionKeepsRow(db: Db, k: JobId, target: JobStatus, updates: seq<Assign>, at: string, id: JobId)
    requires id in db
    ensures KeepsRow(db, OrSame(db, Transition(db, k, target, updates, at)), id, false)
  {
    if Transition(db, k, target, updates, at).Ok? {
      assert !Settled(db[k].status) && Active(db[k].status);
      ArbitraryUpdate(db, k, Some(target), updates, at);
    }
  }

  lemma RestoreKeepsRow(db: Db, k: JobId, final: Final, at: string, id: JobId)
    requires id in db
    ensures KeepsRow(db, OrSame(db, RestoreTerminal(db, k, final, at)), id, false)
  {
    if k in db && db[k].status == Processing && RestoreTerminal(db, k, final, at).Ok? {
      RestoreEffect(db, k, final, at);
    }
  }

  /** The legal moves, told by what can happen to a job: it is taken up or found unfit, imported,
      queued, processed, finished, and may be cancelled or fail on the way. */
  predicate LegalMove(a: JobStatus, b: JobStatus) {
    || (Active(a) && b in {Failed, Cancelled})
    || (a in {Importing, Queued, Processing} && b == Interrupted)
    || (a == WaitingForStable && b in {Importing, Queued, Duplicate})
    || (a == Importing && b in {Queued, Duplicate})
    || (a == Queued && b == Processing)
    || (a == Processing && b in {Completed, CompletedWithWarnings})
  }

  lemma LegalMovesOnly(db: Db, id: JobId, target: JobStatus, notes: seq<Assign>, now: string)
    requires id in db && All(Note, notes)
    ensures Transition(db, id, target, notes, now).Ok? <==> LegalMove(db[id].status, target)
    ensures !LegalMove(db[id].status, target) ==> Transition(db, id, target, notes, now) == Err(IllegalTransition)
  {
    NotesAreMutable(notes);
  }

  /** Completed, completed-with-warnings and duplicate rows never change status again,
      through any calls with any arguments. */
  lemma {:induction false} SettledForever(db: Db, calls: seq<Call>, id: JobId)
    requires id in db && Settled(db[id].status)
    ensures id in ExecAll(db, calls) && ExecAll(db, calls)[id].status == db[id].status
    decreases |calls|
  {
    if calls != [] {
      ExecKeepsRow(db, calls[0], id);
      SettledForever(Exec(db, calls[0]), calls[1..], id);
    }
  }

  ghost predicate OneActivePerSource(db: Db) {
    forall i, j | i in db && j in db && Active(db[i].status) && Active(db[j].status)
      :: db[i].sourcePath == db[j].sourcePath ==> i == j
  }

  lemma {:induction false} NoRetryOneActivePerSource(db: Db, calls: seq<Call>)
    requires OneActivePerSource(db) && forall i :: 0 <= i < |calls| ==> !calls[i].RetryCall?
    ensures OneActivePerSource(ExecAll(db, calls))
    decreases |calls|
  {
    if calls != [] {
      ExecOneActivePerSource(db, calls[0]);
      NoRetryOneActivePerSource(Exec(db, calls[0]), calls[1..]);
    }
  }

  lemma ExecOneActivePerSource(db: Db, call: Call)
    requires OneActivePerSource(db) && !call.RetryCall?
    ensures OneActivePerSource(Exec(db, call))
  {
    var r := Exec(db, call);
    forall i | i in db ensures KeepsRow(db, r, i, false) { ExecKeepsRow(db, call, i); }
    if call.DetectCall? && call.newId !in db && ActiveFor(db, call.path) == {} {
      forall i | i in db && Active(db[i].status) ensures db[i].sourcePath != call.path {
        assert i !in ActiveFor(db, call.path);
      }
    } else {
      ExecSameKeys(db, call);
      forall i | i in r && Active(r[i].status) ensures Active(db[i].status) {}
    }
  }

  lemma ExecSameKeys(db: Db, call: Call)
    requires call.DetectCall? ==> call.newId in db || ActiveFor(db, call.path) != {}
    ensures Exec(db, call).Keys == db.Keys
  {
    ClaimEffect(db, if call.ClaimCall? then call.at else "");
  }

  // ----- one row in processing -----

  ghost predicate OneProcessing(db: Db) {
    forall i, j | i in db && j in db :: db[i].status == Processing && db[j].status == Processing ==> i == j
  }

  /** Rows enter PROCESSING only by a claim or by a transition that names it. */
  lemma EntersProcessing(db: Db, call: Call, k: JobId)
    requires k in Exec(db, call) && Exec(db, call)[k].status == Processing
    requires call.TransitionCall? ==> call.target != Processing
    ensures k in db && (db[k].status == Processing || (call.ClaimCall? && Claim(db, call.at).1 == Some(k)))
  {
    match call
    case TransitionCall(id, target, updates, at) =>
      if id in db && UpdateRow(db, id, Some(target), updates, at).Ok? {
        ArbitraryUpdate(db, id, Some(target), updates, at);
      }
    case UpdateCall(id, updates) =>
      if id in db && UpdateRow(db, id, None, updates, "").Ok? {
        ArbitraryUpdate(db, id, None, updates, "");
      }
    case ClaimCall(at) =>
      ClaimEffect(db, at);
    case RestoreCall(id, final, at) =>
      if id in db && db[id].status == Processing && RestoreTerminal(db, id, final, at).Ok? {
        RestoreEffect(db, id, final, at);
      }
    case _ =>
  }

  /** No call but a transition that names PROCESSING can put a second row there. */
  lemma ExecKeepsOneProcessing(db: Db, call: Call)
    requires OneProcessing(db) && (call.TransitionCall? ==> call.target != Processing)
    ensures OneProcessing(Exec(db, call))
  {
    var r := Exec(db, call);
    forall i, j | i in r && j in r && r[i].status == Processing && r[j].status == Processing
      ensures i == j
    {
      EntersProcessing(db, call, i);
      EntersProcessing(db, call, j);
      assert db[i].status == Processing ==> i in WithStatus(db, Processing);
      assert db[j].status == Processing ==> j in WithStatus(db, Processing);
    }
  }

  /** The transition table alone does not keep the rule: QUEUED to PROCESSING is legal.
      Such a transition keeps it exactly when no other row is already in processing. */
  lemma DirectProcessing(db: Db, id: JobId, at: string)
    requires OneProcessing(db) && id in db && db[id].status == Queued
    ensures OneProcessing(Exec(db, TransitionCall(id, Processing, [], at))) <==> WithStatus(db, Processing) == {}
  {
    TransitionEffect(db, id, Processing, [], at);
    var r := Exec(db, TransitionCall(id, Processing, [], at));
    if k :| k in WithStatus(db, Processing) {
      assert r[k].status == Processing && r[id].status == Processing && k != id;
    } else {
      forall k | k in db ensures db[k].status != Processing { assert k !in WithStatus(db, Processing); }
    }
  }

  // ----- queue order -----

  function Ahead(db: Db, j: JobId): set<JobId>
    requires j in db
  {
    set k | k in db && db[k].status == Queued && Before(db, k, j)
  }

  /** How many queued rows go before this one. */
  function Rank(db: Db, j: JobId): nat
    requires j in db
  {
    |Ahead(db, j)|
  }

  /** Each claim moves every job still queued up by exactly one place. */
  lemma ClaimLowersRank(db: Db, now: string, j: JobId)
    requires j in db && db[j].status == Queued
    requires Claim(db, now).1.Some? && Claim(db, now).1 != Some(j)
    ensures var r := Claim(db, now).0; j in r && r[j] == db[j] && Rank(r, j) == Rank(db, j) - 1
  {
    ClaimEffect(db, now);
    var (r, claimed) := Claim(db, now);
    var i := claimed.value;
    assert j in WithStatus(db, Queued);
    var before, after := Ahead(db, j), Ahead(r, j);
    forall k | k in r && k != i ensures Before(r, k, j) == Before(db, k, j) {}
    assert after == before - {i};
  }

  /** The two calls that put a row in the queue do so at an instant after `t`. */
  predicate JoinsAfter(call: Call, t: string) {
    match call
    case TransitionCall(_, target, _, at) => target == Queued ==> TextLess(t, at)
    case RetryCall(_, needsImport, at) => !needsImport ==> TextLess(t, at)
    case _ => true
  }

  predicate Joined(call: Call, job: Job) {
    || (call.TransitionCall? && call.target == Queued && job.queuedAt == Some(call.at))
    || (call.RetryCall? && !call.needsImport && job.queuedAt == Some(call.at))
  }

  predicate SamePlace(a: Job, b: Job) { a.status == Queued && a.queuedAt == b.queuedAt && a.detectedAt == b.detectedAt }

  /** A queued row was in the queue before, in the same place, or has just joined at its end. */
  lemma QueuedRow(db: Db, call: Call, k: JobId)
    requires k in Exec(db, call) && Exec(db, call)[k].status == Queued
    ensures (k in db && SamePlace(db[k], Exec(db, call)[k])) || Joined(call, Exec(db, call)[k])
  {
    match call
    case TransitionCall(id, target, updates, at) =>
      if id == k && Transition(db, id, target, updates, at).Ok? { MovedRow(db, k, Some(target), updates, at); }
    case UpdateCall(id, updates) =>
      if id == k && Update(db, id, updates).Ok? { MovedRow(db, k, None, updates, ""); }
    case ClaimCall(at) => ClaimEffect(db, at);
    case RestoreCall(id, final, at) =>
      if id == k && RestoreTerminal(db, id, final, at).Ok? && db[id].status == Processing { RestoreEffect(db, id, final, at); }
    case _ =>
  }

  lemma MovedRow(db: Db, k: JobId, target: Option<JobStatus>, updates: seq<Assign>, at: string)
    requires k in db && UpdateRow(db, k, target, updates, at).Ok?
    ensures var r := UpdateRow(db, k, target, updates, at).value;
      && k in r && r[k].detectedAt == db[k].detectedAt
      && r[k].status == (if target.Some? then target.value else db[k].status)
      && r[k].queuedAt == (if target == Some(Queued) then Some(at) else db[k].queuedAt)
  {
    var h := Heading(target, updates, at);
    ApplyAppend(db[k], h, updates);
    if target.Some? {
      ApplyHeading(db[k], target.value, updates, at);
    } else {
      assert h == [] && Apply(db[k], h) == db[k];
      if updates == [] { assert h + updates == []; }
    }
    ApplyMutable(Apply(db[k], h), updates);
  }

  /** Nothing gets in front of a job that stays in the queue. */
  lemma AheadShrinks(db: Db, call: Call, j: JobId)
    requires j in db && db[j].status == Queued && db[j].queuedAt.Some? && JoinsAfter(call, db[j].queuedAt.value)
    requires j in Exec(db, call) && Exec(db, call)[j].status == Queued
    ensures SamePlace(db[j], Exec(db, call)[j]) && Ahead(Exec(db, call), j) <= Ahead(db, j)
  {
    var r := Exec(db, call);
    QueuedRow(db, call, j);
    StaysInPlace(db, call, j);
    forall k | k in Ahead(r, j) ensures k in Ahead(db, j) {
      QueuedRow(db, call, k);
      if Joined(call, r[k]) { TextLessTotal(db[j].queuedAt.value, r[k].queuedAt.value); }
    }
  }

  /** A queued row cannot join again. */
  lemma StaysInPlace(db: Db, call: Call, j: JobId)
    requires j in db && db[j].status == Queued && j in Exec(db, call) && Exec(db, call)[j].status == Queued
    ensures SamePlace(db[j], Exec(db, call)[j])
  {
    QueuedRow(db, call, j);
    if call.TransitionCall? && call.id != j && Transition(db, call.id, call.target, call.updates, call.at).Ok? {
      ArbitraryUpdate(db, call.id, Some(call.target), call.updates, call.at);
    }
  }

  function Claims(db: Db, call: Call): nat {
    if call.ClaimCall? && Claim(db, call.at).1.Some? then 1 else 0
  }

  lemma RankFalls(db: Db, call: Call, j: JobId)
    requires j in db && db[j].status == Queued && db[j].queuedAt.Some? && JoinsAfter(call, db[j].queuedAt.value)
    requires j in Exec(db, call) && Exec(db, call)[j].status == Queued
    ensures Rank(Exec(db, call), j) + Claims(db, call) <= Rank(db, j)
  {
    AheadShrinks(db, call, j);
    var after, before := Ahead(Exec(db, call), j), Ahead(db, j);
    if Claims(db, call) == 1 {
      ClaimEffect(db, call.at);
      ClaimLowersRank(db, call.at, j);
    } else {
      assert before == after + (before - after);
    }
  }

  /** The job is in the queue before and after each of the calls. */
  ghost predicate Waits(db: Db, calls: seq<Call>, j: JobId)
    decreases |calls|
  {
    && j in db && db[j].status == Queued && db[j].queuedAt.Some?
    && (calls != [] ==> Waits(Exec(db, calls[0]), calls[1..], j))
  }

  function AllClaims(db: Db, calls: seq<Call>): nat
    decreases |calls|
  {
    if calls == [] then 0 else Claims(db, calls[0]) + AllClaims(Exec(db, calls[0]), calls[1..])
  }

  /** First in, first out over whole runs: while the clock moves forward, no more jobs are claimed
      before a waiting one than were in front of it, whatever else happens to the table. */
  lemma {:induction false} NoStarvation(db: Db, calls: seq<Call>, j: JobId)
    requires Waits(db, calls, j) && forall i :: 0 <= i < |calls| ==> JoinsAfter(calls[i], db[j].queuedAt.value)
    ensures j in ExecAll(db, calls) && Rank(ExecAll(db, calls), j) + AllClaims(db, calls) <= Rank(db, j)
    decreases |calls|
  {
    if calls != [] {
      AheadShrinks(db, calls[0], j);
      RankFalls(db, calls[0], j);
      NoStarvation(Exec(db, calls[0]), calls[1..], j);
    }
  }

  lemma OldestText(a: string, b: string)
    ensures OptionLess(Some(a), Some(b)) || a == b ==> !TextLess(b, a)
  {
    TextLessTotal(a, b);
  }

  /** Of jobs queued at the same instant, the one detected first is claimed, then the one with the
      lesser id. */
  lemma TiesGoToFirstDetected(db: Db, now: string, i: JobId, j: JobId)
    requires Claim(db, now).1 == Some(i) && i in db && j in db && i != j
    requires db[j].status == Queued && db[i].queuedAt == db[j].queuedAt
    ensures TextLess(db[i].detectedAt, db[j].detectedAt) || (db[i].detectedAt == db[j].detectedAt && TextLess(i, j))
  {
    ClaimEffect(db, now);
    assert j in WithStatus(db, Queued);
    if db[i].queuedAt.Some? { TextLessTotal(db[i].queuedAt.value, db[i].queuedAt.value); }
  }

  /** Claims are first in, first out: nothing queued was queued at an earlier instant. */
  lemma ClaimIsOldest(db: Db, now: string, i: JobId, ti: Timestamps.Utc, j: JobId, tj: Timestamps.Utc)
    requires Claim(db, now).1 == Some(i)
    requires j in db && db[j].status == Queued
    requires i in db && db[i].queuedAt == Some(Timestamps.Iso(ti)) && db[j].queuedAt == Some(Timestamps.Iso(tj))
    ensures Timestamps.Microseconds(ti) <= Timestamps.Microseconds(tj)
  {
    ClaimEffect(db, now);
    Timestamps.TextOrderIsTimeOrder(tj, ti);
    assert j in WithStatus(db, Queued);
    OldestText(Timestamps.Iso(ti), Timestamps.Iso(tj));
    assert i == j || Before(db, i, j);
  }
}
