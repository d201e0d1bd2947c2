/** Importing a recording into the archive, as steps on durable state: the job table and the
    recordings on disk. A step is one database transaction or one file-system primitive; the
    application can die between any two, and the user may change files it is not importing.
    A ghost log remembers every recording the program has accepted. */
module ImportProtocol {
  import opened Models
  import opened Database

  type Files = map<Path, Bytes>

  /** A recording becomes the program's responsibility when the import intent is recorded. */
  datatype Acceptance = Acceptance(job: JobId, source: Path, target: Path, bytes: Bytes)

  /** The row an import or its recovery is working on, and the directory the import has made for
      itself. An import records its intent once; recovery records none. */
  datatype Active = Active(job: JobId, intended: bool, dir: Option<string>)

  /** `released`: the user changed the source, outside an import of it, while nothing was published.
      `active` does not survive a crash. */
  datatype State = State(
    jobs: Db, files: Files, dirs: set<string>,
    log: set<Acceptance>, released: set<Acceptance>, active: Option<Active>)

  datatype Imported = Imported(dir: string, media: Path, size: nat, sha: Bytes)

  predicate IsTarget(p: Path) { p.ArchiveFile? && p.slot.Original? }

  function StagingOf(target: Path): Path
    requires IsTarget(target)
  {
    ArchiveFile(target.dir, Staging(target.slot.name))
  }

  /** The file name of a source, as it is reused in the archive. */
  function SafeName(p: Path): string {
    match p
    case InboxFile(name) => name
    case ExternalFile(location) => location
    case ArchiveFile(_, slot) => slot.name
  }

  function PlannedTarget(dir: string, source: Path): Path {
    ArchiveFile(dir, Original(SafeName(source)))
  }

  /** `_verified_archived_media`: an archived original counts only when its recorded hash, its
      live source, or (for a moved Inbox source) its recorded size vouches for it. */
  function VerifiedMedia(job: Job, files: Files): Option<Imported> {
    if job.archiveDir.None? || job.archivedMedia.None? then None
    else
      var media := job.archivedMedia.value;
      if !media.ArchiveFile? || media.dir != job.archiveDir.value || media !in files then None
      else
        var imported := Imported(media.dir, media, |files[media]|, files[media]);
        if job.sourceSha.Some? then (if job.sourceSha.value == files[media] then Some(imported) else None)
        else if job.sourcePath in files && files[job.sourcePath] == files[media] then Some(imported)
        else if job.origin == Inbox && job.sourceSize == Some(imported.size) then Some(imported)
        else None
  }

  /** What an archived original needs to count, whatever the status of its row: both columns are set,
      the file lies in the row's directory, and the recorded hash is that of its bytes; without a
      hash, the source still has these bytes, or an Inbox row recorded their size. */
  predicate Authentic(job: Job, files: Files) {
    && job.archiveDir.Some? && job.archivedMedia.Some? && job.archivedMedia.value in files
    && job.archivedMedia.value.ArchiveFile? && job.archivedMedia.value.dir == job.archiveDir.value
    && var bytes := files[job.archivedMedia.value];
       || job.sourceSha == Some(bytes)
       || (job.sourceSha == None && job.sourcePath in files && files[job.sourcePath] == bytes)
       || (job.sourceSha == None && job.origin == Inbox && job.sourceSize == Some(|bytes|))
  }

  lemma VerifiedIsAuthentic(job: Job, files: Files)
    ensures VerifiedMedia(job, files).Some? <==> Authentic(job, files)
    ensures Authentic(job, files) ==>
      var media := job.archivedMedia.value;
      VerifiedMedia(job, files).value == Imported(job.archiveDir.value, media, |files[media]|, files[media])
  {
  }

  // ----- steps -----

  /** Columns no import step depends on. */
  predicate Quiet(a: Assign) {
    Mutable(a) && !a.SetSourceSize? && !a.SetArchiveDir? && !a.SetArchivedMedia? && !a.SetSourceSha?
  }

  /** File-system primitives on an accepted recording, and the user's own changes. */
  datatype FileStep =
    | MoveSource(acceptance: Acceptance)
    | CopyInto(acceptance: Acceptance, data: Bytes)
    | Publish(acceptance: Acceptance)
    | RemoveSource(acceptance: Acceptance)
    | UserChanges(path: Path, written: Option<Bytes>)

  /** Transactions that move one row and leave what its import recorded. */
  datatype TableStep =
    | Settle(job: JobId, target: JobStatus, notes: seq<Assign>, at: string)
    | FailImport(job: JobId, target: JobStatus, notes: seq<Assign>, at: string)
    | Drop(job: JobId, target: JobStatus, notes: seq<Assign>, at: string)
    | Advance(job: JobId, target: JobStatus, notes: seq<Assign>, at: string)
    | Annotate(job: JobId, updates: seq<Assign>)
    | RestoreResult(job: JobId, final: Final, at: string)
    | RetryJob(job: JobId, at: string)

  /** Transactions of detection and import. */
  datatype ImportStep =
    | Detected(newId: JobId, path: Path, origin: JobOrigin, size: nat, mtime: int, at: string, clock: int)
    | Begin(job: JobId, at: string)
    | Intend(job: JobId, dir: string)
    | RecordArchive(job: JobId)
    | RecordHash(job: JobId)
    | RecoverRows(blocked: set<JobId>)

  datatype ControlStep =
    | MakeDir(dir: string)
    | Done
    | Crash
    | Resume(job: JobId)

  datatype Step = File(file: FileStep) | Table(table: TableStep) | Import(imp: ImportStep) | Control(control: ControlStep)

  predicate Unused(s: State, dir: string) {
    && (forall a | a in s.log :: !(a.target.ArchiveFile? && a.target.dir == dir))
    && (forall p | p in s.files :: !(p.ArchiveFile? && p.dir == dir))
  }

  predicate Working(s: State, j: JobId) { s.active.Some? && s.active.value.job == j && j in s.jobs }

  predicate HasStatus(s: State, j: JobId, st: JobStatus) { j in s.jobs && s.jobs[j].status == st }

  /** The recorded archive original of a row is on disk. */
  predicate Archived(s: State, j: JobId)
    requires j in s.jobs
  {
    s.jobs[j].archivedMedia.Some? && s.jobs[j].archivedMedia.value in s.files
  }

  /** Steps on an accepted recording are taken by the import that accepted it. */
  predicate AtWork(s: State, a: Acceptance) {
    a in s.log && IsTarget(a.target) && Working(s, a.job)
  }

  predicate PublishedAs(s: State, a: Acceptance, b: Acceptance) {
    b.source == a.source && b.bytes == a.bytes && b.target in s.files
  }

  /** The recording is published, under its own acceptance or under another one of the same bytes. */
  predicate HasCopy(s: State, a: Acceptance) {
    exists b :: b in s.log && PublishedAs(s, a, b)
  }

  predicate FileEnabled(s: State, step: FileStep) {
    match step
    case MoveSource(a) =>
      && AtWork(s, a) && s.jobs[a.job].origin == Inbox
      && a.source in s.files && s.files[a.source] == a.bytes && a.target !in s.files
    case CopyInto(a, data) => AtWork(s, a)
    case Publish(a) =>
      && AtWork(s, a) && a.target !in s.files
      && StagingOf(a.target) in s.files && s.files[StagingOf(a.target)] == a.bytes
    case RemoveSource(a) =>
      && AtWork(s, a) && s.jobs[a.job].origin == Inbox
      && a.source in s.files && a.target in s.files && s.files[a.source] == s.files[a.target]
    case UserChanges(path, _) =>
      !path.ArchiveFile? && (s.active.Some? && s.active.value.job in s.jobs ==> path != s.jobs[s.active.value.job].sourcePath)
  }

  function DoFile(s: State, step: FileStep): State
    requires FileEnabled(s, step)
  {
    match step
    case MoveSource(a) => s.(files := (s.files - {a.source})[a.target := a.bytes])
    case CopyInto(a, data) => s.(files := s.files[StagingOf(a.target) := data])
    case Publish(a) => s.(files := (s.files - {StagingOf(a.target)})[a.target := a.bytes])
    case RemoveSource(a) => s.(files := s.files - {a.source})
    case UserChanges(path, written) =>
      s.(files := if written.Some? then s.files[path := written.value] else s.files - {path},
         released := s.released + set a | a in s.log && a.source == path && !HasCopy(s, a))
  }

  predicate TableEnabled(s: State, step: TableStep) {
    step.job in s.jobs &&
    match step
    case Settle(j, target, notes, at) =>
      && Working(s, j) && s.jobs[j].status == Importing && Archived(s, j) && target in {Queued, Duplicate}
      && s.jobs[j].sourceSha == Some(s.files[s.jobs[j].archivedMedia.value]) && All(Note, notes)
    case FailImport(j, target, notes, at) => s.jobs[j].status == Importing && target in {Failed, Interrupted} && All(Note, notes)
    case Drop(j, target, notes, at) => s.jobs[j].status == WaitingForStable && target in {Failed, Cancelled} && All(Note, notes)
    case Advance(j, target, notes, at) =>
      s.jobs[j].status in {Queued, Processing} && target in Allowed(s.jobs[j].status) && All(Note, notes)
    case Annotate(j, updates) => All(Quiet, updates)
    case RestoreResult(j, final, at) => true
    case RetryJob(j, at) => true
  }

  function DoTable(s: State, step: TableStep): State
    requires TableEnabled(s, step)
  {
    s.(jobs := match step
      case Settle(j, target, notes, at) => OrSame(s.jobs, Transition(s.jobs, j, target, notes, at))
      case FailImport(j, target, notes, at) => OrSame(s.jobs, Transition(s.jobs, j, target, notes, at))
      case Drop(j, target, notes, at) => OrSame(s.jobs, Transition(s.jobs, j, target, notes, at))
      case Advance(j, target, notes, at) => OrSame(s.jobs, Transition(s.jobs, j, target, notes, at))
      case Annotate(j, updates) => OrSame(s.jobs, Update(s.jobs, j, updates))
      case RestoreResult(j, final, at) => OrSame(s.jobs, RestoreTerminal(s.jobs, j, final, at))
      case RetryJob(j, at) => OrSame(s.jobs, Retry(s.jobs, j, VerifiedMedia(s.jobs[j], s.files).None?, at)))
  }

  function Accepted(s: State, j: JobId, dir: string): Acceptance
    requires j in s.jobs && s.jobs[j].sourcePath in s.files
  {
    var source := s.jobs[j].sourcePath;
    Acceptance(j, source, PlannedTarget(dir, source), s.files[source])
  }

  predicate ImportEnabled(s: State, step: ImportStep) {
    match step
    case Detected(newId, path, origin, _, _, _, _) =>
      (origin == Inbox ==> path.InboxFile?) && !(path.ArchiveFile? && path.slot.Staging?)
    case Begin(j, at) => s.active == None && HasStatus(s, j, WaitingForStable)
    case Intend(j, dir) =>
      && Working(s, j) && !s.active.value.intended && s.active.value.dir == Some(dir)
      && HasStatus(s, j, Importing) && s.jobs[j].sourcePath in s.files
    case RecordArchive(j) => Working(s, j) && HasStatus(s, j, Importing) && Archived(s, j) && s.jobs[j].archivedMedia.value.ArchiveFile?
    case RecordHash(j) => Working(s, j) && HasStatus(s, j, Importing) && Archived(s, j)
    case RecoverRows(_) => true
  }

  function ArchiveUpdates(target: Path, size: nat): seq<Assign>
    requires target.ArchiveFile?
  {
    [SetArchiveDir(target.dir), SetArchivedMedia(target), SetSourceSize(size)]
  }

  function DoImport(s: State, step: ImportStep): State
    requires ImportEnabled(s, step)
  {
    match step
    case Detected(newId, path, origin, size, mtime, at, clock) =>
      s.(jobs := Detect(s.jobs, newId, path, origin, size, mtime, at, clock))
    case Begin(j, at) =>
      s.(jobs := OrSame(s.jobs, Transition(s.jobs, j, Importing, [], at)), active := Some(Active(j, false, None)))
    case Intend(j, dir) =>
      var a := Accepted(s, j, dir);
      s.(jobs := OrSame(s.jobs, Update(s.jobs, j, ArchiveUpdates(a.target, |a.bytes|))),
         log := s.log + {a}, active := Some(Active(j, true, Some(dir))))
    case RecordArchive(j) =>
      var media := s.jobs[j].archivedMedia.value;
      s.(jobs := OrSame(s.jobs, Update(s.jobs, j, ArchiveUpdates(media, |s.files[media]|))))
    case RecordHash(j) =>
      s.(jobs := OrSame(s.jobs, Update(s.jobs, j, [SetSourceSha(s.files[s.jobs[j].archivedMedia.value])])))
    case RecoverRows(blocked) => s.(jobs := RecoverAfterRestart(s.jobs, blocked))
  }

  predicate ControlEnabled(s: State, step: ControlStep) {
    match step
    case MakeDir(dir) => dir !in s.dirs
    case Done => true
    case Crash => true
    case Resume(j) => s.active == None && HasStatus(s, j, Importing)
  }

  function Owning(active: Option<Active>, dir: string): Option<Active> {
    if active.Some? then Some(active.value.(dir := Some(dir))) else None
  }

  function DoControl(s: State, step: ControlStep): State
    requires ControlEnabled(s, step)
  {
    match step
    case MakeDir(dir) => s.(dirs := s.dirs + {dir}, active := Owning(s.active, dir))
    case Done => s.(active := None)
    case Crash => s.(active := None)
    case Resume(j) => s.(active := Some(Active(j, true, None)))
  }

  predicate Enabled(s: State, step: Step) {
    match step
    case File(f) => FileEnabled(s, f)
    case Table(t) => TableEnabled(s, t)
    case Import(i) => ImportEnabled(s, i)
    case Control(c) => ControlEnabled(s, c)
  }

  function Do(s: State, step: Step): State
    requires Enabled(s, step)
  {
    match step
    case File(f) => DoFile(s, f)
    case Table(t) => DoTable(s, t)
    case Import(i) => DoImport(s, i)
    case Control(c) => DoControl(s, c)
  }

  ghost predicate Init(s: State) {
    && s.jobs == map[] && s.dirs == {} && s.log == {} && s.released == {} && s.active == None
    && forall p | p in s.files :: !p.ArchiveFile?
  }

  ghost predicate Run(states: seq<State>, steps: seq<Step>) {
    && |states| == |steps| + 1
    && forall i :: 0 <= i < |steps| ==> Enabled(states[i], steps[i]) && states[i + 1] == Do(states[i], steps[i])
  }

  // ----- the invariant -----

  ghost predicate LogInv(s: State) {
    && (forall a | a in s.log :: IsTarget(a.target) && a.target.dir in s.dirs)
    && (forall a | a in s.log :: a.job in s.jobs && s.jobs[a.job].sourcePath == a.source)
    // what is published under an accepted name is the accepted recording
    && (forall a | a in s.log :: a.target in s.files ==> s.files[a.target] == a.bytes)
    // no two acceptances share a directory
    && (forall a, b | a in s.log && b in s.log :: a.target.dir == b.target.dir ==> a == b)
    && (forall p | p in s.files :: p.ArchiveFile? ==> p.dir in s.dirs)
  }

  ghost predicate InLog(s: State, j: JobId, target: Path) {
    exists a :: a in s.log && a.job == j && a.target == target
  }

  predicate NeedsArchive(st: JobStatus) { st in {Queued, Processing} || Settled(st) }

  ghost predicate RowInv(s: State, j: JobId)
    requires j in s.jobs
  {
    var job := s.jobs[j];
    && (job.origin == Inbox ==> job.sourcePath.InboxFile?)
    && !(job.sourcePath.ArchiveFile? && job.sourcePath.slot.Staging?)
    && (job.archivedMedia.Some? ==>
          && IsTarget(job.archivedMedia.value) && job.archiveDir == Some(job.archivedMedia.value.dir)
          && InLog(s, j, job.archivedMedia.value))
    && (NeedsArchive(job.status) ==> Archived(s, j))
    && (job.retryCount == 0 && job.status in {WaitingForStable, Importing} ==> FirstAttempt(s, j))
  }

  /** A row that has not been retried and is not yet past its import: it has at most the one
      acceptance its columns name, and a recorded hash means that recording is published. */
  ghost predicate FirstAttempt(s: State, j: JobId)
    requires j in s.jobs
  {
    var job := s.jobs[j];
    && (job.archivedMedia.None? ==> job.sourceSha.None? && forall a | a in s.log :: a.job != j)
    && (job.archivedMedia.Some? ==> job.status == Importing)
    && (job.archivedMedia.Some? ==>
          forall a | a in s.log :: a.job == j ==>
               && a.target == job.archivedMedia.value && job.sourceSize == Some(|a.bytes|)
               && (job.sourceSha.Some? ==> job.sourceSha == Some(a.bytes) && a.target in s.files))
  }

  /** The recording still exists: at its source, or published in the archive. */
  ghost predicate Held(s: State, a: Acceptance) {
    || (a.source in s.files && s.files[a.source] == a.bytes)
    || HasCopy(s, a)
  }

  ghost predicate Conserved(s: State) {
    forall a | a in s.log :: a in s.released || Held(s, a)
  }

  predicate Unintended(s: State, j: JobId)
    requires j in s.jobs
  {
    s.jobs[j].retryCount == 0 && s.jobs[j].status == Importing ==> s.jobs[j].archivedMedia.None?
  }

  /** The directory an import has made for itself is still nobody else's. */
  ghost predicate ActiveInv(s: State, a: Active) {
    && a.job in s.jobs
    && (!a.intended ==> Unintended(s, a.job) && (a.dir.Some? ==> a.dir.value in s.dirs && Unused(s, a.dir.value)))
  }

  ghost predicate Inv(s: State) {
    && LogInv(s) && Conserved(s)
    && (forall j | j in s.jobs :: RowInv(s, j))
    && (s.active.Some? ==> ActiveInv(s, s.active.value))
  }
}
