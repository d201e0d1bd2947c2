/** Domain records shared by every part of the model. */
module Models {

  datatype Option<+T> = None | Some(value: T)

  datatype Result<+T, +E> = Ok(value: T) | Err(error: E)

  datatype JobStatus =
    | WaitingForStable | Importing | Queued | Processing
    | Completed | CompletedWithWarnings | Failed | Cancelled | Interrupted | Duplicate

  datatype JobOrigin = Inbox | Manual

  predicate Active(s: JobStatus) { s in {WaitingForStable, Importing, Queued, Processing} }

  predicate Retryable(s: JobStatus) { s in {Failed, Cancelled, Interrupted} }

  /** The statuses nothing may leave again. */
  predicate Settled(s: JobStatus) { s in {Completed, CompletedWithWarnings, Duplicate} }

  predicate IsDone(s: JobStatus) { s in {Completed, CompletedWithWarnings} }

  predicate IdChar(c: char) {
    'a' <= c <= 'z' || '0' <= c <= '9' || c == '-'
  }

  /** Job ids are lower-case UUID texts. */
  type JobId = id: string | id != "" && forall i :: 0 <= i < |id| ==> IdChar(id[i]) witness "0"

  /** Operating-system process ids; valid ones are positive. */
  type Pid = int

  newtype byte = x: int | 0 <= x < 256

  type Bytes = seq<byte>

  /** The two files an import may create in a job's archive directory:
      `original_<name>` and the evidence copy `.original_<name>.copying`. */
  datatype Slot = Original(name: string) | Staging(name: string)

  datatype Path =
    | InboxFile(name: string)
    | ExternalFile(location: string)
    | ArchiveFile(dir: string, slot: Slot)

  /** The three observation columns, which are always written together. */
  datatype Observation = Observation(size: int, mtime: int, stableSince: int)

  /** A Python float: a number, nan, or one of inf and -inf. */
  datatype Number = Finite(x: real) | NaN | Infinite

  /** The result columns of a finished job. */
  datatype Summary = Summary(
    duration: Option<Number>, language: Option<string>, probability: Option<Number>,
    languageSource: Option<string>, speakerCount: Option<int>, warningText: Option<string>)

  const NO_SUMMARY := Summary(None, None, None, None, None, None)

  /** One row of the `jobs` table; its id is the key it is stored under. */
  datatype Job = Job(
    sourcePath: Path, origin: JobOrigin, status: JobStatus, detectedAt: string,
    sourceSize: Option<nat>, observation: Option<Observation>,
    archiveDir: Option<string>, archivedMedia: Option<Path>, sourceSha: Option<Bytes>,
    queuedAt: Option<string>, startedAt: Option<string>, completedAt: Option<string>,
    summary: Summary, errorCode: Option<string>, errorMessage: Option<string>,
    retryCount: nat, workerPid: Option<Pid>, allowDuplicate: bool)

  /** What a final worker manifest says about its job, as recovery reads it. */
  datatype Final = Final(
    status: JobStatus, completedAt: Option<string>, summary: Summary,
    errorCode: Option<string>, errorMessage: Option<string>)

  /** One transcript segment; times are seconds. */
  datatype Segment = Segment(
    start: Option<real>, end: Option<real>, text: string, speaker: Option<string>, identity: Option<string>,
    confidence: Option<real>, matchThreshold: Option<real>, matchingMethod: Option<string>)
}
