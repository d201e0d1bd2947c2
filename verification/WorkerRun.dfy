/** One worker run, `run_job`: every stage, every way it can end, the events it emits and the
    files it leaves. A script answers for everything outside the program: the pipeline, the
    file system and whoever reads the events. */
module WorkerRun {
  import opened Models
  import opened Manifests

  datatype WorkerFailure = WorkerFailure(code: string, message: string)

  /** An exception, as `classify_worker_error` looks at it; raw texts are already redacted and
      in lower case. */
  datatype WorkerError = Failure(failure: WorkerFailure) | LeaseBusy | Raw(text: string)

  /** How a call ends: it returns, raises an exception, or is interrupted from the keyboard. */
  datatype Stage<+T> = Returns(value: T) | Raises(error: WorkerError) | Interrupts {
    predicate IsFailure() { !Returns? }

    function PropagateFailure<U>(): Stage<U>
      requires IsFailure()
    {
      if Raises? then Raises(error) else Interrupts
    }

    function Extract(): T
      requires Returns?
    {
      value
    }
  }

  type Signal = Stage<()>

  const DONE: Signal := Returns(())

  datatype StageName = Preparing | ExtractingAudio | LoadingModel | Transcribing | Aligning | Diarizing | Exporting

  datatype Payload = Payload(
    status: JobStatus, language: Option<string>, probability: Option<Number>, languageSource: string,
    speakerCount: Option<int>, duration: Option<Number>, warningText: Option<string>)

  datatype Event =
    | StageEvent(name: StageName)
    | Progress(name: StageName, index: nat)
    | CompletedEvent(payload: Payload)
    | CancelledEvent
    | FailedEvent(failure: WorkerFailure)

  predicate Terminal(e: Event) { e.CompletedEvent? || e.CancelledEvent? || e.FailedEvent? }

  datatype Context = Context(language: Option<string>, probability: Option<Number>)

  /** A pipeline stage that reports progress before it ends. */
  datatype Work<T> = Work(progress: nat, outcome: Stage<T>)

  /** A file opened and written in place. */
  datatype Export = Export(opening: Signal, writing: Signal)

  /** A file replaced atomically; an interrupt may arrive after the replacement. */
  datatype AtomicWrite = AtomicWrite(lands: bool, outcome: Signal)

  predicate Lands(w: AtomicWrite) { w.outcome.Returns? || (w.outcome.Interrupts? && w.lands) }

  datatype Script = Script(
    jobId: JobId, forced: bool, token: bool, keepTemporary: bool,
    createLease: Signal, acquire: Signal, cuda: Signal, duration: Stage<Option<Number>>,
    extract: Signal, transcribe: Work<Context>, align: Work<Context>,
    diarize: Work<(Context, nat)>, matching: Signal,
    transcript: Signal, json: AtomicWrite, txt: Export, srt: Export, vtt: Export, tsv: Export,
    manifest: AtomicWrite, failure: AtomicWrite, finishedAt: string, failedAt: string,
    closeLease: Signal, cleanup: Signal, removeTemp: Signal,
    emit: Event -> Signal)

  // ----- errors -----

  predicate Contains(text: string, part: string) {
    part <= text || (text != "" && Contains(text[1..], part))
  }

  const BUSY := WorkerFailure("worker_busy", "Another WorkCall transcription worker is already active.")
  const OUT_OF_MEMORY := WorkerFailure("gpu_out_of_memory",
    "The GPU ran out of memory. Your recording is safe in the archive. Close GPU-heavy apps and click Retry.")
  const NO_CUDA := WorkerFailure("cuda_unavailable",
    "CUDA is unavailable. Your recording is safe in the archive. Fix the GPU runtime and click Retry.")
  const NO_ACCESS := WorkerFailure("diarization_access",
    "Diarization could not access its Hugging Face model. Check your token and accept the model license, then Retry.")
  const NO_FFMPEG := WorkerFailure("ffmpeg_failed",
    "FFmpeg could not process this recording. Your original recording is safe in the archive.")
  const UNKNOWN := WorkerFailure("worker_failed",
    "Transcription failed. Your recording is safe in the archive. Open the job log for details and click Retry.")

  const ACCESS_MARKERS: seq<string> := ["gated", "403", "401", "license", "access denied"]

  /** `classify_worker_error` */
  function Classify(e: WorkerError): WorkerFailure {
    match e
    case Failure(f) => f
    case LeaseBusy => BUSY
    case Raw(text) =>
      if Contains(text, "out of memory") || Contains(text, "cuda oom") then OUT_OF_MEMORY
      else if Contains(text, "cuda")
        && (Contains(text, "unavailable") || Contains(text, "not available") || Contains(text, "not compiled")) then NO_CUDA
      else if exists m | m in ACCESS_MARKERS :: Contains(text, m) then NO_ACCESS
      else if Contains(text, "ffmpeg") then NO_FFMPEG
      else UNKNOWN
  }

  const ALIGNMENT_WARNING := ("alignment_failed", "Alignment failed; the unaligned transcript was preserved.")
  const TOKEN_WARNING := ("diarization_token_missing",
    "Diarization credentials are missing; the transcript was saved without speaker labels.")
  const DIARIZATION_WARNING := ("diarization_failed",
    "Diarization failed; the transcript was saved without speaker labels.")

  function DiarizationWarning(e: WorkerError): (string, string) {
    var f := Classify(e);
    if f.code == NO_ACCESS.code then (f.code, f.message) else DIARIZATION_WARNING
  }

  // ----- what a script amounts to -----

  function Void<T>(r: Stage<T>): Signal {
    if r.IsFailure() then r.PropagateFailure() else DONE
  }

  /** What is left of a signal once exceptions have been caught. */
  function Caught<T>(r: Stage<T>): Signal { if r.Interrupts? then Interrupts else DONE }

  function ProgressSignal(s: Script, name: StageName, i: nat, n: nat): Signal
    decreases n - i
  {
    if i >= n then DONE
    else if s.emit(Progress(name, i)).IsFailure() then s.emit(Progress(name, i))
    else ProgressSignal(s, name, i + 1, n)
  }

  function InStage<T>(s: Script, name: StageName, w: Work<T>): Stage<T> {
    var p := ProgressSignal(s, name, 0, w.progress);
    if p.IsFailure() then p.PropagateFailure() else w.outcome
  }

  function AlignResult(s: Script): Stage<Context> { InStage(s, Aligning, s.align) }

  function DiarizeResult(s: Script): Stage<(Context, nat)> { InStage(s, Diarizing, s.diarize) }

  /** Diarization and the profile matching that follows it share one handler. */
  function DiarizationSignal(s: Script): Signal {
    if DiarizeResult(s).IsFailure() then Void(DiarizeResult(s)) else s.matching
  }

  function Aligned(s: Script): Context {
    if AlignResult(s).Returns? then AlignResult(s).value
    else if s.transcribe.outcome.Returns? then s.transcribe.outcome.value
    else Context(None, None)
  }

  /** The context the transcript is written from. */
  function FinalContext(s: Script): Context {
    if s.token && DiarizeResult(s).Returns? then DiarizeResult(s).value.0 else Aligned(s)
  }

  function SpeakerCount(s: Script): Option<int> {
    if s.token && DiarizeResult(s).Returns? && s.matching.Returns? then Some(DiarizeResult(s).value.1) else None
  }

  function AlignmentWarnings(s: Script): seq<(string, string)> {
    if AlignResult(s).Raises? then [ALIGNMENT_WARNING] else []
  }

  function DiarizationWarnings(s: Script): seq<(string, string)> {
    if !s.token then [TOKEN_WARNING]
    else if DiarizationSignal(s).Raises? then [DiarizationWarning(DiarizationSignal(s).error)]
    else []
  }

  /** Codes and messages, in the order they are met. */
  function Warnings(s: Script): seq<(string, string)> { AlignmentWarnings(s) + DiarizationWarnings(s) }

  function LanguageSource(s: Script): string { if s.forced then "forced" else "auto" }

  function CompletedStatus(s: Script): JobStatus {
    if Warnings(s) != [] then CompletedWithWarnings else Completed
  }

  function Duration(s: Script): Option<Number> {
    if First(Preparation(s)).Returns? && s.duration.Returns? then s.duration.value else None
  }

  function PayloadOf(s: Script): Payload {
    Payload(CompletedStatus(s), FinalContext(s).language, FinalContext(s).probability, LanguageSource(s),
            SpeakerCount(s), Duration(s), OrNone(Join(Messages(Warnings(s)))))
  }

  function StatusText(st: JobStatus): string {
    if st == CompletedWithWarnings then WARNINGS_TEXT else COMPLETED_TEXT
  }

  function CompletedManifest(s: Script): Manifest {
    Manifest(Text(s.jobId), Text(StatusText(CompletedStatus(s))), Text(s.finishedAt), FloatValue(Duration(s)),
             TextValue(FinalContext(s).language), FloatValue(FinalContext(s).probability), Text(LanguageSource(s)),
             IntValue(SpeakerCount(s)), ALL_OUTPUTS, ErrorValues(Warnings(s)))
  }

  function FailureManifest(s: Script, f: WorkerFailure): Manifest {
    Manifest(Text(s.jobId), Text(FAILED_TEXT), Text(s.failedAt), FloatValue(Duration(s)), Null, Null, Null, Null,
             map[], [(f.code, Text(f.message))])
  }

  // ----- the calls of the try block, in order -----

  /** The first signal that is not a plain return ends the block. */
  function First(signals: seq<Signal>): Signal {
    if signals == [] then DONE
    else if signals[0].IsFailure() then signals[0]
    else First(signals[1..])
  }

  lemma {:induction false} FirstAppend(a: seq<Signal>, b: seq<Signal>)
    ensures First(a + b) == if First(a).IsFailure() then First(a) else First(b)
  {
    if a == [] {
      assert a + b == b;
    } else {
      assert (a + b)[1..] == a[1..] + b;
      FirstAppend(a[1..], b);
    }
  }

  function Then(a: Signal, b: Signal): Signal { if a.IsFailure() then a else b }

  lemma FirstOfOne(a: Signal)
    ensures First([a]) == a
  {
    assert [a][1..] == [];
    assert a.Returns? ==> a.value == ();
  }

  lemma FirstOfTwo(a: Signal, b: Signal)
    ensures First([a, b]) == Then(a, b)
  {
    assert [a, b][1..] == [b];
    FirstOfOne(b);
  }

  lemma FirstOfThree(a: Signal, b: Signal, c: Signal)
    ensures First([a, b, c]) == Then(a, Then(b, c))
  {
    assert [a, b, c][1..] == [b, c];
    FirstOfTwo(b, c);
  }

  lemma FirstOfFive(a: Signal, b: Signal, c: Signal, d: Signal, e: Signal)
    ensures First([a, b, c, d, e]) == Then(a, Then(b, Then(c, Then(d, e))))
  {
    assert [a, b, c, d, e][1..] == [b, c, d, e] && [b, c, d, e][1..] == [c, d, e];
    FirstOfThree(c, d, e);
  }

  /** A block ends with the given signal exactly when that is its first one that fails. */
  lemma {:induction false} FirstFails(signals: seq<Signal>)
    ensures First(signals).IsFailure() <==> exists i :: 0 <= i < |signals| && signals[i].IsFailure()
    ensures First(signals).IsFailure() ==>
      exists i :: 0 <= i < |signals| && signals[i] == First(signals) && forall k :: 0 <= k < i ==> signals[k].Returns?
  {
    if signals != [] && !signals[0].IsFailure() {
      FirstFails(signals[1..]);
      if First(signals).IsFailure() {
        var i :| 0 <= i < |signals[1..]| && signals[1..][i] == First(signals) && forall k :: 0 <= k < i ==> signals[1..][k].Returns?;
        assert forall k :: 0 <= k < i + 1 ==> signals[k].Returns? by {
          forall k | 0 <= k < i + 1 ensures signals[k].Returns? { if k > 0 { assert signals[1..][k - 1].Returns?; } }
        }
        assert signals[i + 1] == First(signals);
      } else {
        forall i | 0 <= i < |signals| ensures !signals[i].IsFailure() { if i > 0 { assert !signals[1..][i - 1].IsFailure(); } }
      }
    }
  }

  function Preparation(s: Script): seq<Signal> {
    [s.createLease, s.acquire, s.emit(StageEvent(Preparing)), s.cuda, Void(s.duration)]
  }

  function Transcription(s: Script): seq<Signal> {
    [s.emit(StageEvent(ExtractingAudio)), s.extract, s.emit(StageEvent(LoadingModel)), s.emit(StageEvent(Transcribing)),
     Void(InStage(s, Transcribing, s.transcribe))]
  }

  function Alignment(s: Script): seq<Signal> { [s.emit(StageEvent(Aligning)), Caught(AlignResult(s))] }

  function Diarization(s: Script): seq<Signal> {
    if s.token then [s.emit(StageEvent(Diarizing)), Caught(DiarizationSignal(s))] else []
  }

  function ExportSignals(e: Export): seq<Signal> { [e.opening, e.writing] }

  function Outputs(s: Script): seq<Signal> {
    [s.json.outcome] + ExportSignals(s.txt) + ExportSignals(s.srt) + ExportSignals(s.vtt) + ExportSignals(s.tsv)
  }

  /** Everything before the manifest is written. */
  function BeforeManifest(s: Script): seq<Signal> {
    Pipeline(s)
    + [s.emit(StageEvent(Exporting)), s.transcript] + Outputs(s)
  }

  function BeforeCompleted(s: Script): seq<Signal> { BeforeManifest(s) + [s.manifest.outcome] }

  function Signals(s: Script): seq<Signal> { BeforeCompleted(s) + [s.emit(CompletedEvent(PayloadOf(s)))] }

  /** How the try block ends. */
  function Body(s: Script): Signal { First(Signals(s)) }

  lemma FirstOfParts(a: seq<Signal>, b: seq<Signal>, c: seq<Signal>, d: seq<Signal>, e: seq<Signal>)
    ensures First(a + b + c + d + e) == Then(First(a), Then(First(b), Then(First(c), Then(First(d), First(e)))))
  {
    FirstAppend(a + b + c + d, e);
    FirstAppend(a + b + c, d);
    FirstAppend(a + b, c);
    FirstAppend(a, b);
  }

  /** The signals of the pipeline, up to the transcript. */
  function Pipeline(s: Script): seq<Signal> { Preparation(s) + Transcription(s) + Alignment(s) + Diarization(s) }

  lemma FirstOfPipeline(s: Script)
    ensures First(Pipeline(s))
         == Then(First(Preparation(s)), Then(First(Transcription(s)), Then(First(Alignment(s)), First(Diarization(s)))))
  {
    FirstOfParts([], Preparation(s), Transcription(s), Alignment(s), Diarization(s));
    assert [] + Preparation(s) + Transcription(s) + Alignment(s) + Diarization(s) == Pipeline(s);
  }

  lemma FirstOfBody(s: Script)
    ensures First(BeforeManifest(s))
         == Then(First(Pipeline(s)), Then(First([s.emit(StageEvent(Exporting)), s.transcript]), First(Outputs(s))))
    ensures First(BeforeCompleted(s)) == Then(First(BeforeManifest(s)), s.manifest.outcome)
    ensures Body(s) == Then(First(BeforeCompleted(s)), s.emit(CompletedEvent(PayloadOf(s))))
  {
    FirstAppend(Pipeline(s) + [s.emit(StageEvent(Exporting)), s.transcript], Outputs(s));
    FirstAppend(Pipeline(s), [s.emit(StageEvent(Exporting)), s.transcript]);
    FirstAppend(BeforeManifest(s), [s.manifest.outcome]);
    FirstAppend(BeforeCompleted(s), [s.emit(CompletedEvent(PayloadOf(s)))]);
    FirstOfOne(s.manifest.outcome);
    FirstOfOne(s.emit(CompletedEvent(PayloadOf(s))));
  }

  /** A pipeline that fails is the whole body: nothing is exported or published. */
  lemma EndsInPipeline(s: Script)
    requires !First(Pipeline(s)).Returns?
    ensures Body(s) == First(Pipeline(s)) && !Reached(s) && !Publishes(s) && !ReachesExport(s).Returns?
  {
    FirstOfBody(s);
  }

  /** Once the pipeline is through, exporting either ends the body or leaves it to the manifest. */
  lemma ExportDecides(s: Script)
    requires First(Pipeline(s)).Returns?
    ensures var exported := Then(First([s.emit(StageEvent(Exporting)), s.transcript]), First(Outputs(s)));
      if exported.Returns?
      then First(BeforeManifest(s)).Returns? && (Reached(s) <==> s.manifest.outcome.Returns?)
           && Body(s) == Then(s.manifest.outcome, s.emit(CompletedEvent(PayloadOf(s))))
      else Body(s) == exported && !Reached(s) && !Publishes(s)
  {
    FirstOfBody(s);
  }

  // ----- the exports on disk -----

  type Files = map<Kind, Content>

  function AfterJson(w: AtomicWrite, files: Files): Files { if Lands(w) then files[Json := Full] else files }

  function AfterInPlace(e: Export, k: Kind, files: Files): Files {
    if !e.opening.Returns? then files else files[k := if e.writing.Returns? then Full else Partial]
  }

  /** Txt, SRT, VTT and TSV in this order, each only after the one before it. */
  function AfterInPlaceAll(todo: seq<(Kind, Export)>, files: Files): Files {
    if todo == [] then files
    else
      var (k, e) := todo[0];
      if First(ExportSignals(e)).IsFailure() then AfterInPlace(e, k, files)
      else AfterInPlaceAll(todo[1..], AfterInPlace(e, k, files))
  }

  function InPlace(s: Script): seq<(Kind, Export)> { [(Txt, s.txt), (Srt, s.srt), (Vtt, s.vtt), (Tsv, s.tsv)] }

  function AfterOutputs(s: Script, files: Files): Files {
    if s.json.outcome.IsFailure() then AfterJson(s.json, files) else AfterInPlaceAll(InPlace(s), AfterJson(s.json, files))
  }

  function ReachesExport(s: Script): Signal {
    Then(First(Pipeline(s)), First([s.emit(StageEvent(Exporting)), s.transcript]))
  }

  /** The exports a run leaves, given the ones it finds. */
  function ExportsAfter(s: Script, files: Files): Files {
    if ReachesExport(s).Returns? then AfterOutputs(s, files) else files
  }

  // ----- the directory from one write to the next -----

  function JsonMoments(w: AtomicWrite, d: Directory): seq<Directory> {
    if Lands(w) then [d.(exports := d.exports[Json := Full])] else []
  }

  /** A file opened is partial until it has been written. */
  function InPlaceMoments(e: Export, k: Kind, d: Directory): seq<Directory> {
    if !e.opening.Returns? then []
    else [d.(exports := d.exports[k := Partial])] + if e.writing.Returns? then [d.(exports := d.exports[k := Full])] else []
  }

  function InPlaceAllMoments(todo: seq<(Kind, Export)>, d: Directory): seq<Directory> {
    if todo == [] then []
    else
      var (k, e) := todo[0];
      InPlaceMoments(e, k, d) +
      if First(ExportSignals(e)).IsFailure() then []
      else InPlaceAllMoments(todo[1..], d.(exports := AfterInPlace(e, k, d.exports)))
  }

  function OutputMoments(s: Script, d: Directory): seq<Directory> {
    JsonMoments(s.json, d) +
    if s.json.outcome.IsFailure() then []
    else InPlaceAllMoments(InPlace(s), d.(exports := AfterJson(s.json, d.exports)))
  }

  function ExportMoments(s: Script, d: Directory): seq<Directory> {
    if ReachesExport(s).Returns? then OutputMoments(s, d) else []
  }

  function PublishMoments(s: Script, d: Directory): seq<Directory> {
    if Publishes(s) then [Directory(ExportsAfter(s, d.exports), Some(CompletedManifest(s)))] else []
  }

  function FailureMoments(s: Script, d: Directory): seq<Directory> {
    if WritesFailure(s) then [Directory(ExportsAfter(s, d.exports), Some(FailureManifest(s, Classify(Body(s).error))))] else []
  }

  /** Every state the directory is in between the start of a run and its end, in order. */
  function Moments(s: Script, d: Directory): seq<Directory> {
    [d] + ExportMoments(s, d) + PublishMoments(s, d) + FailureMoments(s, d)
  }

  // ----- what a run amounts to -----

  datatype RunOutcome = RunOutcome(
    status: JobStatus, language: Option<string>, speakerCount: Option<int>, warningText: Option<string>,
    failure: Option<WorkerFailure>)

  const CANCELLED := WorkerFailure("cancelled",
    "Processing was stopped. Your recording is safe in the archive and can be retried.")

  function OutcomeOf(s: Script): RunOutcome {
    match Body(s)
    case Returns(_) =>
      RunOutcome(CompletedStatus(s), FinalContext(s).language, SpeakerCount(s), OrNone(Join(Messages(Warnings(s)))), None)
    case Interrupts => RunOutcome(Cancelled, None, None, None, Some(CANCELLED))
    case Raises(e) => RunOutcome(JobStatus.Failed, None, None, None, Some(Classify(e)))
  }

  /** What the two handlers may still run into. */
  function Handling(s: Script): Signal {
    match Body(s)
    case Returns(_) => DONE
    case Interrupts => s.emit(CancelledEvent)
    case Raises(e) =>
      if s.failure.outcome.Interrupts? then Interrupts else s.emit(FailedEvent(Classify(e)))
  }

  function Finishing(s: Script): Signal {
    First([if s.createLease.Returns? then Caught(s.closeLease) else DONE, Caught(s.cleanup),
           if s.keepTemporary then DONE else s.removeTemp])
  }

  function RunResult(s: Script): Stage<RunOutcome> {
    if Finishing(s).IsFailure() then Finishing(s).PropagateFailure()
    else if Handling(s).IsFailure() then Handling(s).PropagateFailure()
    else Returns(OutcomeOf(s))
  }

  function Terminals(events: seq<Event>): seq<Event> {
    if events == [] then []
    else Terminals(events[..|events| - 1]) + if Terminal(events[|events| - 1]) then [events[|events| - 1]] else []
  }

  /** The run gets as far as its completed event. */
  predicate Reached(s: Script) { First(BeforeCompleted(s)).Returns? }

  /** The terminal events a run attempts to emit. */
  function ExpectedTerminals(s: Script): seq<Event> {
    (if Reached(s) then [CompletedEvent(PayloadOf(s))] else []) + HandlerEvents(s)
  }

  predicate Publishes(s: Script) { First(BeforeManifest(s)).Returns? && Lands(s.manifest) }

  predicate WritesFailure(s: Script) { Body(s).Raises? && Lands(s.failure) }

  function FinalManifest(s: Script, before: Option<Manifest>): Option<Manifest> {
    if WritesFailure(s) then Some(FailureManifest(s, Classify(Body(s).error)))
    else if Publishes(s) then Some(CompletedManifest(s))
    else before
  }

  /** What can be on disk at any moment of a run: the manifest found there, this run's failure,
      or this run's completed manifest together with all five exports. */
  predicate Snapshot(s: Script, before: Option<Manifest>, d: Directory) {
    || d.manifest == before
    || (d.manifest == Some(CompletedManifest(s)) && AllFull(d))
    || (WritesFailure(s) && d.manifest == Some(FailureManifest(s, Classify(Body(s).error))))
  }

  // ----- the run itself -----

  ghost predicate Quietly(before: seq<Event>, after: seq<Event>) {
    before <= after && forall i :: |before| <= i < |after| ==> !Terminal(after[i])
  }

  lemma {:induction false} QuietTerminals(before: seq<Event>, after: seq<Event>)
    requires Quietly(before, after)
    ensures Terminals(after) == Terminals(before)
  {
    if |after| > |before| {
      QuietTerminals(before, after[..|after| - 1]);
    } else {
      assert after == before;
    }
  }

  lemma OneMoreTerminal(events: seq<Event>, e: Event)
    ensures Terminals(events + [e]) == Terminals(events) + if Terminal(e) then [e] else []
  {
    assert (events + [e])[..|events + [e]| - 1] == events;
  }

  /** `Released`: its `close` has been called. */
  datatype Lease = NoLease | Created | Held | Released

  function FirstOfExports(todo: seq<(Kind, Export)>): Signal {
    if todo == [] then DONE else Then(First(ExportSignals(todo[0].1)), FirstOfExports(todo[1..]))
  }

  /** The five files: when every call returns, all of them are there in full. */
  lemma OutputsInOrder(s: Script, files: Files)
    ensures First(Outputs(s)) == Then(s.json.outcome, FirstOfExports(InPlace(s)))
    ensures First(Outputs(s)).Returns? ==> AllFull(Directory(AfterOutputs(s, files), None))
  {
    FirstOfParts([s.json.outcome], ExportSignals(s.txt), ExportSignals(s.srt), ExportSignals(s.vtt), ExportSignals(s.tsv));
    FirstOfOne(s.json.outcome);
    InPlaceSteps(s, AfterJson(s.json, files));
    if First(Outputs(s)).Returns? {
      FirstOfTwo(s.txt.opening, s.txt.writing);
      FirstOfTwo(s.srt.opening, s.srt.writing);
      FirstOfTwo(s.vtt.opening, s.vtt.writing);
      FirstOfTwo(s.tsv.opening, s.tsv.writing);
      var after := AfterOutputs(s, files);
      forall k: Kind ensures k in after && after[k] == Full {
        match k case Json => case Txt => case Srt => case Vtt => case Tsv =>
      }
    }
  }

  lemma InPlaceSteps(s: Script, files: Files)
    ensures FirstOfExports(InPlace(s))
         == Then(First(ExportSignals(s.txt)), Then(First(ExportSignals(s.srt)), Then(First(ExportSignals(s.vtt)), First(ExportSignals(s.tsv)))))
    ensures FirstOfExports(InPlace(s)).Returns? ==>
      AfterInPlaceAll(InPlace(s), files)
        == AfterInPlace(s.tsv, Tsv, AfterInPlace(s.vtt, Vtt, AfterInPlace(s.srt, Srt, AfterInPlace(s.txt, Txt, files))))
  {
    var todo := InPlace(s);
    var three, two, one := [(Srt, s.srt), (Vtt, s.vtt), (Tsv, s.tsv)], [(Vtt, s.vtt), (Tsv, s.tsv)], [(Tsv, s.tsv)];
    assert todo[1..] == three && three[1..] == two && two[1..] == one && one[1..] == [];
    UnitSignal(First(ExportSignals(s.tsv)));
    assert FirstOfExports(one) == First(ExportSignals(s.tsv));
    assert FirstOfExports(two) == Then(First(ExportSignals(s.vtt)), First(ExportSignals(s.tsv)));
    assert FirstOfExports(three) == Then(First(ExportSignals(s.srt)), FirstOfExports(two));
    if FirstOfExports(todo).Returns? {
      forall f: Files ensures AfterInPlaceAll(one, f) == AfterInPlace(s.tsv, Tsv, f) {}
      forall f: Files ensures AfterInPlaceAll(two, f) == AfterInPlace(s.tsv, Tsv, AfterInPlace(s.vtt, Vtt, f)) {}
    }
  }

  lemma UnitSignal(a: Signal)
    ensures Then(a, DONE) == a
  {
    assert a.Returns? ==> a.value == ();
  }

  class Worker {
    const script: Script
    var events: seq<Event>
    var disk: Directory
    ghost var trace: seq<Directory>
    var lease: Lease
    var duration: Option<Number>

    /** The trace ends with what is on disk. */
    ghost predicate Tracked()
      reads `trace, `disk
    {
      trace != [] && trace[|trace| - 1] == disk
    }

    constructor (script: Script, disk: Directory)
      ensures this.script == script && this.disk == disk && trace == [disk]
      ensures events == [] && lease == NoLease && duration == None
    {
      this.script, this.disk, trace := script, disk, [disk];
      events, lease, duration := [], NoLease, None;
    }

    method Emit(e: Event) returns (r: Signal)
      modifies `events
      ensures events == old(events) + [e] && r == script.emit(e)
    {
      events := events + [e];
      r := script.emit(e);
    }

    /** The progress reports of a stage; the first one that fails ends the stage. */
    method Report(name: StageName, n: nat) returns (r: Signal)
      modifies `events
      ensures r == ProgressSignal(script, name, 0, n) && Quietly(old(events), events)
    {
      var i := 0;
      while i < n
        invariant i <= n && Quietly(old(events), events)
        invariant ProgressSignal(script, name, 0, n) == ProgressSignal(script, name, i, n)
      {
        var _ :- Emit(Progress(name, i));
        i := i + 1;
      }
      r := DONE;
    }

    method RunStage<T>(name: StageName, w: Work<T>) returns (r: Stage<T>)
      modifies `events
      ensures r == InStage(script, name, w) && Quietly(old(events), events)
    {
      var _ :- Report(name, w.progress);
      r := w.outcome;
    }

    method Prepare() returns (r: Signal)
      requires lease == NoLease && duration == None
      modifies `events, `lease, `duration
      ensures r == First(Preparation(script)) && Quietly(old(events), events) && duration == Duration(script)
      ensures lease == NoLease <==> !script.createLease.Returns?
      ensures lease != Released
    {
      FirstOfFive(script.createLease, script.acquire, script.emit(StageEvent(Preparing)), script.cuda, Void(script.duration));
      if script.createLease.IsFailure() { return script.createLease; }
      lease := Created;
      if script.acquire.IsFailure() { return script.acquire; }
      lease := Held;
      var _ :- Emit(StageEvent(Preparing));
      if script.cuda.IsFailure() { return script.cuda; }
      if script.duration.IsFailure() { return Void(script.duration); }
      duration := script.duration.value;
      r := DONE;
    }

    method Transcribe() returns (r: Stage<Context>)
      modifies `events
      ensures Void(r) == First(Transcription(script)) && Quietly(old(events), events)
      ensures r.Returns? ==> r == script.transcribe.outcome
    {
      FirstOfFive(script.emit(StageEvent(ExtractingAudio)), script.extract, script.emit(StageEvent(LoadingModel)),
                  script.emit(StageEvent(Transcribing)), Void(InStage(script, Transcribing, script.transcribe)));
      var _ :- Emit(StageEvent(ExtractingAudio));
      if script.extract.IsFailure() { return script.extract.PropagateFailure(); }
      var _ :- Emit(StageEvent(LoadingModel));
      var _ :- Emit(StageEvent(Transcribing));
      r := RunStage(Transcribing, script.transcribe);
    }

    /** An exception while aligning leaves the unaligned context and a warning. */
    method Align(context: Context) returns (r: Stage<(Context, seq<(string, string)>)>)
      requires script.transcribe.outcome == Returns(context)
      modifies `events
      ensures Void(r) == First(Alignment(script)) && Quietly(old(events), events)
      ensures r.Returns? ==> r.value == (Aligned(script), AlignmentWarnings(script))
    {
      FirstOfTwo(script.emit(StageEvent(Aligning)), Caught(AlignResult(script)));
      var _ :- Emit(StageEvent(Aligning));
      var aligned := RunStage(Aligning, script.align);
      match aligned {
        case Returns(c) => r := Returns((c, []));
        case Raises(_) => r := Returns((context, [ALIGNMENT_WARNING]));
        case Interrupts => r := Interrupts;
      }
    }

    method Diarize(context: Context)
      returns (r: Stage<(Context, Option<int>, seq<(string, string)>)>)
      requires context == Aligned(script)
      modifies `events
      ensures Void(r) == First(Diarization(script)) && Quietly(old(events), events)
      ensures r.Returns? ==> r.value == (FinalContext(script), SpeakerCount(script), DiarizationWarnings(script))
    {
      if !script.token {
        return Returns((context, None, [TOKEN_WARNING]));
      }
      FirstOfTwo(script.emit(StageEvent(Diarizing)), Caught(DiarizationSignal(script)));
      var _ :- Emit(StageEvent(Diarizing));
      var diarized := RunStage(Diarizing, script.diarize);
      match diarized {
        case Returns(found) =>
          match script.matching {
            case Returns(_) => r := Returns((found.0, Some(found.1), []));
            case Raises(e) => r := Returns((found.0, None, [DiarizationWarning(e)]));
            case Interrupts => r := Interrupts;
          }
        case Raises(e) => r := Returns((context, None, [DiarizationWarning(e)]));
        case Interrupts => r := Interrupts;
      }
    }

    method Compute() returns (r: Stage<(Context, Option<int>, seq<(string, string)>)>)
      requires lease == NoLease && duration == None
      modifies `events, `lease, `duration
      ensures Void(r) == First(Pipeline(script)) && Quietly(old(events), events) && duration == Duration(script)
      ensures r.Returns? ==> r.value == (FinalContext(script), SpeakerCount(script), Warnings(script))
      ensures lease == NoLease <==> !script.createLease.Returns?
      ensures lease != Released
    {
      FirstOfPipeline(script);
      var _ :- Prepare();
      var transcribed :- Transcribe();
      var aligned :- Align(transcribed);
      var diarized :- Diarize(aligned.0);
      r := Returns((diarized.0, diarized.1, aligned.1 + diarized.2));
    }

    method Put(d: Directory)
      requires Tracked()
      modifies `disk, `trace
      ensures Tracked()
      ensures disk == d && trace == old(trace) + [d]
    {
      disk := d;
      trace := trace + [d];
    }

    method WriteJson() returns (r: Signal)
      requires Tracked()
      modifies `disk, `trace
      ensures Tracked()
      ensures r == script.json.outcome && trace == old(trace) + JsonMoments(script.json, old(disk))
      ensures disk == Directory(AfterJson(script.json, old(disk).exports), old(disk).manifest)
    {
      if Lands(script.json) {
        Put(disk.(exports := disk.exports[Json := Full]));
      }
      r := script.json.outcome;
    }

    method WriteInPlace(k: Kind, e: Export) returns (r: Signal)
      requires Tracked()
      modifies `disk, `trace
      ensures Tracked()
      ensures r == First(ExportSignals(e)) && trace == old(trace) + InPlaceMoments(e, k, old(disk))
      ensures disk == Directory(AfterInPlace(e, k, old(disk).exports), old(disk).manifest)
    {
      FirstOfTwo(e.opening, e.writing);
      if e.opening.IsFailure() { return e.opening; }
      Put(disk.(exports := disk.exports[k := Partial]));
      if e.writing.Returns? {
        assert disk.exports[k := Full] == old(disk).exports[k := Full];
        Put(disk.(exports := disk.exports[k := Full]));
      }
      r := e.writing;
    }

    /** Each file is opened only when the one before it was written. */
    method WriteAllInPlace(todo: seq<(Kind, Export)>) returns (r: Signal)
      requires Tracked()
      modifies `disk, `trace
      ensures Tracked()
      ensures r == FirstOfExports(todo) && trace == old(trace) + InPlaceAllMoments(todo, old(disk))
      ensures disk == Directory(AfterInPlaceAll(todo, old(disk).exports), old(disk).manifest)
    {
      r := DONE;
      var i := 0;
      while i < |todo|
        invariant 0 <= i <= |todo| && Tracked() && disk.manifest == old(disk).manifest
        invariant trace + InPlaceAllMoments(todo[i..], disk) == old(trace) + InPlaceAllMoments(todo, old(disk))
        invariant AfterInPlaceAll(todo[i..], disk.exports) == AfterInPlaceAll(todo, old(disk).exports)
        invariant FirstOfExports(todo[i..]) == FirstOfExports(todo)
      {
        assert todo[i..][0] == todo[i] && todo[i..][1..] == todo[i + 1..];
        ghost var seen, now := trace, disk;
        r := WriteInPlace(todo[i].0, todo[i].1);
        MomentsGoOn(seen, todo[i..], now);
        if r.IsFailure() { return; }
        i := i + 1;
      }
      r := DONE;
    }

    method WriteTranscriptOutputs() returns (r: Signal)
      requires Tracked()
      modifies `disk, `trace
      ensures Tracked()
      ensures r == First(Outputs(script)) && trace == old(trace) + OutputMoments(script, old(disk))
      ensures disk == Directory(AfterOutputs(script, old(disk).exports), old(disk).manifest)
      ensures r.Returns? ==> AllFull(disk)
    {
      OutputsInOrder(script, disk.exports);
      r := WriteFiles(InPlace(script));
    }

    /** The JSON file is replaced atomically, the others are written in place. */
    method WriteFiles(todo: seq<(Kind, Export)>) returns (r: Signal)
      requires Tracked()
      modifies `disk, `trace
      ensures Tracked()
      ensures r == Then(script.json.outcome, FirstOfExports(todo)) && disk.manifest == old(disk).manifest
      ensures var written := AfterJson(script.json, old(disk).exports);
        if script.json.outcome.IsFailure()
        then disk.exports == written && trace == old(trace) + JsonMoments(script.json, old(disk))
        else disk.exports == AfterInPlaceAll(todo, written)
             && trace == old(trace) + (JsonMoments(script.json, old(disk)) + InPlaceAllMoments(todo, old(disk).(exports := written)))
    {
      ghost var seen, found := trace, disk;
      var _ :- WriteJson();
      MomentsAdd(seen, JsonMoments(script.json, found), InPlaceAllMoments(todo, disk));
      r := WriteAllInPlace(todo);
    }

    method WriteManifest(m: Manifest, w: AtomicWrite) returns (r: Signal)
      requires Tracked()
      modifies `disk, `trace
      ensures Tracked()
      ensures r == w.outcome && disk == (if Lands(w) then old(disk).(manifest := Some(m)) else old(disk))
      ensures trace == (if Lands(w) then old(trace) + [disk] else old(trace))
    {
      if Lands(w) {
        Put(disk.(manifest := Some(m)));
      }
      r := w.outcome;
    }

    method ExportTranscript() returns (r: Signal)
      requires Tracked() && First(Pipeline(script)).Returns?
      modifies `events, `disk, `trace
      ensures Tracked()
      ensures r == Then(First([script.emit(StageEvent(Exporting)), script.transcript]), First(Outputs(script)))
      ensures Quietly(old(events), events)
      ensures disk == Directory(ExportsAfter(script, old(disk).exports), old(disk).manifest) && (r.Returns? ==> AllFull(disk))
      ensures trace == old(trace) + ExportMoments(script, old(disk))
    {
      FirstOfTwo(script.emit(StageEvent(Exporting)), script.transcript);
      var _ :- Emit(StageEvent(Exporting));
      if script.transcript.IsFailure() { return script.transcript; }
      r := WriteTranscriptOutputs();
    }

    /** The manifest, once all five exports are on disk, then the terminal event. */
    method Announce(context: Context, speakers: Option<int>, warnings: seq<(string, string)>) returns (r: Signal)
      requires Tracked() && First(BeforeManifest(script)).Returns? && duration == Duration(script) && AllFull(disk)
      requires context == FinalContext(script) && speakers == SpeakerCount(script) && warnings == Warnings(script)
      modifies `events, `disk, `trace
      ensures Tracked()
      ensures r == Then(script.manifest.outcome, script.emit(CompletedEvent(PayloadOf(script))))
      ensures events == old(events) + if script.manifest.outcome.Returns? then [CompletedEvent(PayloadOf(script))] else []
      ensures disk == (if Lands(script.manifest) then old(disk).(manifest := Some(CompletedManifest(script))) else old(disk))
      ensures trace == (if Lands(script.manifest) then old(trace) + [disk] else old(trace))
    {
      var status := if warnings != [] then CompletedWithWarnings else Completed;
      var source := if script.forced then "forced" else "auto";
      var manifest := Manifest(
        Text(script.jobId), Text(StatusText(status)), Text(script.finishedAt), FloatValue(duration),
        TextValue(context.language), FloatValue(context.probability), Text(source), IntValue(speakers),
        ALL_OUTPUTS, ErrorValues(warnings));
      var _ :- WriteManifest(manifest, script.manifest);
      r := Emit(CompletedEvent(Payload(status, context.language, context.probability, source, speakers, duration,
                                       OrNone(Join(Messages(warnings))))));
    }

    /** The transcript files, then the manifest, then the terminal event. */
    method Publish(context: Context, speakers: Option<int>, warnings: seq<(string, string)>) returns (r: Signal)
      requires Tracked() && First(Pipeline(script)).Returns? && duration == Duration(script)
      requires context == FinalContext(script) && speakers == SpeakerCount(script) && warnings == Warnings(script)
      modifies `events, `disk, `trace
      ensures Tracked()
      ensures r == Body(script) && Attempted(Reached(script), CompletedEvent(PayloadOf(script)), old(events), events)
      ensures disk.manifest == (if Publishes(script) then Some(CompletedManifest(script)) else old(disk).manifest)
      ensures disk.exports == ExportsAfter(script, old(disk).exports) && (Publishes(script) ==> AllFull(disk))
      ensures trace == old(trace) + ExportMoments(script, old(disk)) + PublishMoments(script, old(disk))
    {
      ExportDecides(script);
      var _ :- ExportTranscript();
      ghost var quiet := events;
      r := Announce(context, speakers, warnings);
      assert script.manifest.outcome.Returns? ==> events[..|events| - 1] == quiet;
    }

    /** The try block. */
    method Attempt() returns (r: Stage<RunOutcome>)
      requires Tracked() && lease == NoLease && duration == None
      modifies `events, `lease, `duration, `disk, `trace
      ensures Tracked()
      ensures Void(r) == Body(script) && (r.Returns? ==> r.value == OutcomeOf(script))
      ensures Attempted(Reached(script), CompletedEvent(PayloadOf(script)), old(events), events) && duration == Duration(script)
      ensures disk.manifest == (if Publishes(script) then Some(CompletedManifest(script)) else old(disk).manifest)
      ensures disk.exports == ExportsAfter(script, old(disk).exports) && (Publishes(script) ==> AllFull(disk))
      ensures trace == old(trace) + ExportMoments(script, old(disk)) + PublishMoments(script, old(disk))
      ensures lease == NoLease <==> !script.createLease.Returns?
      ensures lease != Released
    {
      if !First(Pipeline(script)).Returns? { EndsInPipeline(script); }
      var computed :- Compute();
      var (context, speakers, warnings) := computed;
      var _ :- Publish(context, speakers, warnings);
      r := Returns(RunOutcome(if warnings != [] then CompletedWithWarnings else Completed, context.language, speakers,
                              OrNone(Join(Messages(warnings))), None));
    }

    /** The two exception handlers. */
    method Handle(body: Stage<RunOutcome>) returns (r: Stage<RunOutcome>)
      requires Tracked() && Void(body) == Body(script) && (body.Returns? ==> body.value == OutcomeOf(script))
      requires duration == Duration(script)
      modifies `events, `disk, `trace
      ensures Tracked()
      ensures r == if Handling(script).IsFailure() then Handling(script).PropagateFailure() else Returns(OutcomeOf(script))
      ensures events == old(events) + HandlerEvents(script)
      ensures disk.exports == old(disk).exports
      ensures disk.manifest == if WritesFailure(script) then Some(FailureManifest(script, Classify(Body(script).error)))
                               else old(disk).manifest
      ensures trace == if WritesFailure(script) then old(trace) + [disk] else old(trace)
    {
      match body {
        case Returns(_) => r := body;
        case Interrupts =>
          var _ :- Emit(CancelledEvent);
          r := Returns(RunOutcome(Cancelled, None, None, None, Some(CANCELLED)));
        case Raises(e) =>
          var f := Classify(e);
          var written := WriteManifest(
            Manifest(Text(script.jobId), Text(FAILED_TEXT), Text(script.failedAt), FloatValue(duration), Null, Null, Null,
                     Null, map[], [(f.code, Text(f.message))]), script.failure);
          if written.Interrupts? { return Interrupts; }
          var _ :- Emit(FailedEvent(f));
          r := Returns(RunOutcome(JobStatus.Failed, None, None, None, Some(f)));
      }
    }

    /** The finally block: the lease goes first, whatever else happens. */
    method Finish() returns (r: Signal)
      requires lease != Released && (lease == NoLease <==> !script.createLease.Returns?)
      modifies `lease
      ensures r == Finishing(script) && lease in {NoLease, Released}
    {
      FirstOfThree(if script.createLease.Returns? then Caught(script.closeLease) else DONE, Caught(script.cleanup),
                   if script.keepTemporary then DONE else script.removeTemp);
      if lease != NoLease {
        lease := Released;
        if script.closeLease.Interrupts? { return Interrupts; }
      }
      if script.cleanup.Interrupts? { return Interrupts; }
      r := if script.keepTemporary then DONE else script.removeTemp;
    }

    /** The try block and its handlers. */
    method Guarded() returns (r: Stage<RunOutcome>)
      requires events == [] && trace == [disk] && lease == NoLease && duration == None
      modifies `events, `lease, `duration, `disk, `trace
      ensures r == if Handling(script).IsFailure() then Handling(script).PropagateFailure() else Returns(OutcomeOf(script))
      ensures Terminals(events) == ExpectedTerminals(script)
      ensures ExpectedTerminals(script) != [] ==> events != [] && Terminal(events[|events| - 1])
      ensures lease != Released && (lease == NoLease <==> !script.createLease.Returns?)
      ensures disk == Directory(ExportsAfter(script, old(disk).exports), FinalManifest(script, old(disk).manifest))
      ensures Publishes(script) ==> AllFull(disk)
      ensures trace == Moments(script, old(disk)) && Tracked()
    {
      var body := Attempt();
      ghost var attempted := events;
      r := Handle(body);
      HandledTerminals(Reached(script), CompletedEvent(PayloadOf(script)), HandlerEvents(script), attempted);
    }

    /** `run_job`. The result, the terminal events and the final manifest are what the script
        amounts to; a lease that was created is released on every path; and at every moment
        the directory is in a state recovery can trust. */
    method RunJob() returns (r: Stage<RunOutcome>)
      requires events == [] && trace == [disk] && lease == NoLease && duration == None
      modifies this
      ensures r == RunResult(script)
      ensures Terminals(events) == ExpectedTerminals(script)
      ensures ExpectedTerminals(script) != [] ==> events != [] && Terminal(events[|events| - 1])
      ensures lease in {NoLease, Released}
      ensures disk == Directory(ExportsAfter(script, old(disk).exports), FinalManifest(script, old(disk).manifest))
      ensures Publishes(script) ==> AllFull(disk)
      ensures trace == Moments(script, old(disk)) && Tracked()
      ensures forall d | d in trace :: Snapshot(script, old(disk).manifest, d)
    {
      ghost var found := disk;
      var handled := Guarded();
      MomentsAreSnapshots(script, found);
      var finished := Finish();
      r := if finished.IsFailure() then finished.PropagateFailure() else handled;
    }
  }

  /** What the handlers emit. */
  function HandlerEvents(s: Script): (events: seq<Event>)
    ensures forall i :: 0 <= i < |events| ==> Terminal(events[i])
  {
    match Body(s)
    case Returns(_) => []
    case Interrupts => [CancelledEvent]
    case Raises(e) => if s.failure.outcome.Interrupts? then [] else [FailedEvent(Classify(e))]
  }

  /** The try block emits one terminal event, at its end, if it gets there. */
  ghost predicate Attempted(reached: bool, last: Event, before: seq<Event>, after: seq<Event>) {
    if reached then after != [] && Quietly(before, after[..|after| - 1]) && after[|after| - 1] == last
    else Quietly(before, after)
  }

  lemma MomentsGoOn(seen: seq<Directory>, todo: seq<(Kind, Export)>, d: Directory)
    requires todo != []
    ensures var (k, e) := todo[0];
      seen + InPlaceAllMoments(todo, d) == seen + InPlaceMoments(e, k, d) +
        if First(ExportSignals(e)).IsFailure() then []
        else InPlaceAllMoments(todo[1..], d.(exports := AfterInPlace(e, k, d.exports)))
  {
  }

  lemma MomentsAdd(seen: seq<Directory>, more: seq<Directory>, rest: seq<Directory>)
    ensures seen + more + rest == seen + (more + rest)
  {
  }

  /** Exporting leaves the manifest alone. */
  lemma {:induction false} InPlaceKeepsManifest(todo: seq<(Kind, Export)>, d: Directory)
    ensures forall m | m in InPlaceAllMoments(todo, d) :: m.manifest == d.manifest
  {
    if todo != [] {
      var (k, e) := todo[0];
      if !First(ExportSignals(e)).IsFailure() {
        InPlaceKeepsManifest(todo[1..], d.(exports := AfterInPlace(e, k, d.exports)));
      }
    }
  }

  lemma ExportKeepsManifest(s: Script, d: Directory)
    ensures forall m | m in ExportMoments(s, d) :: m.manifest == d.manifest
  {
    InPlaceKeepsManifest(InPlace(s), d.(exports := AfterJson(s.json, d.exports)));
  }

  lemma PublishedIsFull(s: Script, files: Files)
    requires Publishes(s)
    ensures AllFull(Directory(ExportsAfter(s, files), Some(CompletedManifest(s))))
  {
    FirstOfBody(s);
    OutputsInOrder(s, files);
  }

  lemma {:induction false} InPlaceEnds(todo: seq<(Kind, Export)>, d: Directory)
    ensures d.(exports := AfterInPlaceAll(todo, d.exports)) in [d] + InPlaceAllMoments(todo, d)
  {
    if todo != [] {
      var (k, e) := todo[0];
      FirstOfTwo(e.opening, e.writing);
      var next := d.(exports := AfterInPlace(e, k, d.exports));
      if First(ExportSignals(e)).IsFailure() {
        assert next in [d] + InPlaceMoments(e, k, d);
      } else {
        InPlaceEnds(todo[1..], next);
        assert next in InPlaceMoments(e, k, d);
      }
    }
  }

  lemma OutputsEnd(s: Script, d: Directory)
    ensures d.(exports := AfterOutputs(s, d.exports)) in [d] + OutputMoments(s, d)
  {
    var json := d.(exports := AfterJson(s.json, d.exports));
    assert json in [d] + JsonMoments(s.json, d);
    if !s.json.outcome.IsFailure() { InPlaceEnds(InPlace(s), json); }
  }

  /** What a run leaves is one of its moments. */
  lemma EndIsMoment(s: Script, d: Directory)
    ensures Directory(ExportsAfter(s, d.exports), FinalManifest(s, d.manifest)) in Moments(s, d)
  {
    OutputsEnd(s, d);
    assert d.(exports := ExportsAfter(s, d.exports)) in [d] + ExportMoments(s, d);
  }

  lemma MomentsAreSnapshots(s: Script, d: Directory)
    ensures forall m | m in Moments(s, d) :: Snapshot(s, d.manifest, m)
  {
    ExportKeepsManifest(s, d);
    if Publishes(s) { PublishedIsFull(s, d.exports); }
  }

  lemma {:induction false} TailTerminals(quiet: seq<Event>, tail: seq<Event>)
    requires Quietly([], quiet) && forall i :: 0 <= i < |tail| ==> Terminal(tail[i])
    ensures Terminals(quiet + tail) == tail
  {
    if tail == [] {
      QuietTerminals([], quiet);
      assert quiet + tail == quiet;
    } else {
      var rest := tail[..|tail| - 1];
      TailTerminals(quiet, rest);
      assert quiet + tail == (quiet + rest) + [tail[|tail| - 1]];
      OneMoreTerminal(quiet + rest, tail[|tail| - 1]);
    }
  }

  lemma HandledTerminals(reached: bool, last: Event, handled: seq<Event>, attempted: seq<Event>)
    requires Attempted(reached, last, [], attempted)
    requires Terminal(last) && forall i :: 0 <= i < |handled| ==> Terminal(handled[i])
    ensures var tail := (if reached then [last] else []) + handled;
      Terminals(attempted + handled) == tail && (tail != [] ==> Terminal((attempted + handled)[|attempted + handled| - 1]))
  {
    var tail := (if reached then [last] else []) + handled;
    var quiet := if reached then attempted[..|attempted| - 1] else attempted;
    assert attempted + handled == quiet + tail;
    TailTerminals(quiet, tail);
  }

  // ----- what follows for every script -----

  /** The event tells the controller what the outcome tells the exit code. */
  predicate Matches(e: Event, o: RunOutcome) {
    match e
    case CompletedEvent(p) =>
      o.status == p.status && o.language == p.language && o.speakerCount == p.speakerCount && o.warningText == p.warningText
      && o.failure == None
    case CancelledEvent => o.status == Cancelled && o.failure == Some(CANCELLED)
    case FailedEvent(f) => o.status == JobStatus.Failed && o.failure == Some(f)
    case _ => false
  }

  /** No warning shadows another in the manifest, where they are keyed by code. */
  lemma WarningCodesDiffer(s: Script)
    ensures forall i, j :: 0 <= i < j < |Warnings(s)| ==> Warnings(s)[i].0 != Warnings(s)[j].0
  {
    assert ALIGNMENT_WARNING.0[0] == 'a' && TOKEN_WARNING.0[0] == 'd';
    assert NO_ACCESS.code[0] == 'd' && DIARIZATION_WARNING.0[0] == 'd';
  }

  // ----- what the outcomes of the stages mean -----

  /** Every progress report of the stage goes through. */
  predicate Reported<T>(s: Script, name: StageName, w: Work<T>) {
    forall i: nat :: i < w.progress ==> s.emit(Progress(name, i)).Returns?
  }

  /** The first progress report that does not go through raises. */
  predicate ReportRaises(s: Script, name: StageName, from: nat, n: nat) {
    exists i: nat :: from <= i < n && s.emit(Progress(name, i)).Raises?
      && forall k: nat :: from <= k < i ==> s.emit(Progress(name, k)).Returns?
  }

  predicate StageRaises<T>(s: Script, name: StageName, w: Work<T>) {
    ReportRaises(s, name, 0, w.progress) || (Reported(s, name, w) && w.outcome.Raises?)
  }

  lemma {:induction false} ReportsEnd(s: Script, name: StageName, i: nat, n: nat)
    ensures ProgressSignal(s, name, i, n).Returns? <==> forall k: nat :: i <= k < n ==> s.emit(Progress(name, k)).Returns?
    ensures ProgressSignal(s, name, i, n).Raises? <==> ReportRaises(s, name, i, n)
    decreases n - i
  {
    if i < n && s.emit(Progress(name, i)).Returns? {
      ReportsEnd(s, name, i + 1, n);
      if ReportRaises(s, name, i + 1, n) {
        var j: nat :| i + 1 <= j < n && s.emit(Progress(name, j)).Raises?
          && forall k: nat :: i + 1 <= k < j ==> s.emit(Progress(name, k)).Returns?;
        assert forall k: nat :: i <= k < j ==> s.emit(Progress(name, k)).Returns?;
      }
    }
  }

  lemma StageEnds<T>(s: Script, name: StageName, w: Work<T>)
    ensures InStage(s, name, w).Raises? <==> StageRaises(s, name, w)
    ensures InStage(s, name, w).Returns? <==> Reported(s, name, w) && w.outcome.Returns?
    ensures InStage(s, name, w).Returns? ==> InStage(s, name, w) == w.outcome
  {
    ReportsEnd(s, name, 0, w.progress);
  }

  /** Diarizing, or the matching of voices after it, raises. */
  predicate DiarizationRaises(s: Script) {
    StageRaises(s, Diarizing, s.diarize) || (Reported(s, Diarizing, s.diarize) && s.diarize.outcome.Returns? && s.matching.Raises?)
  }

  function Codes(pairs: seq<(string, string)>): seq<string> {
    seq(|pairs|, i requires 0 <= i < |pairs| => pairs[i].0)
  }

  predicate OutOfMemory(text: string) { Contains(text, "out of memory") || Contains(text, "cuda oom") }

  predicate NoCuda(text: string) {
    Contains(text, "cuda")
    && (Contains(text, "unavailable") || Contains(text, "not available") || Contains(text, "not compiled"))
  }

  predicate AccessDenied(text: string) {
    Contains(text, "gated") || Contains(text, "403") || Contains(text, "401") || Contains(text, "license")
    || Contains(text, "access denied")
  }

  /** The code of every failure; memory comes before CUDA, CUDA before access, access before FFmpeg. */
  lemma FailureCodes(e: WorkerError)
    ensures Classify(e).code == match e
      case Failure(f) => f.code
      case LeaseBusy => "worker_busy"
      case Raw(text) =>
        if OutOfMemory(text) then "gpu_out_of_memory"
        else if NoCuda(text) then "cuda_unavailable"
        else if AccessDenied(text) then "diarization_access"
        else if Contains(text, "ffmpeg") then "ffmpeg_failed"
        else "worker_failed"
  {
    if e.Raw? {
      assert (exists m | m in ACCESS_MARKERS :: Contains(e.text, m)) <==> AccessDenied(e.text) by {
        assert ACCESS_MARKERS[0] == "gated" && ACCESS_MARKERS[1] == "403" && ACCESS_MARKERS[2] == "401"
          && ACCESS_MARKERS[3] == "license" && ACCESS_MARKERS[4] == "access denied";
      }
    }
  }

  /** Which failures a run survives with a warning, and with which code: one for alignment, one for
      a missing token or for diarization, in this order. */
  lemma WarningsExactly(s: Script)
    ensures DiarizationRaises(s) <==> DiarizationSignal(s).Raises?
    ensures Codes(Warnings(s))
         == (if StageRaises(s, Aligning, s.align) then ["alignment_failed"] else [])
          + if !s.token then ["diarization_token_missing"]
            else if !DiarizationRaises(s) then []
            else if Classify(DiarizationSignal(s).error).code == "diarization_access" then ["diarization_access"]
            else ["diarization_failed"]
  {
    StageEnds(s, Aligning, s.align);
    StageEnds(s, Diarizing, s.diarize);
  }

  /** A completed run says so with warnings exactly when alignment, diarization or matching raised,
      or there was no token: in its outcome, in its event and in its manifest. */
  lemma CompletedWithWarningsIff(s: Script, before: Option<Manifest>)
    requires Body(s).Returns?
    ensures var warned := StageRaises(s, Aligning, s.align) || !s.token || DiarizationRaises(s);
      && OutcomeOf(s).status == (if warned then CompletedWithWarnings else Completed)
      && ExpectedTerminals(s) == [CompletedEvent(PayloadOf(s))] && PayloadOf(s).status == OutcomeOf(s).status
      && FinalManifest(s, before).Some?
      && FinalManifest(s, before).value.status == Text(if warned then "completed_with_warnings" else "completed")
      && FinalManifest(s, before).value.errors == ErrorValues(Warnings(s))
  {
    WarningsExactly(s);
    FirstOfBody(s);
    assert Warnings(s) == [] <==> Codes(Warnings(s)) == [];
  }

  /** What a failure that reaches the disk says. */
  lemma FailedManifestSays(s: Script, before: Option<Manifest>)
    requires Body(s).Raises? && Lands(s.failure)
    ensures FinalManifest(s, before).Some?
    ensures var (m, f) := (FinalManifest(s, before).value, Classify(Body(s).error));
      && m.jobId == Text(s.jobId) && m.status == Text("failed") && m.completedAt == Text(s.failedAt)
      && m.outputs == map[] && m.errors == [(f.code, Text(f.message))]
      && OutcomeOf(s).status == JobStatus.Failed && OutcomeOf(s).failure == Some(f)
  {
  }

  /** What a completed run reports was computed by the last stage that worked. */
  lemma CompletedColumns(s: Script, before: Option<Manifest>)
    requires Body(s).Returns?
    ensures s.transcribe.outcome.Returns? && s.duration.Returns?
    ensures var aligned := if Reported(s, Aligning, s.align) && s.align.outcome.Returns? then s.align.outcome.value
                           else s.transcribe.outcome.value;
      var diarized := s.token && Reported(s, Diarizing, s.diarize) && s.diarize.outcome.Returns?;
      var context := if diarized then s.diarize.outcome.value.0 else aligned;
      var p := PayloadOf(s);
      && p.language == context.language && p.probability == context.probability && p.duration == s.duration.value
      && p.languageSource == (if s.forced then "forced" else "auto")
      && p.speakerCount == (if diarized && s.matching.Returns? then Some(s.diarize.outcome.value.1) else None)
      && OutcomeOf(s).language == p.language && OutcomeOf(s).speakerCount == p.speakerCount
      && FinalManifest(s, before).Some? && FinalManifest(s, before).value.jobId == Text(s.jobId)
      && FinalManifest(s, before).value.completedAt == Text(s.finishedAt)
      && FinalManifest(s, before).value.outputs == ALL_OUTPUTS
  {
    StageEnds(s, Aligning, s.align);
    StageEnds(s, Diarizing, s.diarize);
    FirstOfBody(s);
    PipelineReturned(s);
  }

  lemma PipelineReturned(s: Script)
    requires Body(s).Returns?
    ensures First(Preparation(s)).Returns? && s.transcribe.outcome.Returns? && s.duration.Returns?
  {
    FirstOfBody(s);
    FirstOfPipeline(s);
    StageEnds(s, Transcribing, s.transcribe);
    FirstOfFive(s.createLease, s.acquire, s.emit(StageEvent(Preparing)), s.cuda, Void(s.duration));
    FirstOfFive(s.emit(StageEvent(ExtractingAudio)), s.extract, s.emit(StageEvent(LoadingModel)),
                s.emit(StageEvent(Transcribing)), Void(InStage(s, Transcribing, s.transcribe)));
  }

  /** The call of `run_job` itself fails in three places only: removing the temporary files, the event
      a handler emits, and interrupts while cleaning up or writing the failure manifest. */
  lemma RunFailsIff(s: Script)
    ensures RunResult(s).Returns? <==>
      && !(s.createLease.Returns? && s.closeLease.Interrupts?) && !s.cleanup.Interrupts?
      && (s.keepTemporary || s.removeTemp.Returns?)
      && (Body(s).Interrupts? ==> s.emit(CancelledEvent).Returns?)
      && (Body(s).Raises? ==> !s.failure.outcome.Interrupts? && s.emit(FailedEvent(Classify(Body(s).error))).Returns?)
  {
    FirstOfThree(if s.createLease.Returns? then Caught(s.closeLease) else DONE, Caught(s.cleanup),
                 if s.keepTemporary then DONE else s.removeTemp);
  }

  /** A run completes exactly when no call on its way fails; a failed alignment or diarization is
      not such a call, an interrupted one is. */
  lemma CompletesIffNothingFails(s: Script)
    ensures IsDone(OutcomeOf(s).status) <==> forall i :: 0 <= i < |Signals(s)| ==> Signals(s)[i].Returns?
  {
    FirstFails(Signals(s));
    assert forall i :: 0 <= i < |Signals(s)| ==> (Signals(s)[i].IsFailure() <==> !Signals(s)[i].Returns?);
  }

  /** A run attempts exactly one terminal event, and the right one, unless the completed event
      itself cannot be emitted or the failure manifest is interrupted. */
  lemma OneTerminalEvent(s: Script)
    ensures |ExpectedTerminals(s)| == 1 && Matches(ExpectedTerminals(s)[0], OutcomeOf(s))
      <==> !(Reached(s) && s.emit(CompletedEvent(PayloadOf(s))).IsFailure()) && !(Body(s).Raises? && s.failure.outcome.Interrupts?)
  {
    FirstOfBody(s);
    if Reached(s) {
      assert ExpectedTerminals(s)[0] == CompletedEvent(PayloadOf(s));
      assert Body(s) == Then(DONE, s.emit(CompletedEvent(PayloadOf(s))));
    } else {
      assert Body(s).IsFailure() && ExpectedTerminals(s) == HandlerEvents(s);
    }
  }

  /** A completed manifest outlives its run exactly when its event could be emitted, or when the
      failure manifest that follows a raising emit does not reach the disk. */
  lemma CompletedManifestStays(s: Script, before: Option<Manifest>)
    requires Publishes(s)
    ensures FinalManifest(s, before) == Some(CompletedManifest(s))
      <==> !(s.manifest.outcome.Returns? && s.emit(CompletedEvent(PayloadOf(s))).Raises? && Lands(s.failure))
  {
    FirstOfBody(s);
    assert |COMPLETED_TEXT| != |FAILED_TEXT| && |WARNINGS_TEXT| != |FAILED_TEXT|;
    if WritesFailure(s) {
      assert FinalManifest(s, before).value.status == Text(FAILED_TEXT);
      assert CompletedManifest(s).status == Text(StatusText(CompletedStatus(s)));
    }
  }

  /** A run without a token in which everything succeeds, but for writing the TXT file and for
      emitting the completed event, which end as given. */
  function Quick(writing: Signal, completed: Signal): Script {
    var quick := Work(0, Returns(Context(None, None)));
    var file, whole := Export(DONE, DONE), AtomicWrite(true, DONE);
    Script("0", false, false, false, DONE, DONE, DONE, Returns(None), DONE, quick, quick,
           Work(0, Returns((Context(None, None), 0))), DONE, DONE, whole, Export(DONE, writing), file, file, file,
           whole, whole, "1", "2", DONE, DONE, DONE, (e: Event) => if e.CompletedEvent? then completed else DONE)
  }

  lemma QuickRun(writing: Signal, completed: Signal)
    ensures var s := Quick(writing, completed);
      && ReachesExport(s) == DONE && First(BeforeManifest(s)) == First(Outputs(s)) == Then(writing, DONE)
      && Body(s) == Then(Then(writing, DONE), completed)
  {
    var s := Quick(writing, completed);
    FirstOfFive(DONE, DONE, DONE, DONE, DONE);
    FirstOfTwo(DONE, DONE);
    FirstOfTwo(DONE, writing);
    FirstOfOne(DONE);
    assert Preparation(s) == [DONE, DONE, DONE, DONE, DONE] && Transcription(s) == [DONE, DONE, DONE, DONE, DONE];
    assert Alignment(s) == [DONE, DONE] && Diarization(s) == [];
    FirstOfPipeline(s);
    FirstOfParts([s.json.outcome], ExportSignals(s.txt), ExportSignals(s.srt), ExportSignals(s.vtt), ExportSignals(s.tsv));
    FirstOfBody(s);
  }

  /** A run of the given job that is interrupted while it writes the last file. */
  function CutShort(id: JobId): Script { Quick(DONE, DONE).(jobId := id, tsv := Export(DONE, Interrupts)) }

  lemma CutShortRun(id: JobId, files: Files)
    ensures var s := CutShort(id);
      && !Publishes(s) && !WritesFailure(s)
      && ExportsAfter(s, files) == files[Json := Full][Txt := Full][Srt := Full][Vtt := Full][Tsv := Partial]
  {
    var s := CutShort(id);
    FirstOfFive(DONE, DONE, DONE, DONE, DONE);
    FirstOfTwo(DONE, DONE);
    FirstOfTwo(DONE, Interrupts);
    FirstOfOne(DONE);
    assert Preparation(s) == [DONE, DONE, DONE, DONE, DONE] && Transcription(s) == [DONE, DONE, DONE, DONE, DONE];
    assert Alignment(s) == [DONE, DONE] && Diarization(s) == [];
    FirstOfPipeline(s);
    FirstOfParts([s.json.outcome], ExportSignals(s.txt), ExportSignals(s.srt), ExportSignals(s.vtt), ExportSignals(s.tsv));
    FirstOfBody(s);
    CutShortFiles(s, files[Json := Full]);
  }

  lemma CutShortFiles(s: Script, files: Files)
    requires s.txt == s.srt == s.vtt == Export(DONE, DONE) && s.tsv == Export(DONE, Interrupts)
    ensures AfterInPlaceAll(InPlace(s), files) == files[Txt := Full][Srt := Full][Vtt := Full][Tsv := Partial]
  {
    FirstOfTwo(DONE, DONE);
    FirstOfTwo(DONE, Interrupts);
    var three, two, one := [(Srt, s.srt), (Vtt, s.vtt), (Tsv, s.tsv)], [(Vtt, s.vtt), (Tsv, s.tsv)], [(Tsv, s.tsv)];
    assert InPlace(s)[1..] == three && three[1..] == two && two[1..] == one;
    var a := files[Txt := Full];
    var b := a[Srt := Full];
    var c := b[Vtt := Full];
    assert AfterInPlaceAll(one, c) == c[Tsv := Partial];
    assert AfterInPlaceAll(two, b) == AfterInPlaceAll(one, c);
    assert AfterInPlaceAll(three, a) == AfterInPlaceAll(two, b);
  }

  /** The reader of the events is gone at the end. */
  function BrokenPipe(): Script { Quick(DONE, Raises(Raw(""))) }

  /** So a completed manifest is not final, and two terminal events can be attempted. */
  lemma BrokenPipeOverwrites(before: Option<Manifest>)
    ensures var s := BrokenPipe();
      && Publishes(s) && FinalManifest(s, before) != Some(CompletedManifest(s))
      && |ExpectedTerminals(s)| == 2 && OutcomeOf(s).status == JobStatus.Failed
  {
    QuickRun(DONE, Raises(Raw("")));
    FirstOfBody(BrokenPipe());
    CompletedManifestStays(BrokenPipe(), before);
  }
}
