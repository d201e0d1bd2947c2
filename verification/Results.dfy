/** A finished run reaches its row by one of two routes: the controller reads the terminal event,
    or, if the application died first, restart recovery reads the manifest. */
module Results {
  import opened Models
  import opened Database
  import opened Manifests
  import opened WorkerRun

  // ----- the event route -----

  const WORKER_CRASHED := "worker_crashed"
  const CANCELLED_CODE := "cancelled"
  const CANCELLED_TEXT :=
    "Processing was stopped. Your recording is safe in the archive and can be retried."
  const FAILED_RUN_TEXT :=
    "Transcription failed. Your recording is safe in the archive. Open the job log and click Retry."

  function ErrorNotes(code: string, message: string): seq<Assign> {
    [SetErrorCode(Some(code)), SetErrorMessage(Some(message))]
  }

  function SummaryOf(p: Payload): Summary {
    Summary(p.duration, p.language, p.probability, Some(p.languageSource), p.speakerCount, p.warningText)
  }

  function FailureCode(terminal: Option<Event>): string {
    if terminal.Some? && terminal.value.FailedEvent? && terminal.value.failure.code != ""
    then terminal.value.failure.code else WORKER_CRASHED
  }

  function RecordCompleted(db: Db, id: JobId, p: Payload, now: string): Db {
    var summarised := OrSame(db, Update(db, id, SummaryColumns(SummaryOf(p))));
    var status := if p.status == CompletedWithWarnings then CompletedWithWarnings else Completed;
    OrSame(summarised, Transition(summarised, id, status, [], now))
  }

  /** `_on_worker_finished` */
  function EventRoute(db: Db, id: JobId, cancelledByUser: bool, terminal: Option<Event>, now: string): Db {
    if id !in db || db[id].status != Processing then db
    else if cancelledByUser || (terminal.Some? && terminal.value.CancelledEvent?) then
      OrSame(db, Transition(db, id, Cancelled, ErrorNotes(CANCELLED_CODE, CANCELLED_TEXT), now))
    else if terminal.Some? && terminal.value.CompletedEvent? then RecordCompleted(db, id, terminal.value.payload, now)
    else OrSame(db, Transition(db, id, JobStatus.Failed, ErrorNotes(FailureCode(terminal), FAILED_RUN_TEXT), now))
  }

  /** Recovery of one row: a readable final manifest is applied, anything else is not. */
  function ManifestRoute(db: Db, id: JobId, d: Directory, parsers: Parsers, now: string): Db
    requires id in db
  {
    var final := ReadFinalManifest(id, db[id], d, parsers);
    if final.Some? then OrSame(db, RestoreTerminal(db, id, final.value, now)) else db
  }

  // ----- texts and warnings -----

  function Total(texts: seq<string>): nat {
    if texts == [] then 0 else |texts[0]| + Total(texts[1..])
  }

  lemma {:induction false} JoinLength(texts: seq<string>)
    ensures |Join(texts)| == Total(texts) + if texts == [] then 0 else |texts| - 1
  {
    if |texts| > 1 { JoinLength(texts[1..]); }
  }

  function NonBlank(texts: seq<string>): seq<string> {
    if texts == [] then []
    else (if Blank(texts[0]) then [] else [texts[0]]) + NonBlank(texts[1..])
  }

  lemma {:induction false} NonBlankShorter(texts: seq<string>)
    ensures |NonBlank(texts)| <= |texts| && Total(NonBlank(texts)) <= Total(texts)
    ensures |NonBlank(texts)| == |texts| ==> NonBlank(texts) == texts
    ensures |NonBlank(texts)| == |texts| <==> forall i :: 0 <= i < |texts| ==> !Blank(texts[i])
  {
    if texts != [] {
      var rest := texts[1..];
      NonBlankShorter(rest);
      var head := if Blank(texts[0]) then [] else [texts[0]];
      assert NonBlank(texts) == head + NonBlank(rest);
      assert head != [] ==> (head + NonBlank(rest))[1..] == NonBlank(rest);
      assert head == [] ==> head + NonBlank(rest) == NonBlank(rest);
      assert forall i :: 0 < i < |texts| ==> texts[i] == rest[i - 1];
    }
  }

  /** The event joins all warning messages, the manifest only those that are not blank; the two
      texts agree exactly when no message is blank, or a single message is empty. */
  predicate CleanMessages(texts: seq<string>) {
    texts == [""] || forall i :: 0 <= i < |texts| ==> !Blank(texts[i])
  }

  lemma JoinedTextsAgree(texts: seq<string>)
    ensures OrNone(Join(texts)) == OrNone(Join(NonBlank(texts))) <==> CleanMessages(texts)
  {
    JoinLength(texts);
    JoinLength(NonBlank(texts));
    NonBlankShorter(texts);
    if |NonBlank(texts)| < |texts| && NonBlank(texts) == [] {
      if |texts| == 1 { assert texts == [texts[0]] && Blank(texts[0]); }
    }
  }

  lemma {:induction false} PairMessages(pairs: seq<(string, string)>)
    ensures Messages(ErrorPairs(ErrorValues(pairs))) == NonBlank(Messages(pairs))
  {
    if pairs != [] {
      var rest := pairs[1..];
      PairMessages(rest);
      StripBlank(pairs[0].1);
      assert ErrorValues(pairs)[1..] == ErrorValues(rest);
      assert Messages(pairs)[1..] == Messages(rest);
      var head := if Blank(pairs[0].1) then [] else [pairs[0]];
      assert ErrorPairs(ErrorValues(pairs)) == head + ErrorPairs(ErrorValues(rest));
      assert Messages(head + ErrorPairs(ErrorValues(rest))) == Messages(head) + Messages(ErrorPairs(ErrorValues(rest)));
    }
  }

  // ----- the two routes agree -----

  predicate CleanNumber(x: Option<Number>) { x != Some(Infinite) }

  predicate CleanText(t: Option<string>) { t.Some? ==> !Blank(t.value) && Strip(t.value) == t.value }

  /** What a run computed survives the trip through the manifest. */
  predicate CleanRun(s: Script) {
    && CleanNumber(Duration(s)) && CleanNumber(FinalContext(s).probability) && CleanText(FinalContext(s).language)
    && CleanMessages(Messages(Warnings(s)))
  }

  lemma NumberRoundTrip(x: Option<Number>, parse: string -> Option<Number>)
    ensures StoredNumber(OptionalFloat(FloatValue(x), parse)) == StoredNumber(x) <==> CleanNumber(x)
  {
  }

  lemma TextRoundTrip(t: Option<string>)
    ensures OptionalString(TextValue(t)) == t <==> CleanText(t)
  {
    if t.Some? { StripBlank(t.value); }
  }

  lemma SourceRoundTrip(s: Script)
    ensures OptionalString(Text(LanguageSource(s))) == Some(LanguageSource(s))
  {
    var t := LanguageSource(s);
    assert t[0] in {'f', 'a'} && t[|t| - 1] in {'d', 'o'};
  }

  lemma CompletedStatusText(s: Script)
    ensures FinalStatus(CompletedManifest(s).status) == Some(CompletedStatus(s))
  {
    assert |COMPLETED_TEXT| != |WARNINGS_TEXT|;
  }

  lemma ReadsDone(id: JobId, job: Job, d: Directory, m: Manifest, st: JobStatus, pairs: seq<(string, string)>, parsers: Parsers)
    requires job.archiveDir.Some? && d.manifest == Some(m) && AllFull(d)
    requires m.jobId == Text(id) && FinalStatus(m.status) == Some(st) && IsDone(st)
    requires m.outputs == ALL_OUTPUTS && m.errors == ErrorValues(pairs)
    ensures ReadFinalManifest(id, job, d, parsers) == Some(Final(st, OptionalString(m.completedAt), Summary(
      OptionalFloat(m.duration, parsers.toFloat), OptionalString(m.language), OptionalFloat(m.probability, parsers.toFloat),
      OptionalString(m.languageSource), OptionalInt(m.speakerCount, parsers.toInt),
      if st == CompletedWithWarnings then OrNone(Join(NonBlank(Messages(pairs)))) else None), None, None))
  {
    PairMessages(pairs);
    forall k: Kind ensures k in m.outputs && m.outputs[k] == Text(FileName(k)) && k in d.exports {
      EveryKind(k);
    }
  }

  /** The result columns after the trip through the manifest. */
  function KeptSummary(s: Script, parsers: Parsers): Summary {
    Summary(OptionalFloat(FloatValue(Duration(s)), parsers.toFloat), OptionalString(TextValue(FinalContext(s).language)),
            OptionalFloat(FloatValue(FinalContext(s).probability), parsers.toFloat), Some(LanguageSource(s)),
            SpeakerCount(s), OrNone(Join(NonBlank(Messages(Warnings(s))))))
  }

  /** What recovery reads from a completed manifest of this run. */
  lemma ReadsCompleted(s: Script, job: Job, d: Directory, parsers: Parsers)
    requires job.archiveDir.Some? && d.manifest == Some(CompletedManifest(s)) && AllFull(d)
    ensures var f := ReadFinalManifest(s.jobId, job, d, parsers);
      && f.Some? && f.value.status == CompletedStatus(s) && f.value.errorCode == None
      && f.value.summary == KeptSummary(s, parsers)
  {
    CompletedStatusText(s);
    SourceRoundTrip(s);
    ReadsDone(s.jobId, job, d, CompletedManifest(s), CompletedStatus(s), Warnings(s), parsers);
    assert OptionalInt(IntValue(SpeakerCount(s)), parsers.toInt) == SpeakerCount(s);
    if CompletedStatus(s) == Completed {
      assert Warnings(s) == [] && Messages(Warnings(s)) == [];
      assert OrNone(Join(NonBlank([]))) == None;
    }
  }

  lemma DoneTransition(db: Db, id: JobId, st: JobStatus, now: string)
    requires id in db && db[id].status == Processing && IsDone(st)
    ensures OrSame(db, Transition(db, id, st, [], now)) == db[id := Headed(db[id], st, now)]
  {
    ApplyHeading(db[id], st, [], now);
    assert Heading(Some(st), [], now) + [] == Heading(Some(st), [], now);
  }

  /** The row as the controller leaves it after a completed event. */
  lemma RecordedRow(db: Db, id: JobId, p: Payload, now: string)
    requires id in db && db[id].status == Processing && IsDone(p.status)
    ensures var r := EventRoute(db, id, false, Some(CompletedEvent(p)), now);
      && id in r && r[id].status == p.status && r[id].summary == Stored(SummaryOf(p)) && r[id].workerPid == None
      && !r[id].allowDuplicate
  {
    UpdateTwo(db, id, SetSummary(SummaryOf(p)), SetAllowDuplicate(false));
    DoneTransition(OrSame(db, Update(db, id, SummaryColumns(SummaryOf(p)))), id, p.status, now);
  }

  /** The row as recovery leaves it. */
  lemma RestoredRow(db: Db, s: Script, d: Directory, parsers: Parsers, at: string)
    requires s.jobId in db && db[s.jobId].status == Processing && db[s.jobId].archiveDir.Some?
    requires d.manifest == Some(CompletedManifest(s)) && AllFull(d)
    ensures var m := ManifestRoute(db, s.jobId, d, parsers, at);
      && s.jobId in m && m[s.jobId].status == CompletedStatus(s)
      && m[s.jobId].summary == Stored(KeptSummary(s, parsers))
  {
    ReadsCompleted(s, db[s.jobId], d, parsers);
    RestoreEffect(db, s.jobId, ReadFinalManifest(s.jobId, db[s.jobId], d, parsers).value, at);
  }

  lemma CompletedRunManifest(s: Script, before: Option<Manifest>)
    requires Body(s).Returns?
    ensures FinalManifest(s, before) == Some(CompletedManifest(s))
  {
    FirstOfBody(s);
  }

  /** What the manifest keeps of the result columns is what was computed exactly for a clean run. */
  lemma SummariesAgree(s: Script, parsers: Parsers)
    ensures Stored(KeptSummary(s, parsers)) == Stored(SummaryOf(PayloadOf(s))) <==> CleanRun(s)
  {
    NumberRoundTrip(Duration(s), parsers.toFloat);
    NumberRoundTrip(FinalContext(s).probability, parsers.toFloat);
    TextRoundTrip(FinalContext(s).language);
    JoinedTextsAgree(Messages(Warnings(s)));
  }

  /** Crash recovery refines direct completion: for the same completed run, the row restored from
      the manifest and the row written from the event have the same status, and the same six
      result columns exactly when what the run computed was clean. */
  lemma CompletedRoutesAgree(db: Db, s: Script, before: Option<Manifest>, d: Directory, parsers: Parsers, at: string, now: string)
    requires s.jobId in db && db[s.jobId].status == Processing && db[s.jobId].archiveDir.Some?
    requires Body(s).Returns? && d.manifest == FinalManifest(s, before) && AllFull(d)
    ensures var m, e := ManifestRoute(db, s.jobId, d, parsers, at),
                        EventRoute(db, s.jobId, false, Some(CompletedEvent(PayloadOf(s))), now);
      && s.jobId in m && s.jobId in e && m[s.jobId].status == e[s.jobId].status == CompletedStatus(s)
      && (m[s.jobId].summary == e[s.jobId].summary <==> CleanRun(s))
  {
    CompletedRunManifest(s, before);
    RestoredRow(db, s, d, parsers, at);
    RecordedRow(db, s.jobId, PayloadOf(s), now);
    SummariesAgree(s, parsers);
  }

  /** A failed run: the same status, and the same error code exactly when the failure has a code
      and a message that is not blank. */
  lemma FailedRoutesAgree(db: Db, s: Script, before: Option<Manifest>, d: Directory, parsers: Parsers, at: string, now: string)
    requires s.jobId in db && db[s.jobId].status == Processing && db[s.jobId].archiveDir.Some?
    requires WritesFailure(s) && d.manifest == FinalManifest(s, before)
    ensures var f := Classify(Body(s).error);
      var m, e := ManifestRoute(db, s.jobId, d, parsers, at), EventRoute(db, s.jobId, false, Some(FailedEvent(f)), now);
      && s.jobId in m && s.jobId in e && m[s.jobId].status == e[s.jobId].status == JobStatus.Failed
      && (m[s.jobId].errorCode == e[s.jobId].errorCode <==> f.code != "" && !Blank(f.message))
  {
    var f := Classify(Body(s).error);
    ReadsFailure(s, f, db[s.jobId], d, parsers);
    RestoreEffect(db, s.jobId, ReadFinalManifest(s.jobId, db[s.jobId], d, parsers).value, at);
    FailedRow(db, s.jobId, Some(FailedEvent(f)), now);
  }

  predicate SaysCancelled(terminal: Option<Event>) { terminal.Some? && terminal.value.CancelledEvent? }

  predicate SaysCompleted(terminal: Option<Event>) { terminal.Some? && terminal.value.CompletedEvent? }

  /** What the end of a worker does to its row, and to no other: a stop by the user comes before
      anything the worker said, a worker that said nothing has crashed. */
  lemma EventRouteExactly(db: Db, id: JobId, cancelledByUser: bool, terminal: Option<Event>, now: string)
    requires id in db && db[id].status == Processing
    ensures var r := EventRoute(db, id, cancelledByUser, terminal, now);
      && r.Keys == db.Keys && (forall k | k in db && k != id :: r[k] == db[k])
      && r[id].workerPid == None && r[id].completedAt == Some(now)
      && (r[id].status == Cancelled <==> cancelledByUser || SaysCancelled(terminal))
      && (r[id].status == Cancelled ==> r[id].errorCode == Some("cancelled") && r[id].summary == db[id].summary)
      && (IsDone(r[id].status) <==> !cancelledByUser && SaysCompleted(terminal))
      && (IsDone(r[id].status) ==>
            && r[id].summary == Stored(SummaryOf(terminal.value.payload))
            && (r[id].status == CompletedWithWarnings <==> terminal.value.payload.status == CompletedWithWarnings))
      && (r[id].status == JobStatus.Failed <==> !cancelledByUser && !SaysCancelled(terminal) && !SaysCompleted(terminal))
      && (r[id].status == JobStatus.Failed ==>
            r[id].errorCode == Some(if terminal.Some? && terminal.value.FailedEvent? && terminal.value.failure.code != ""
                                    then terminal.value.failure.code else "worker_crashed"))
  {
    if cancelledByUser || SaysCancelled(terminal) {
      ErrorRow(db, id, Cancelled, CANCELLED_CODE, CANCELLED_TEXT, now);
    } else if SaysCompleted(terminal) {
      DoneRow(db, id, terminal.value.payload, now);
    } else {
      ErrorRow(db, id, JobStatus.Failed, FailureCode(terminal), FAILED_RUN_TEXT, now);
    }
  }

  lemma ErrorRow(db: Db, id: JobId, target: JobStatus, code: string, message: string, now: string)
    requires id in db && db[id].status == Processing && target in {Cancelled, JobStatus.Failed}
    ensures OrSame(db, Transition(db, id, target, ErrorNotes(code, message), now))
         == db[id := Headed(db[id], target, now).(errorCode := Some(code), errorMessage := Some(message))]
  {
    var notes := ErrorNotes(code, message);
    ApplyHeading(db[id], target, notes, now);
    ApplyAppend(db[id], Heading(Some(target), notes, now), notes);
    ApplyPair(Headed(db[id], target, now), notes[0], notes[1]);
  }

  lemma DoneRow(db: Db, id: JobId, p: Payload, now: string)
    requires id in db && db[id].status == Processing
    ensures RecordCompleted(db, id, p, now) == db[id := Headed(
      db[id].(summary := Stored(SummaryOf(p)), allowDuplicate := false),
      if p.status == CompletedWithWarnings then CompletedWithWarnings else Completed, now)]
  {
    UpdateTwo(db, id, SetSummary(SummaryOf(p)), SetAllowDuplicate(false));
    var summarised := OrSame(db, Update(db, id, SummaryColumns(SummaryOf(p))));
    DoneTransition(summarised, id, if p.status == CompletedWithWarnings then CompletedWithWarnings else Completed, now);
  }

  lemma ReadsFailure(s: Script, f: WorkerFailure, job: Job, d: Directory, parsers: Parsers)
    requires job.archiveDir.Some? && d.manifest == Some(FailureManifest(s, f))
    ensures var r := ReadFinalManifest(s.jobId, job, d, parsers);
      && r.Some? && r.value.status == JobStatus.Failed
      && r.value.errorCode == (if Blank(f.message) then None else Some(f.code))
      && r.value.errorMessage == if Blank(f.message) then None else Some(f.message)
  {
    assert |COMPLETED_TEXT| != |FAILED_TEXT| && |WARNINGS_TEXT| != |FAILED_TEXT|;
    SinglePair(f.code, f.message);
  }

  lemma SinglePair(code: string, message: string)
    ensures ErrorPairs([(code, Text(message))]) == if Blank(message) then [] else [(code, message)]
  {
    StripBlank(message);
    var errors := [(code, Text(message))];
    assert errors[1..] == [] && ErrorPairs([]) == [];
  }

  lemma FailedRow(db: Db, id: JobId, terminal: Option<Event>, now: string)
    requires id in db && db[id].status == Processing
    requires terminal.None? || terminal.value.FailedEvent?
    ensures var r := EventRoute(db, id, false, terminal, now);
      id in r && r[id].status == JobStatus.Failed && r[id].errorCode == Some(FailureCode(terminal))
  {
    var notes := ErrorNotes(FailureCode(terminal), FAILED_RUN_TEXT);
    ApplyHeading(db[id], JobStatus.Failed, notes, now);
    ApplyAppend(db[id], Heading(Some(JobStatus.Failed), notes, now), notes);
    ApplyPair(Headed(db[id], JobStatus.Failed, now), notes[0], notes[1]);
  }

  /** A first attempt, cut off anywhere: what recovery restores as completed is this run's
      completed result, with all five exports written in full. */
  lemma CrashPrefixIsSafe(s: Script, before: Option<Manifest>, job: Job, d: Directory, parsers: Parsers)
    requires job.archiveDir.Some? && Snapshot(s, before, d)
    requires ReadFinalManifest(s.jobId, job, d.(manifest := before), parsers).None?
    ensures var f := ReadFinalManifest(s.jobId, job, d, parsers);
      && (f.Some? && IsDone(f.value.status) ==> AllFull(d) && f.value.status == CompletedStatus(s) && Publishable(s, d))
      && (f.Some? && !IsDone(f.value.status) ==> f.value.status == JobStatus.Failed && WritesFailure(s))
  {
    if d.manifest != before {
      if d.manifest == Some(CompletedManifest(s)) && AllFull(d) {
        ReadsCompleted(s, job, d, parsers);
      } else {
        ReadsFailure(s, Classify(Body(s).error), job, d, parsers);
      }
    }
  }

  predicate Publishable(s: Script, d: Directory) { d.manifest == Some(CompletedManifest(s)) }

  // ----- results of an earlier attempt -----

  /** A final result of this job: its id, a done status, and the five names. */
  predicate CarriesResult(m: Option<Manifest>, id: JobId) {
    && m.Some? && m.value.jobId == Text(id) && FinalStatus(m.value.status).Some?
    && FinalStatus(m.value.status) != Some(JobStatus.Failed)
    && forall k: Kind :: k in m.value.outputs && m.value.outputs[k] == Text(FileName(k))
  }

  predicate RestoredAsDone(id: JobId, job: Job, d: Directory, parsers: Parsers) {
    var f := ReadFinalManifest(id, job, d, parsers);
    f.Some? && IsDone(f.value.status)
  }

  /** Whatever moment of the run a crash leaves on disk, what recovery takes for a completed result
      has all five exports in full. */
  ghost predicate RecoveryIsSound(s: Script, found: Directory, job: Job, parsers: Parsers) {
    forall d | d in Moments(s, found) :: RestoredAsDone(s.jobId, job, d, parsers) ==> AllFull(d)
  }

  /** Retrying does not reset the manifest. Whatever is in the directory, every run of the job that
      finds it can be recovered soundly exactly when it is not a final result of the job already. */
  lemma SoundUnlessRetried(id: JobId, found: Directory, job: Job, parsers: Parsers)
    ensures (forall s: Script :: s.jobId == id ==> RecoveryIsSound(s, found, job, parsers))
       <==> !(job.archiveDir.Some? && CarriesResult(found.manifest, id))
  {
    if job.archiveDir.Some? && CarriesResult(found.manifest, id) {
      CutShortIsUnsound(id, found, job, parsers);
      assert CutShort(id).jobId == id;
    } else {
      forall s: Script | s.jobId == id ensures RecoveryIsSound(s, found, job, parsers) {
        NothingCarried(s, found, job, parsers);
      }
    }
  }

  lemma CutShortIsUnsound(id: JobId, found: Directory, job: Job, parsers: Parsers)
    requires job.archiveDir.Some? && CarriesResult(found.manifest, id)
    ensures !RecoveryIsSound(CutShort(id), found, job, parsers)
  {
    var s := CutShort(id);
    CutShortRun(id, found.exports);
    EndIsMoment(s, found);
    var d := Directory(ExportsAfter(s, found.exports), found.manifest);
    forall k: Kind ensures k in d.exports { match k case Json => case Txt => case Srt => case Vtt => case Tsv => }
    assert d in Moments(s, found) && d.exports[Tsv] == Partial;
    CarriedIsDone(id, job, d, parsers);
  }

  lemma CarriedIsDone(id: JobId, job: Job, d: Directory, parsers: Parsers)
    requires job.archiveDir.Some? && CarriesResult(d.manifest, id) && forall k: Kind :: k in d.exports
    ensures RestoredAsDone(id, job, d, parsers)
  {
  }

  lemma NothingCarried(s: Script, found: Directory, job: Job, parsers: Parsers)
    requires !(job.archiveDir.Some? && CarriesResult(found.manifest, s.jobId))
    ensures RecoveryIsSound(s, found, job, parsers)
  {
    MomentsAreSnapshots(s, found);
    forall d | d in Moments(s, found) && RestoredAsDone(s.jobId, job, d, parsers) ensures AllFull(d) {
      if d.manifest == found.manifest {
        NotCarried(s.jobId, job, d, parsers);
      } else if !(d.manifest == Some(CompletedManifest(s)) && AllFull(d)) {
        ReadsFailure(s, Classify(Body(s).error), job, d, parsers);
      }
    }
  }

  /** The run gets as far as opening the first file it writes in place. */
  predicate OpensText(s: Script) {
    ReachesExport(s).Returns? && s.json.outcome.Returns? && s.txt.opening.Returns?
  }

  /** Run by run: a retry that finds the complete result of an earlier attempt has a moment at which
      recovery is wrong exactly when it gets as far as opening the TXT file, completed retries
      included. */
  lemma RetryIsUnsoundIff(s: Script, found: Directory, job: Job, parsers: Parsers)
    requires job.archiveDir.Some? && CarriesResult(found.manifest, s.jobId) && AllFull(found)
    ensures RecoveryIsSound(s, found, job, parsers) <==> !OpensText(s)
  {
    if OpensText(s) {
      var json := found.(exports := AfterJson(s.json, found.exports));
      var d := json.(exports := json.exports[Txt := Partial]);
      assert InPlace(s)[0] == (Txt, s.txt);
      assert d == InPlaceAllMoments(InPlace(s), json)[0];
      assert d in OutputMoments(s, found);
      assert d in Moments(s, found) && d.exports[Txt] == Partial;
      CarriedIsDone(s.jobId, job, d, parsers);
    } else {
      UnopenedStaysFull(s, found, job, parsers);
    }
  }

  lemma UnopenedStaysFull(s: Script, found: Directory, job: Job, parsers: Parsers)
    requires job.archiveDir.Some? && AllFull(found) && !OpensText(s)
    ensures RecoveryIsSound(s, found, job, parsers)
  {
    MomentsAreSnapshots(s, found);
    assert InPlace(s)[0] == (Txt, s.txt);
    FirstOfTwo(s.txt.opening, s.txt.writing);
    forall d | d in ExportMoments(s, found) ensures AllFull(d) {}
    if Publishes(s) { PublishedIsFull(s, found.exports); }
    FailuresAreNotDone(s, found, job, parsers);
  }

  lemma FailuresAreNotDone(s: Script, found: Directory, job: Job, parsers: Parsers)
    requires job.archiveDir.Some?
    ensures forall d | d in FailureMoments(s, found) :: !RestoredAsDone(s.jobId, job, d, parsers)
  {
    forall d | d in FailureMoments(s, found) ensures !RestoredAsDone(s.jobId, job, d, parsers) {
      ReadsFailure(s, Classify(Body(s).error), job, d, parsers);
    }
  }

  lemma NotCarried(id: JobId, job: Job, d: Directory, parsers: Parsers)
    requires !(job.archiveDir.Some? && CarriesResult(d.manifest, id))
    ensures !RestoredAsDone(id, job, d, parsers)
  {
  }

  /** The directory a first, completing run leaves. */
  function Finished(): Directory {
    var s := Quick(DONE, DONE);
    Directory(ExportsAfter(s, map[]), FinalManifest(s, None))
  }

  /** And what a second run makes of it that is interrupted while it writes the TXT file. */
  function Overwritten(): Directory {
    var s := Quick(Interrupts, DONE);
    Directory(ExportsAfter(s, Finished().exports), FinalManifest(s, Finished().manifest))
  }

  /** The row is cancelled although its run had completed, retried, and claimed again. */
  function CancelledAndClaimed(db: Db, id: JobId, terminal: Option<Event>, at: string): Db {
    var cancelled := EventRoute(db, id, true, terminal, at);
    Claim(OrSame(cancelled, Retry(cancelled, id, false, at)), at).0
  }

  predicate RowRestoredAsDone(db: Db, id: JobId, d: Directory, parsers: Parsers, at: string) {
    && id in db && db[id].status == Processing && id in ManifestRoute(db, id, d, parsers, at)
    && IsDone(ManifestRoute(db, id, d, parsers, at)[id].status)
  }

  /** The failing case, step by step. A run completes and publishes its result, but the row is
      cancelled; it is retried and claimed again; the second run is interrupted while it overwrites
      the TXT file. Recovery then restores the first result beside a truncated export. */
  lemma RetryRestoresStaleResult(db: Db, parsers: Parsers, at: string)
    requires "0" in db && db["0"].status == Processing && db["0"].archiveDir.Some?
    requires forall j | j in db :: j != "0" ==> db[j].status !in {Processing, Queued}
    ensures AllFull(Finished()) && Txt in Overwritten().exports && Overwritten().exports[Txt] == Partial
    ensures RowRestoredAsDone(CancelledAndClaimed(db, "0", Some(CompletedEvent(PayloadOf(Quick(DONE, DONE)))), at), "0",
                              Overwritten(), parsers, at)
  {
    FinishedIsFull();
    OverwrittenIsStale();
    var terminal := Some(CompletedEvent(PayloadOf(Quick(DONE, DONE))));
    ClaimedAgain(db, "0", terminal, at);
    var again := CancelledAndClaimed(db, "0", terminal, at);
    StaleRead(Quick(DONE, DONE), Overwritten(), again["0"], parsers);
    RestoreEffect(again, "0", ReadFinalManifest("0", again["0"], Overwritten(), parsers).value, at);
  }

  lemma FinishedIsFull()
    ensures AllFull(Finished()) && Finished().manifest == Some(CompletedManifest(Quick(DONE, DONE)))
  {
    QuickRun(DONE, DONE);
    FirstOfBody(Quick(DONE, DONE));
    OutputsInOrder(Quick(DONE, DONE), map[]);
  }

  lemma OverwrittenIsStale()
    ensures Overwritten().manifest == Finished().manifest
    ensures forall k: Kind :: k in Overwritten().exports
    ensures Overwritten().exports[Txt] == Partial
  {
    FinishedIsFull();
    QuickRun(Interrupts, DONE);
    FirstOfBody(Quick(Interrupts, DONE));
    InterruptedTxt(Quick(Interrupts, DONE), Finished().exports);
  }

  lemma InterruptedTxt(s: Script, files: WorkerRun.Files)
    requires s == Quick(Interrupts, DONE) && forall k: Kind :: k in files
    ensures var after := ExportsAfter(s, files);
      after == files[Json := Full][Txt := Partial]
  {
    QuickRun(Interrupts, DONE);
    FirstOfTwo(DONE, Interrupts);
    assert InPlace(s)[0] == (Txt, s.txt);
  }

  lemma ClaimedAgain(db: Db, id: JobId, terminal: Option<Event>, at: string)
    requires id in db && db[id].status == Processing && db[id].archiveDir.Some?
    requires forall j | j in db :: j != id ==> db[j].status !in {Processing, Queued}
    ensures var again := CancelledAndClaimed(db, id, terminal, at);
      id in again && again[id].status == Processing && again[id].archiveDir.Some?
  {
    var cancelled := EventRoute(db, id, true, terminal, at);
    TransitionEffect(db, id, Cancelled, ErrorNotes(CANCELLED_CODE, CANCELLED_TEXT), at);
    var queued := OrSame(cancelled, Retry(cancelled, id, false, at));
    ClaimEffect(queued, at);
    assert WithStatus(queued, Processing) == {} && WithStatus(queued, Queued) == {id};
  }

  /** The manifest of the first run is read as done wherever the five files are, in full or not. */
  lemma StaleRead(s: Script, d: Directory, job: Job, parsers: Parsers)
    requires job.archiveDir.Some? && d.manifest == Some(CompletedManifest(s)) && forall k: Kind :: k in d.exports
    ensures RestoredAsDone(s.jobId, job, d, parsers)
  {
    CompletedStatusText(s);
    forall k: Kind ensures k in ALL_OUTPUTS && ALL_OUTPUTS[k] == Text(FileName(k)) { EveryKind(k); }
  }

  /** Whatever else is on disk, recovery calls a job done only on a manifest of that job which says
      so, names the five exports, and has them all beside it. */
  lemma DoneNeedsEvidence(db: Db, id: JobId, d: Directory, parsers: Parsers, now: string)
    requires id in db && db[id].status == Processing
    ensures var r := ManifestRoute(db, id, d, parsers, now);
      id in r && (IsDone(r[id].status) <==>
        && db[id].archiveDir.Some? && d.manifest.Some? && d.manifest.value.jobId == Text(id)
        && d.manifest.value.status in {Text(COMPLETED_TEXT), Text(WARNINGS_TEXT)}
        && forall k: Kind :: k in d.exports && k in d.manifest.value.outputs && d.manifest.value.outputs[k] == Text(FileName(k)))
  {
    var final := ReadFinalManifest(id, db[id], d, parsers);
    assert |COMPLETED_TEXT| != |WARNINGS_TEXT|;
    if final.Some? { RestoreEffect(db, id, final.value, now); }
  }
}
