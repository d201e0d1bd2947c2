/** `QueueService`: one reconciliation pass over a waiting row, the import it may lead to,
    retry, and the recovery of imports that a crash interrupted. */
module QueueService {
  import opened Models
  import opened Database
  import opened ImportProtocol
  import opened ImportSafety
  import opened ImportHost
  import opened Archive
  import opened Stability

  datatype Report = Report(queued: nat, duplicates: nat, failed: nat)

  const NO_REPORT := Report(0, 0, 0)

  /** The row's archive columns name a published original, which the result describes. */
  predicate Describes(s: State, j: JobId, i: Imported) {
    && j in s.jobs && s.jobs[j].archivedMedia == Some(i.media) && i.media.ArchiveFile?
    && i.media in s.files && s.files[i.media] == i.sha && i.size == |i.sha|
  }

  /** A row that has left its import with its recording archived and its hash recorded. */
  predicate ImportedRow(s: State, j: JobId, sha: Bytes) {
    && j in s.jobs && s.jobs[j].status in {Queued, Duplicate} && s.jobs[j].sourceSha == Some(sha)
    && s.jobs[j].archivedMedia.Some? && s.jobs[j].archivedMedia.value in s.files
    && s.files[s.jobs[j].archivedMedia.value] == sha
  }

  /** A verified result describes the row it was read from. */
  lemma VerifiedDescribes(s: State, j: JobId)
    requires j in s.jobs && VerifiedMedia(s.jobs[j], s.files).Some?
    ensures Describes(s, j, VerifiedMedia(s.jobs[j], s.files).value)
  {
  }

  lemma StillDescribes(s: State, t: State, j: JobId, i: Imported)
    requires Describes(s, j, i) && Undisturbed(s, t, j)
    ensures Describes(t, j, i)
  {
    assert Protected(s, j, i.media);
  }

  ghost predicate OthersUnchanged(s: State, t: State, j: JobId) {
    t.jobs.Keys == s.jobs.Keys && forall k | k in s.jobs && k != j :: t.jobs[k] == s.jobs[k]
  }

  /** How many of its transactions a finishing import gets through before one raises, whether the
      Inbox in use is another folder than the built-in one, and whether removing the source raises. */
  datatype Trouble = Trouble(stop: nat, elsewhere: bool, unlinkRaises: bool)

  /** Archive columns, hash, look and final status. */
  predicate Finishes(stop: nat) { stop >= 4 }

  /** A completed job has the same bytes, and reprocessing a manual file was not asked for. */
  predicate SetAside(db: Db, row: Job, sha: Bytes) {
    DoneWith(db, sha) != {} && (row.origin == Inbox || !row.allowDuplicate)
  }

  /** Some job with these bytes has been transcribed. */
  predicate Transcribed(db: Db, sha: Bytes) {
    exists k :: k in db && db[k].sourceSha == Some(sha) && db[k].status in {Completed, CompletedWithWarnings}
  }

  /** The row was read when its hash was written, the completed jobs were looked up later. It is set
      aside exactly when one of them has its bytes, unless it is a manual one to be reprocessed. */
  ghost predicate FoundOut(states: seq<State>, hashed: nat, looked: nat, after: State, j: JobId, sha: Bytes) {
    && hashed <= looked < |states| && j in states[hashed].jobs && j in after.jobs
    && (after.jobs[j].status == Duplicate <==>
          Transcribed(states[looked].jobs, sha) && !(states[hashed].jobs[j].origin == Manual && states[hashed].jobs[j].allowDuplicate))
  }

  lemma SetAsideIfTranscribed(db: Db, row: Job, sha: Bytes)
    ensures SetAside(db, row, sha) <==> Transcribed(db, sha) && !(row.origin == Manual && row.allowDuplicate)
  {
    if k :| k in db && db[k].sourceSha == Some(sha) && db[k].status in {Completed, CompletedWithWarnings} {
      assert k in DoneWith(db, sha);
    }
  }

  /** Position `at` of a log is the state in which the row read `row`. */
  ghost predicate ReadAt(states: seq<State>, at: nat, j: JobId, row: Job) {
    at < |states| && j in states[at].jobs && states[at].jobs[j] == row
  }

  lemma StillRead(seen: seq<State>, states: seq<State>, at: nat, j: JobId, row: Job)
    requires ReadAt(seen, at, j, row) && seen <= states
    ensures ReadAt(states, at, j, row)
  {
    assert states[at] == seen[at];
  }

  /** The source of an Inbox job is still there with the verified bytes. */
  predicate Removable(s: State, j: JobId, sha: Bytes)
    requires j in s.jobs
  {
    var source := s.jobs[j].sourcePath;
    s.jobs[j].origin == Inbox && source.InboxFile? && source in s.files && s.files[source] == sha
  }

  function Counted(st: JobStatus): Report { if st == Duplicate then Report(0, 1, 0) else Report(1, 0, 0) }

  /** The import of row j has gone on: nothing it relies on has changed. */
  ghost predicate Onward(s: State, t: State, j: JobId) {
    && t.active == s.active && t.log == s.log && FilesKept(s, t, j) && j in s.jobs && j in t.jobs
    && t.jobs[j].origin == s.jobs[j].origin && t.jobs[j].sourcePath == s.jobs[j].sourcePath
  }

  lemma OnwardTogether(s: State, t: State, u: State, j: JobId)
    requires Onward(s, t, j) && Onward(t, u, j)
    ensures Onward(s, u, j)
  {
    forall p: Path ensures Protected(s, j, p) <==> Protected(t, j, p) {}
  }

  /** An accepted recording after its import: at its source (a manual one always) or published. */
  ghost predicate Safe(s: State, j: JobId, a: Acceptance) {
    && a in s.log && a.job == j && j in s.jobs && s.jobs[j].sourcePath == a.source && IsTarget(a.target)
    && (SourceIntact(s, a) || Published(s, a)) && (s.jobs[j].origin == Manual ==> SourceIntact(s, a))
  }

  lemma StillSafe(s: State, t: State, j: JobId, a: Acceptance)
    requires Safe(s, j, a) && Working(s, j) && Onward(s, t, j)
    ensures Safe(t, j, a)
  {
    assert Protected(s, j, a.source) && Protected(s, j, a.target);
  }

  /** How the import of a stable row ends. Without a report it has raised: no handler catches a
      database error, so the row is left importing, its recording archived. */
  ghost predicate ImportEnded(s: State, j: JobId, r: Option<Report>, accepted: Option<Acceptance>) {
    && j in s.jobs && (accepted.Some? ==> Safe(s, j, accepted.value))
    && match r
       case None => s.jobs[j].status == Importing && Archived(s, j) && accepted.Some?
       case Some(n) =>
         && n.queued + n.duplicates + n.failed == 1 && (n.failed == 1 ==> s.jobs[j].status == Failed)
         && (n.queued == 1 ==> s.jobs[j].status == Queued) && (n.duplicates == 1 ==> s.jobs[j].status == Duplicate)
         && (n.failed == 0 ==> s.jobs[j].status in {Queued, Duplicate} && Archived(s, j) && accepted.Some?)
  }

  /** Recording the intent leaves the recording at its source and nothing published. */
  lemma IntendedIsPoised(before: State, mid: State, after: State, j: JobId, dir: string)
    requires Inv(before) && ImportEnabled(before, Intend(j, dir)) && mid == DoImport(before, Intend(j, dir))
    requires Undisturbed(mid, after, j)
    ensures var a := Accepted(before, j, dir);
      Poised(after, a) && HasStatus(after, j, Importing) && after.jobs[j].archivedMedia == Some(a.target)
  {
    var a := Accepted(before, j, dir);
    IntendEffect(before, j, dir);
    assert RowInv(before, j);
    assert Protected(mid, j, a.target) && Protected(mid, j, a.source);
  }

  class QueueService {
    const host: Host
    const archive: ArchiveManager

    constructor (host: Host)
      ensures this.host == host && archive.host == host
    {
      this.host := host;
      archive := new ArchiveManager(host);
    }

    method RecordStep(step: ImportStep, i: Imported) returns (row: Job, ghost at: nat)
      requires host.Valid() && Enabled(host.s, Import(step)) && (step.RecordArchive? || step.RecordHash?)
      requires Describes(host.s, step.job, i)
      modifies host
      ensures host.Valid() && old(host.states) <= host.states && Describes(host.s, step.job, i)
      ensures Onward(old(host.s), host.s, step.job) && OthersUnchanged(old(host.s), host.s, step.job)
      ensures HasStatus(host.s, step.job, Importing)
      ensures host.s.jobs[step.job].sourceSha
           == if step.RecordHash? then Some(i.sha) else old(host.s).jobs[step.job].sourceSha
      ensures ReadAt(host.states, at, step.job, row)
    {
      RecordEffect(host.s, step);
      host.Take(Import(step));
      row, at := host.s.jobs[step.job], |host.states| - 1;
    }

    /** Others act while row j is at rest between two transactions of its import. */
    method Rest(j: JobId, i: Imported, usersOnly: bool)
      requires host.Valid() && Working(host.s, j) && HasStatus(host.s, j, Importing) && Describes(host.s, j, i)
      modifies host
      ensures host.Valid() && old(host.states) <= host.states && Describes(host.s, j, i)
      ensures Onward(old(host.s), host.s, j) && HasStatus(host.s, j, Importing)
      ensures host.s.jobs[j].sourceSha == old(host.s).jobs[j].sourceSha
      ensures usersOnly ==> host.s.jobs == old(host.s).jobs
    {
      ghost var mid := host.s;
      host.OthersAct(j, usersOnly);
      StillDescribes(mid, host.s, j, i);
    }

    method Record(step: ImportStep, i: Imported, usersOnly: bool) returns (row: Job, ghost at: nat)
      requires host.Valid() && Enabled(host.s, Import(step)) && (step.RecordArchive? || step.RecordHash?)
      requires Describes(host.s, step.job, i)
      modifies host
      ensures host.Valid() && old(host.states) <= host.states && Describes(host.s, step.job, i)
      ensures Onward(old(host.s), host.s, step.job) && HasStatus(host.s, step.job, Importing)
      ensures host.s.jobs[step.job].sourceSha
           == if step.RecordHash? then Some(i.sha) else old(host.s).jobs[step.job].sourceSha
      ensures usersOnly ==> OthersUnchanged(old(host.s), host.s, step.job)
      ensures ReadAt(host.states, at, step.job, row)
    {
      ghost var before := host.s;
      row, at := RecordStep(step, i);
      ghost var mid, seen := host.s, host.states;
      Rest(step.job, i, usersOnly);
      StillRead(seen, host.states, at, step.job, row);
      OnwardTogether(before, mid, host.s, step.job);
    }

    /** `_finish_import`: the archive columns, the hash, a look for a completed job with the same
        bytes, then QUEUED, or DUPLICATE when there is one and no reprocessing of a manual file was
        asked for. Each is a transaction of its own, and `stop` says how many go through before
        one raises. `hashed` and `looked` are the positions in the log at which the hash was written
        and the look was taken. */
    method FinishImport(j: JobId, i: Imported, notes: seq<Assign>, at: string, usersOnly: bool, stop: nat)
      returns (r: Option<Report>, ghost hashed: nat, ghost looked: nat)
      requires host.Valid() && Working(host.s, j) && HasStatus(host.s, j, Importing) && Describes(host.s, j, i)
      requires All(Note, notes)
      modifies host
      ensures host.Valid() && old(host.states) <= host.states && Onward(old(host.s), host.s, j)
      ensures r.Some? <==> stop >= 4
      ensures r.None? ==> HasStatus(host.s, j, Importing) && Describes(host.s, j, i)
      ensures r.Some? ==> ImportedRow(host.s, j, i.sha) && host.s.jobs[j].archivedMedia == Some(i.media)
      ensures r.Some? ==> FoundOut(host.states, hashed, looked, host.s, j, i.sha)
      ensures r.Some? ==> r == Some(Counted(host.s.jobs[j].status))
      ensures usersOnly ==> OthersUnchanged(old(host.s), host.s, j)
    {
      r, looked := None, 0;
      ghost var before := host.s;
      var ok, row;
      ok, row, hashed := RecordBoth(j, i, usersOnly, stop);
      if ok {
        ghost var mid := host.s;
        r, looked := LookAndSettle(j, i, row, hashed, notes, at, usersOnly, stop);
        OnwardTogether(before, mid, host.s, j);
      }
    }

    method RecordBoth(j: JobId, i: Imported, usersOnly: bool, stop: nat)
      returns (ok: bool, row: Job, ghost hashed: nat)
      requires host.Valid() && Working(host.s, j) && HasStatus(host.s, j, Importing) && Describes(host.s, j, i)
      modifies host
      ensures host.Valid() && old(host.states) <= host.states && Onward(old(host.s), host.s, j)
      ensures ok <==> stop >= 2
      ensures Describes(host.s, j, i) && HasStatus(host.s, j, Importing)
      ensures ok ==> host.s.jobs[j].sourceSha == Some(i.sha) && ReadAt(host.states, hashed, j, row)
      ensures usersOnly ==> OthersUnchanged(old(host.s), host.s, j)
    {
      ghost var before := host.s;
      ok, row, hashed := stop >= 2, host.s.jobs[j], 0;
      if stop >= 1 {
        row, hashed := Record(RecordArchive(j), i, usersOnly);
      }
      if ok {
        ghost var archived := host.s;
        row, hashed := Record(RecordHash(j), i, usersOnly);
        OnwardTogether(before, archived, host.s, j);
      }
    }

    method LookAndSettle(j: JobId, i: Imported, row: Job, ghost hashed: nat, notes: seq<Assign>, at: string,
                         usersOnly: bool, stop: nat)
      returns (r: Option<Report>, ghost looked: nat)
      requires host.Valid() && Working(host.s, j) && HasStatus(host.s, j, Importing) && Describes(host.s, j, i)
      requires host.s.jobs[j].sourceSha == Some(i.sha) && All(Note, notes) && ReadAt(host.states, hashed, j, row)
      modifies host
      ensures host.Valid() && old(host.states) <= host.states && Onward(old(host.s), host.s, j)
      ensures r.Some? <==> Finishes(stop)
      ensures r.None? ==> HasStatus(host.s, j, Importing) && Describes(host.s, j, i)
      ensures r.Some? ==> ImportedRow(host.s, j, i.sha) && host.s.jobs[j].archivedMedia == Some(i.media)
      ensures r.Some? ==> FoundOut(host.states, hashed, looked, host.s, j, i.sha)
      ensures r.Some? ==> r == Some(Counted(host.s.jobs[j].status))
      ensures usersOnly ==> OthersUnchanged(old(host.s), host.s, j)
    {
      ghost var before := host.s;
      var duplicate := SetAside(host.s.jobs, row, i.sha);
      SetAsideIfTranscribed(host.s.jobs, row, i.sha);
      looked := |host.states| - 1;
      ghost var seen := host.states;
      Rest(j, i, usersOnly);
      ghost var rested := host.s;
      if !Finishes(stop) { return None, looked; }
      SettleImport(j, i, if duplicate then Duplicate else Queued, notes, at);
      OnwardTogether(before, rested, host.s, j);
      assert host.states[looked] == seen[looked] && host.states[hashed] == seen[hashed];
      r := Some(if duplicate then Report(0, 1, 0) else Report(1, 0, 0));
    }

    method SettleImport(j: JobId, i: Imported, target: JobStatus, notes: seq<Assign>, at: string)
      requires host.Valid() && Working(host.s, j) && HasStatus(host.s, j, Importing) && Describes(host.s, j, i)
      requires host.s.jobs[j].sourceSha == Some(i.sha) && All(Note, notes) && target in {Queued, Duplicate}
      modifies host
      ensures host.Valid() && old(host.states) <= host.states && Onward(old(host.s), host.s, j)
      ensures ImportedRow(host.s, j, i.sha) && HasStatus(host.s, j, target) && host.s.jobs[j].archivedMedia == Some(i.media)
      ensures OthersUnchanged(old(host.s), host.s, j)
    {
      SettleEffect(host.s, j, target, notes, at);
      host.Take(Table(Settle(j, target, notes, at)));
    }

    /** The part of the pass that imports a stable row. `accepted` is the recording the program has
        taken on, if it got that far: whatever failed, it is intact at its source (a manual one
        always) or published. */
    method ImportStable(j: JobId, base: string, mkdirRaises: bool, f: Faults, notes: seq<Assign>, at: string, stop: nat)
      returns (r: Option<Report>, ghost accepted: Option<Acceptance>)
      requires host.Valid() && host.s.active == None && HasStatus(host.s, j, WaitingForStable)
      requires archive.host == host && All(Note, notes)
      modifies host
      ensures host.Valid() && old(host.states) <= host.states && host.s.active == None
      ensures Finishes(stop) ==> r.Some?
      ensures ImportEnded(host.s, j, r, accepted)
      ensures accepted.None? ==> host.s.log == old(host.s).log
    {
      var imported;
      imported, accepted := TakeIn(j, base, mkdirRaises, f, at);
      r := EndImport(j, imported, notes, at, stop, accepted);
    }

    /** The row starts importing, and its recording is brought in. */
    method TakeIn(j: JobId, base: string, mkdirRaises: bool, f: Faults, at: string)
      returns (imported: Option<Imported>, ghost accepted: Option<Acceptance>)
      requires host.Valid() && host.s.active == None && HasStatus(host.s, j, WaitingForStable) && archive.host == host
      modifies host
      ensures host.Valid() && old(host.states) <= host.states
      ensures Working(host.s, j) && HasStatus(host.s, j, Importing)
      ensures imported.Some? ==> Describes(host.s, j, imported.value) && accepted.Some?
      ensures accepted.Some? ==> Safe(host.s, j, accepted.value)
      ensures accepted.None? ==> host.s.log == old(host.s).log
    {
      StartImport(j, at);
      imported, accepted := BringIn(j, base, mkdirRaises, f);
    }

    /** A fresh directory, then the import into it. */
    method BringIn(j: JobId, base: string, mkdirRaises: bool, f: Faults)
      returns (imported: Option<Imported>, ghost accepted: Option<Acceptance>)
      requires host.Valid() && host.s.active == Some(Active(j, false, None)) && HasStatus(host.s, j, Importing)
      requires archive.host == host
      modifies host
      ensures host.Valid() && old(host.states) <= host.states
      ensures Working(host.s, j) && HasStatus(host.s, j, Importing)
      ensures imported.Some? ==> Describes(host.s, j, imported.value) && accepted.Some?
      ensures accepted.Some? ==> Safe(host.s, j, accepted.value)
      ensures accepted.None? ==> host.s.log == old(host.s).log
    {
      imported, accepted := None, None;
      if !mkdirRaises {
        var dir := archive.CreateJobDirectory(base);
        // the size is read from the source just before the intent is recorded
        if host.s.jobs[j].sourcePath in host.s.files {
          imported, accepted := ImportInto(j, dir, f);
        }
      }
    }

    method StartImport(j: JobId, at: string)
      requires host.Valid() && host.s.active == None && HasStatus(host.s, j, WaitingForStable)
      modifies host
      ensures host.Valid() && old(host.states) <= host.states
      ensures host.s.active == Some(Active(j, false, None)) && HasStatus(host.s, j, Importing)
      ensures host.s.log == old(host.s).log
    {
      BeginEffect(host.s, j, at);
      host.Take(Import(Begin(j, at)));
      host.OthersAct(j, false);
    }

    method EndImport(j: JobId, imported: Option<Imported>, notes: seq<Assign>, at: string, stop: nat,
                     ghost accepted: Option<Acceptance>)
      returns (r: Option<Report>)
      requires host.Valid() && Working(host.s, j) && HasStatus(host.s, j, Importing) && All(Note, notes)
      requires imported.Some? ==> Describes(host.s, j, imported.value) && accepted.Some?
      requires accepted.Some? ==> Safe(host.s, j, accepted.value)
      modifies host
      ensures host.Valid() && old(host.states) <= host.states && host.s.active == None
      ensures r.None? <==> imported.Some? && !Finishes(stop)
      ensures r.Some? ==> (r.value.failed == 1 <==> imported.None?)
      ensures ImportEnded(host.s, j, r, accepted) && host.s.log == old(host.s).log
    {
      r := FinishOrFail(j, imported, notes, at, stop, accepted);
      host.Take(Control(Done));
    }

    method FinishOrFail(j: JobId, imported: Option<Imported>, notes: seq<Assign>, at: string, stop: nat,
                        ghost accepted: Option<Acceptance>)
      returns (r: Option<Report>)
      requires host.Valid() && Working(host.s, j) && HasStatus(host.s, j, Importing) && All(Note, notes)
      requires imported.Some? ==> Describes(host.s, j, imported.value) && accepted.Some?
      requires accepted.Some? ==> Safe(host.s, j, accepted.value)
      modifies host
      ensures host.Valid() && old(host.states) <= host.states && Working(host.s, j)
      ensures r.None? <==> imported.Some? && !Finishes(stop)
      ensures r.Some? ==> (r.value.failed == 1 <==> imported.None?)
      ensures ImportEnded(host.s, j, r, accepted) && host.s.log == old(host.s).log
    {
      if imported.Some? {
        r := FinishStable(j, imported.value, notes, at, stop, accepted.value);
      } else {
        FailStable(j, notes, at, accepted);
        r := Some(Report(0, 0, 1));
      }
    }

    method FailStable(j: JobId, notes: seq<Assign>, at: string, ghost accepted: Option<Acceptance>)
      requires host.Valid() && HasStatus(host.s, j, Importing) && All(Note, notes)
      requires accepted.Some? ==> Safe(host.s, j, accepted.value)
      modifies host
      ensures host.Valid() && old(host.states) <= host.states && HasStatus(host.s, j, Failed)
      ensures host.s == old(host.s).(jobs := host.s.jobs)
      ensures accepted.Some? ==> Safe(host.s, j, accepted.value)
    {
      FailRow(j, Failed, notes, at);
    }

    /** Finishes an import that brought its recording in. */
    method FinishStable(j: JobId, i: Imported, notes: seq<Assign>, at: string, stop: nat, ghost a: Acceptance)
      returns (r: Option<Report>)
      requires host.Valid() && Working(host.s, j) && HasStatus(host.s, j, Importing) && All(Note, notes)
      requires Describes(host.s, j, i) && Safe(host.s, j, a)
      modifies host
      ensures host.Valid() && old(host.states) <= host.states && Working(host.s, j)
      ensures r.Some? <==> Finishes(stop)
      ensures r.Some? ==> r.value.failed == 0
      ensures ImportEnded(host.s, j, r, Some(a)) && host.s.log == old(host.s).log
    {
      ghost var before := host.s;
      ghost var hashed, looked;
      r, hashed, looked := FinishImport(j, i, notes, at, false, stop);
      StillSafe(before, host.s, j, a);
    }

    method FailRow(j: JobId, target: JobStatus, notes: seq<Assign>, at: string)
      requires host.Valid() && HasStatus(host.s, j, Importing) && target in {Failed, Interrupted} && All(Note, notes)
      modifies host
      ensures host.Valid() && old(host.states) <= host.states && HasStatus(host.s, j, target)
      ensures host.s == old(host.s).(jobs := host.s.jobs) && OthersUnchanged(old(host.s), host.s, j)
      ensures host.s.jobs[j].origin == old(host.s).jobs[j].origin && host.s.jobs[j].sourcePath == old(host.s).jobs[j].sourcePath
    {
      FailEffect(host.s, j, target, notes, at);
      host.Take(Table(FailImport(j, target, notes, at)));
    }

    /** Records the intent and runs the import that fits the origin. */
    method ImportInto(j: JobId, dir: string, f: Faults) returns (imported: Option<Imported>, ghost accepted: Option<Acceptance>)
      requires host.Valid() && ImportEnabled(host.s, Intend(j, dir)) && archive.host == host
      modifies host
      ensures host.Valid() && old(host.states) <= host.states
      ensures Working(host.s, j) && HasStatus(host.s, j, Importing)
      ensures accepted == Some(old(Accepted(host.s, j, dir))) && Safe(host.s, j, accepted.value)
      ensures imported.Some? ==> Published(host.s, accepted.value) && Describes(host.s, j, imported.value)
      ensures imported.Some? ==> imported.value == ImportedFrom(accepted.value)
    {
      var a := RecordIntent(j, dir);
      accepted := Some(a);
      if host.s.jobs[j].origin == Inbox {
        imported := archive.ImportInbox(a, f);
      } else {
        imported := archive.CopyManual(a, f);
      }
    }

    /** The acceptance is durable before any byte moves. */
    method RecordIntent(j: JobId, dir: string) returns (a: Acceptance)
      requires host.Valid() && ImportEnabled(host.s, Intend(j, dir))
      modifies host
      ensures host.Valid() && old(host.states) <= host.states
      ensures a == old(Accepted(host.s, j, dir)) && a.job == j && Poised(host.s, a)
      ensures var (before, source) := (old(host.s), old(host.s).jobs[j].sourcePath);
        && a.source == source && a.bytes == before.files[source] && a.target.dir == dir
        && (source.InboxFile? ==> a.target.slot == Original(source.name))
        && (source.ExternalFile? ==> a.target.slot == Original(source.location))
      ensures HasStatus(host.s, j, Importing) && host.s.jobs[j].archivedMedia == Some(a.target)
    {
      a := Accepted(host.s, j, dir);
      ghost var before := host.s;
      host.Take(Import(Intend(j, dir)));
      ghost var mid := host.s;
      host.OthersAct(j, false);
      IntendedIsPoised(before, mid, host.s, j, dir);
    }

    /** One reconciliation pass over one waiting row; without a report it has raised. */
    method AdvanceWaitingJob(j: JobId, p: Pass, base: string, mkdirRaises: bool, f: Faults, notes: seq<Assign>, at: string,
                             stop: nat)
      returns (r: Option<Report>, ghost accepted: Option<Acceptance>)
      requires host.Valid() && host.s.active == None && HasStatus(host.s, j, WaitingForStable)
      requires archive.host == host && All(Note, notes)
      modifies host
      ensures host.Valid() && old(host.states) <= host.states && host.s.active == None && j in host.s.jobs
      ensures Finishes(stop) ==> r.Some?
      ensures Gone(p) ==> host.s.jobs[j].status == Failed && r == Some(Report(0, 0, 1))
      ensures Barred(p) ==> host.s.jobs[j].status == Cancelled && r == Some(Report(0, 0, 1))
      ensures accepted.None? ==> host.s.log == old(host.s).log
      ensures var seen := old(host.s).jobs[j].observation;
        if HeldStill(p, seen) && p.opens && p.probes then ImportEnded(host.s, j, r, accepted)
        else
          && host.s.files == old(host.s).files && accepted.None?
          && (Gone(p) || Barred(p) || (host.s.jobs[j].status == WaitingForStable && r == Some(NO_REPORT)))
          && host.s.jobs[j].observation == if New(p, seen) then Some(Observation(p.stat.size, p.stat.mtime, p.now)) else seen
    {
      VerdictsExactly(p, host.s.jobs[j].observation);
      var a := Assess(p, host.s.jobs[j].observation);
      if a.observation.Some? {
        Observe(j, a.observation.value);
      }
      r, accepted := Some(NO_REPORT), None;
      if a.state == Stable {
        r, accepted := ImportStable(j, base, mkdirRaises, f, notes, at, stop);
      } else if a.state == Missing {
        r := DropRow(j, Failed, notes, at);
      } else if a.state == Ineligible {
        r := DropRow(j, Cancelled, notes, at);
      }
    }

    method Observe(j: JobId, o: Observation)
      requires host.Valid() && j in host.s.jobs
      modifies host
      ensures host.Valid() && old(host.states) <= host.states
      ensures host.s == old(host.s).(jobs := old(host.s).jobs[j := old(host.s).jobs[j].(observation := Some(o))])
    {
      ObserveEffect(host.s, j, o);
      host.Take(Table(Annotate(j, [SetObservation(o)])));
    }

    method DropRow(j: JobId, target: JobStatus, notes: seq<Assign>, at: string) returns (r: Option<Report>)
      requires host.Valid() && HasStatus(host.s, j, WaitingForStable) && target in {Failed, Cancelled} && All(Note, notes)
      modifies host
      ensures host.Valid() && old(host.states) <= host.states && HasStatus(host.s, j, target)
      ensures host.s.active == old(host.s).active && host.s.files == old(host.s).files
      ensures host.s.jobs[j].observation == old(host.s).jobs[j].observation
      ensures host.s.log == old(host.s).log && r == Some(Report(0, 0, 1))
    {
      DropEffect(host.s, j, target, notes, at);
      host.Take(Table(Drop(j, target, notes, at)));
      r := Some(Report(0, 0, 1));
    }

    /** A retry queues the row at once only when its archived original verifies; otherwise the
        row waits for a new import. */
    method RetryJob(j: JobId, at: string) returns (ok: bool)
      requires host.Valid()
      modifies host
      ensures host.Valid() && old(host.states) <= host.states
      ensures ok <==> j in old(host.s).jobs && Retryable(old(host.s).jobs[j].status)
      ensures !ok ==> host.s == old(host.s)
      ensures ok ==> j in host.s.jobs
      ensures ok ==>
        host.s.jobs[j].status == if Authentic(old(host.s).jobs[j], old(host.s).files) then Queued else WaitingForStable
      ensures ok ==> host.s.jobs[j].retryCount == old(host.s).jobs[j].retryCount + 1 && host.s.jobs[j].workerPid == None
      ensures ok ==> OthersUnchanged(old(host.s), host.s, j) && host.s.files == old(host.s).files
    {
      if j !in host.s.jobs || !Retryable(host.s.jobs[j].status) {
        return false;
      }
      VerifiedIsAuthentic(host.s.jobs[j], host.s.files);
      host.Take(Table(TableStep.RetryJob(j, at)));
      ok := true;
    }

    /** `_remove_verified_inbox_source`: finishes a copy that was interrupted before its unlink, for
        sources in the built-in Inbox only. */
    method RemoveVerifiedInboxSource(j: JobId, sha: Bytes, trouble: Trouble)
      requires host.Valid() && Working(host.s, j) && ImportedRow(host.s, j, sha)
      modifies host
      ensures host.Valid() && old(host.states) <= host.states
      ensures host.s.jobs == old(host.s).jobs && host.s.active == old(host.s).active && host.s.log == old(host.s).log
      ensures ImportedRow(host.s, j, sha)
      ensures var (before, source) := (old(host.s), old(host.s).jobs[j].sourcePath);
        host.s.files == if before.jobs[j].origin == Inbox && source.InboxFile? && !trouble.elsewhere && !trouble.unlinkRaises
                           && source in before.files && before.files[source] == sha
                        then before.files - {source} else before.files
    {
      if Removable(host.s, j, sha) && !trouble.elsewhere && !trouble.unlinkRaises {
        assert RowInv(host.s, j);
        var media := host.s.jobs[j].archivedMedia.value;
        assert InLog(host.s, j, media);
        var a :| a in host.s.log && a.job == j && a.target == media;
        host.Take(File(RemoveSource(a)));
      }
    }

    /** Restart: each importing row is decided on its own evidence, in whatever state the crash
        left it. A row that cannot be finished ends the recovery, and the start with it. */
    method RecoverImportingJobs(notes: seq<Assign>, at: string, trouble: JobId -> Trouble)
      returns (count: Option<nat>, ghost how: Recovery)
      requires host.Valid() && host.s.active == None && All(Note, notes)
      modifies host
      ensures host.Valid() && old(host.states) <= host.states && host.s.active == None
      ensures count.Some? <==> how.AllDecided?
      ensures how.AllDecided? ==> WithStatus(host.s.jobs, Importing) == {}
      ensures how.AllDecided? ==> count == Some(|WithStatus(old(host.s).jobs, Importing)|)
      ensures how.AllDecided? ==> Recovered(host.states, old(host.s), host.s, {}, how.turn, trouble)
      ensures how.CutOff? ==> RecoveryRaised(host.states, old(host.s), host.s, how, trouble)
    {
      ghost var before := host.s;
      var todo := WithStatus(host.s.jobs, Importing);
      var total, done := |todo|, 0;
      ghost var turn: map<JobId, nat> := map[];
      NoneRecoveredYet(host.states, before, trouble);
      while todo != {}
        invariant host.Valid() && old(host.states) <= host.states && host.s.active == None
        invariant Recovered(host.states, before, host.s, todo, turn, trouble)
        invariant done + |todo| == total
        decreases todo
      {
        var j :| j in todo;
        assert |todo - {j}| == |todo| - 1;
        var ok;
        ok, how := RecoverNext(j, before, todo, turn, notes, at, trouble);
        if !ok {
          return None, how;
        }
        turn, todo, done := how.turn, todo - {j}, done + 1;
      }
      NoneLeftImporting(host.states, before, host.s, turn, trouble);
      count, how := Some(done), AllDecided(turn);
    }

    method RecoverNext(j: JobId, ghost before: State, ghost todo: set<JobId>, ghost turn: map<JobId, nat>,
                       notes: seq<Assign>, at: string, trouble: JobId -> Trouble)
      returns (ok: bool, ghost how: Recovery)
      requires host.Valid() && host.s.active == None && All(Note, notes)
      requires Recovered(host.states, before, host.s, todo, turn, trouble) && j in todo
      modifies host
      ensures host.Valid() && old(host.states) <= host.states && host.s.active == None
      ensures if ok then how.AllDecided? && Recovered(host.states, before, host.s, todo - {j}, how.turn, trouble)
              else how.CutOff? && RecoveryRaised(host.states, before, host.s, how, trouble)
    {
      ghost var mid, seen, position := host.s, host.states, 0;
      StillImporting(seen, before, mid, todo, turn, j, trouble);
      ok, position := RecoverOne(j, notes, at, trouble(j));
      if ok {
        OneMoreRecovered(seen, host.states, before, mid, host.s, todo, turn, j, position, trouble);
        how := AllDecided(turn[j := position]);
      } else {
        RaisedAt(seen, host.states, before, mid, host.s, todo, turn, j, position, trouble);
        how := CutOff(todo, turn, j, position);
      }
    }

    /** The verdict on one row, and nothing else. */
    method RecoverOne(j: JobId, notes: seq<Assign>, at: string, trouble: Trouble) returns (ok: bool, ghost position: nat)
      requires host.Valid() && host.s.active == None && HasStatus(host.s, j, Importing) && All(Note, notes)
      modifies host
      ensures host.Valid() && old(host.states) <= host.states && host.s.active == None
      ensures OthersUnchanged(old(host.s), host.s, j)
      ensures ok ==> Decided(host.states, position, old(host.s), host.s, j, trouble)
      ensures !ok ==> LeftImporting(host.states, position, old(host.s), host.s, j, trouble)
    {
      ghost var before := host.s;
      position := TakeUp(j);
      ghost var seen, taken := host.states, host.s;
      VerifiedIsAuthentic(host.s.jobs[j], host.s.files);
      ok := Conclude(j, VerifiedMedia(host.s.jobs[j], host.s.files), notes, at, trouble);
      Concluded(seen, host.states, position, before, taken, host.s, j, ok, trouble);
    }

    method TakeUp(j: JobId) returns (ghost position: nat)
      requires host.Valid() && host.s.active == None && HasStatus(host.s, j, Importing)
      modifies host
      ensures host.Valid() && old(host.states) <= host.states
      ensures host.s.jobs == old(host.s).jobs && Working(host.s, j)
      ensures position < |host.states| && host.states[position] == host.s
    {
      host.Take(Control(Resume(j)));
      host.OthersAct(j, true);
      position := |host.states| - 1;
    }

    /** No handler catches a transaction that raises: the row is left as it is. */
    method FinishRecovered(j: JobId, i: Imported, notes: seq<Assign>, at: string, trouble: Trouble) returns (ok: bool)
      requires host.Valid() && Working(host.s, j) && HasStatus(host.s, j, Importing) && Describes(host.s, j, i)
      requires All(Note, notes)
      modifies host
      ensures host.Valid() && old(host.states) <= host.states && OthersUnchanged(old(host.s), host.s, j)
      ensures ok <==> Finishes(trouble.stop)
      ensures ok ==> host.s.jobs[j].status in {Queued, Duplicate}
      ensures !ok ==> HasStatus(host.s, j, Importing)
    {
      var report;
      ghost var hashed, looked;
      report, hashed, looked := FinishImport(j, i, notes, at, true, trouble.stop);
      ok := report.Some?;
      if ok {
        RemoveVerifiedInboxSource(j, i.sha, trouble);
      }
    }

    method Conclude(j: JobId, verified: Option<Imported>, notes: seq<Assign>, at: string, trouble: Trouble) returns (ok: bool)
      requires host.Valid() && Working(host.s, j) && HasStatus(host.s, j, Importing) && All(Note, notes)
      requires verified == VerifiedMedia(host.s.jobs[j], host.s.files)
      modifies host
      ensures host.Valid() && old(host.states) <= host.states && host.s.active == None
      ensures OthersUnchanged(old(host.s), host.s, j)
      ensures ok <==> verified.None? || Finishes(trouble.stop)
      ensures host.s.jobs[j].status in if !ok then {Importing} else if verified.Some? then {Queued, Duplicate} else {Interrupted}
    {
      ok := true;
      if verified.Some? {
        VerifiedDescribes(host.s, j);
        ok := FinishRecovered(j, verified.value, notes, at, trouble);
      } else {
        FailRow(j, Interrupted, notes, at);
      }
      host.Take(Control(Done));
    }
  }

  predicate Verifies(s: State, j: JobId)
    requires j in s.jobs
  {
    Authentic(s.jobs[j], s.files)
  }

  ghost predicate ExaminedAt(states: seq<State>, turn: nat, before: State, j: JobId) {
    turn < |states| && j in states[turn].jobs && j in before.jobs && states[turn].jobs[j] == before.jobs[j]
  }

  /** Row j was examined in the state at `turn`, unchanged since the restart, and its verified
      original, or the lack of one, decided what became of it. */
  ghost predicate Decided(states: seq<State>, turn: nat, before: State, after: State, j: JobId, trouble: Trouble) {
    && ExaminedAt(states, turn, before, j) && j in after.jobs
    && after.jobs[j].status in (if Verifies(states[turn], j) then {Queued, Duplicate} else {Interrupted})
    && (Verifies(states[turn], j) ==> Finishes(trouble.stop))
  }

  /** Row j was examined and its original verified, but finishing it raised. */
  ghost predicate LeftImporting(states: seq<State>, turn: nat, before: State, after: State, j: JobId, trouble: Trouble) {
    && ExaminedAt(states, turn, before, j) && HasStatus(after, j, Importing)
    && Verifies(states[turn], j) && !Finishes(trouble.stop)
  }

  /** How the recovery of imports ended, with the position in the log at which each row was examined. */
  datatype Recovery =
    | AllDecided(turn: map<JobId, nat>)
    | CutOff(todo: set<JobId>, turn: map<JobId, nat>, job: JobId, position: nat)

  /** The rows before the one that raised are decided, those after it untouched. */
  ghost predicate RecoveryRaised(states: seq<State>, before: State, now: State, how: Recovery, trouble: JobId -> Trouble)
    requires how.CutOff?
  {
    && now.jobs.Keys == before.jobs.Keys && how.job in how.todo
    && how.todo <= WithStatus(before.jobs, Importing) && how.turn.Keys == WithStatus(before.jobs, Importing) - how.todo
    && (forall k | k in before.jobs && k !in how.turn && k != how.job :: now.jobs[k] == before.jobs[k])
    && (forall k | k in how.turn :: Decided(states, how.turn[k], before, now, k, trouble(k)))
    && LeftImporting(states, how.position, before, now, how.job, trouble(how.job))
  }

  /** All importing rows but those in `todo` have been decided; no other row has changed. */
  ghost predicate Recovered(states: seq<State>, before: State, now: State, todo: set<JobId>, turn: map<JobId, nat>,
                            trouble: JobId -> Trouble) {
    && now.jobs.Keys == before.jobs.Keys
    && todo <= WithStatus(before.jobs, Importing) && turn.Keys == WithStatus(before.jobs, Importing) - todo
    && (forall j | j in before.jobs && j !in turn :: now.jobs[j] == before.jobs[j])
    && (forall j | j in turn :: Decided(states, turn[j], before, now, j, trouble(j)))
  }

  lemma Concluded(seen: seq<State>, states: seq<State>, position: nat, before: State, taken: State, now: State, j: JobId,
                  ok: bool, trouble: Trouble)
    requires seen <= states && position < |seen| && seen[position] == taken && taken.jobs == before.jobs
    requires j in before.jobs && j in now.jobs && (ok <==> !Verifies(taken, j) || Finishes(trouble.stop))
    requires now.jobs[j].status in if !ok then {Importing} else if Verifies(taken, j) then {Queued, Duplicate} else {Interrupted}
    ensures if ok then Decided(states, position, before, now, j, trouble) else LeftImporting(states, position, before, now, j, trouble)
  {
    assert states[position] == taken;
  }

  lemma StillDecided(seen: seq<State>, states: seq<State>, n: nat, before: State, mid: State, now: State, k: JobId,
                     trouble: Trouble)
    requires Decided(seen, n, before, mid, k, trouble) && seen <= states && k in now.jobs && now.jobs[k] == mid.jobs[k]
    ensures Decided(states, n, before, now, k, trouble)
  {
    assert states[n] == seen[n];
  }

  lemma NoneRecoveredYet(states: seq<State>, s: State, trouble: JobId -> Trouble)
    ensures Recovered(states, s, s, WithStatus(s.jobs, Importing), map[], trouble)
  {
  }

  lemma StillImporting(states: seq<State>, before: State, now: State, todo: set<JobId>, turn: map<JobId, nat>, j: JobId,
                       trouble: JobId -> Trouble)
    requires Recovered(states, before, now, todo, turn, trouble) && j in todo
    ensures HasStatus(now, j, Importing)
  {
    assert j in WithStatus(before.jobs, Importing) && j !in turn;
  }

  lemma OneMoreDecided(seen: seq<State>, states: seq<State>, before: State, mid: State, now: State,
                       turn: map<JobId, nat>, j: JobId, position: nat, trouble: JobId -> Trouble)
    requires seen <= states && OthersUnchanged(mid, now, j) && j !in turn
    requires forall k | k in turn :: Decided(seen, turn[k], before, mid, k, trouble(k))
    requires Decided(states, position, before, now, j, trouble(j))
    ensures var next := turn[j := position]; forall k | k in next :: Decided(states, next[k], before, now, k, trouble(k))
  {
    var next := turn[j := position];
    forall k | k in next ensures Decided(states, next[k], before, now, k, trouble(k)) {
      if k != j { StillDecided(seen, states, turn[k], before, mid, now, k, trouble(k)); }
    }
  }

  lemma OneMoreRecovered(seen: seq<State>, states: seq<State>, before: State, mid: State, now: State,
                         todo: set<JobId>, turn: map<JobId, nat>, j: JobId, position: nat, trouble: JobId -> Trouble)
    requires Recovered(seen, before, mid, todo, turn, trouble) && j in todo && seen <= states
    requires OthersUnchanged(mid, now, j) && Decided(states, position, mid, now, j, trouble(j))
    ensures Recovered(states, before, now, todo - {j}, turn[j := position], trouble)
  {
    assert j in WithStatus(before.jobs, Importing) && mid.jobs[j] == before.jobs[j];
    OneMoreDecided(seen, states, before, mid, now, turn, j, position, trouble);
    assert turn[j := position].Keys == WithStatus(before.jobs, Importing) - (todo - {j});
  }

  lemma RaisedAt(seen: seq<State>, states: seq<State>, before: State, mid: State, now: State, todo: set<JobId>,
                 turn: map<JobId, nat>, j: JobId, position: nat, trouble: JobId -> Trouble)
    requires Recovered(seen, before, mid, todo, turn, trouble) && j in todo && seen <= states
    requires OthersUnchanged(mid, now, j) && LeftImporting(states, position, mid, now, j, trouble(j))
    ensures RecoveryRaised(states, before, now, CutOff(todo, turn, j, position), trouble)
  {
    assert j in WithStatus(before.jobs, Importing) && mid.jobs[j] == before.jobs[j];
    forall k | k in turn ensures Decided(states, turn[k], before, now, k, trouble(k)) {
      StillDecided(seen, states, turn[k], before, mid, now, k, trouble(k));
    }
  }

  lemma NoneLeftImporting(states: seq<State>, before: State, now: State, turn: map<JobId, nat>, trouble: JobId -> Trouble)
    requires Recovered(states, before, now, {}, turn, trouble)
    ensures WithStatus(now.jobs, Importing) == {}
  {
    forall j | j in now.jobs ensures now.jobs[j].status != Importing {
      if j in turn { assert Decided(states, turn[j], before, now, j, trouble(j)); }
    }
  }

  /** The accepted recording is published, and its origin, its hash or its source vouches for it. */
  ghost predicate Evident(s: State, j: JobId) {
    j in s.jobs && exists a :: AcceptedFor(s, j, a) && Vouched(s, s.jobs[j], a)
  }

  predicate Vouched(s: State, job: Job, a: Acceptance) {
    && a.target in s.files && s.files[a.target] == a.bytes
    && (job.origin == Inbox || job.sourceSha.Some? || (a.source in s.files && s.files[a.source] == a.bytes))
  }

  /** Restart recovery, end to end: a first attempt that was importing when the application died
      is queued (or set aside as a duplicate) exactly when its accepted recording had been
      published, and interrupted otherwise. */
  lemma RecoveredExactly(states: seq<State>, before: State, now: State, turn: map<JobId, nat>, j: JobId,
                         trouble: JobId -> Trouble)
    requires Recovered(states, before, now, {}, turn, trouble) && HasStatus(before, j, Importing)
    requires before.jobs[j].retryCount == 0 && forall i :: 0 <= i < |states| ==> Inv(states[i])
    ensures j in turn && turn[j] < |states| && j in now.jobs && now.jobs[j].status in {Queued, Duplicate, Interrupted}
    ensures now.jobs[j].status in {Queued, Duplicate} <==> Evident(states[turn[j]], j)
  {
    assert j in turn;
    assert Decided(states, turn[j], before, now, j, trouble(j));
    VerdictIsEvidence(states[turn[j]], before, now, j);
  }

  lemma VerdictIsEvidence(s: State, before: State, now: State, j: JobId)
    requires Inv(s) && HasStatus(before, j, Importing) && before.jobs[j].retryCount == 0
    requires j in s.jobs && s.jobs[j] == before.jobs[j] && j in now.jobs
    requires now.jobs[j].status in if Verifies(s, j) then {Queued, Duplicate} else {Interrupted}
    ensures now.jobs[j].status in {Queued, Duplicate} <==> Evident(s, j)
  {
    VerifiesIfEvident(s, j);
  }

  lemma VerifiesIfEvident(s: State, j: JobId)
    requires Inv(s) && HasStatus(s, j, Importing) && s.jobs[j].retryCount == 0
    ensures Verifies(s, j) <==> Evident(s, j)
  {
    RecoveryIsExact(s, j);
    VerifiedIsAuthentic(s.jobs[j], s.files);
    assert RowInv(s, j);
    forall a | a in s.log ensures a.target in s.files ==> s.files[a.target] == a.bytes {}
  }

  // ----- single transactions -----

  lemma BeginEffect(s: State, j: JobId, at: string)
    requires ImportEnabled(s, Begin(j, at))
    ensures var t := DoImport(s, Begin(j, at));
      && t.jobs.Keys == s.jobs.Keys && t.jobs[j].status == Importing && t.active == Some(Active(j, false, None))
      && SameImport(t.jobs[j], s.jobs[j])
  {
    TransitionEffect(s.jobs, j, Importing, [], at);
  }

  lemma SettleEffect(s: State, j: JobId, target: JobStatus, notes: seq<Assign>, at: string)
    requires TableEnabled(s, Settle(j, target, notes, at))
    ensures var t := DoTable(s, Settle(j, target, notes, at));
      && t.jobs.Keys == s.jobs.Keys && t.jobs[j].status == target && SameImport(t.jobs[j], s.jobs[j])
      && (forall k | k in s.jobs && k != j :: t.jobs[k] == s.jobs[k])
      && forall sha :: DoneWith(t.jobs, sha) == DoneWith(s.jobs, sha)
  {
    TransitionEffect(s.jobs, j, target, notes, at);
    var t := DoTable(s, Settle(j, target, notes, at));
    forall sha ensures DoneWith(t.jobs, sha) == DoneWith(s.jobs, sha) {}
  }

  lemma FailEffect(s: State, j: JobId, target: JobStatus, notes: seq<Assign>, at: string)
    requires TableEnabled(s, FailImport(j, target, notes, at))
    ensures var t := DoTable(s, FailImport(j, target, notes, at));
      && t.jobs.Keys == s.jobs.Keys && t.jobs[j].status == target && SameImport(t.jobs[j], s.jobs[j])
      && forall k | k in s.jobs && k != j :: t.jobs[k] == s.jobs[k]
  {
    TransitionEffect(s.jobs, j, target, notes, at);
  }

  lemma DropEffect(s: State, j: JobId, target: JobStatus, notes: seq<Assign>, at: string)
    requires TableEnabled(s, Drop(j, target, notes, at))
    ensures j in DoTable(s, Drop(j, target, notes, at)).jobs && DoTable(s, Drop(j, target, notes, at)).jobs[j].status == target
    ensures SameImport(DoTable(s, Drop(j, target, notes, at)).jobs[j], s.jobs[j])
  {
    TransitionEffect(s.jobs, j, target, notes, at);
  }

  lemma ObserveEffect(s: State, j: JobId, o: Observation)
    requires j in s.jobs
    ensures TableEnabled(s, Annotate(j, [SetObservation(o)]))
    ensures DoTable(s, Annotate(j, [SetObservation(o)])) == s.(jobs := s.jobs[j := s.jobs[j].(observation := Some(o))])
  {
    UpdateOne(s.jobs, j, SetObservation(o));
  }
}
