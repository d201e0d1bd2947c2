/** `JobRepository`: the job table as an object whose methods are the program's transactions.
    Every method is proved to leave exactly the table its transaction function gives. */
module Repository {
  import opened Models
  import opened Database
  import opened Text

  class JobRepository {
    var jobs: Db

    constructor ()
      ensures jobs == map[]
    {
      jobs := map[];
    }

    method Get(id: JobId) returns (r: Result<Job, DbError>)
      ensures r == if id in jobs then Ok(jobs[id]) else Err(UnknownJob)
    {
      r := if id in jobs then Ok(jobs[id]) else Err(UnknownJob);
    }

    /** The SET clause of an UPDATE, column by column, applied to the row. */
    method UpdateRow(id: JobId, target: Option<JobStatus>, updates: seq<Assign>, now: string)
      returns (r: Result<(), DbError>)
      modifies this
      ensures var spec := Database.UpdateRow(old(jobs), id, target, updates, now);
        && jobs == OrSame(old(jobs), spec)
        && (r.Ok? <==> spec.Ok?) && (spec.Err? ==> r == Err(spec.error))
    {
      if !All(Mutable, updates) {
        return Err(UnsupportedColumn);
      }
      var assigns := Heading(target, updates, now);
      var i := 0;
      while i < |updates|
        invariant 0 <= i <= |updates|
        invariant assigns == Heading(target, updates, now) + updates[..i]
      {
        assigns := assigns + [updates[i]];
        i := i + 1;
      }
      assert updates[..i] == updates;
      if assigns == [] {
        return Ok(());
      }
      if id !in jobs {
        return Err(UnknownJob);
      }
      var row := Assigned(jobs[id], assigns);
      jobs := jobs[id := row];
      r := Ok(());
    }

    /** The assignments of one UPDATE, written from left to right. */
    method Assigned(job: Job, assigns: seq<Assign>) returns (row: Job)
      ensures row == Apply(job, assigns)
    {
      row := job;
      var i := 0;
      while i < |assigns|
        invariant 0 <= i <= |assigns|
        invariant row == Apply(job, assigns[..i])
      {
        row := ApplyOne(row, assigns[i]);
        assert assigns[..i + 1][..i] == assigns[..i];
        i := i + 1;
      }
      assert assigns[..i] == assigns;
    }

    /** The newest active row of the path is reused; otherwise one waiting row is added. */
    method Detect(newId: JobId, path: Path, origin: JobOrigin, size: nat, mtime: int, now: string, clock: int)
      returns (id: JobId)
      requires newId !in jobs
      modifies this
      ensures jobs == Database.Detect(old(jobs), newId, path, origin, size, mtime, now, clock)
      ensures id in jobs && jobs[id].sourcePath == path && Active(jobs[id].status)
      ensures ActiveFor(old(jobs), path) != {} ==> IsNewest(old(jobs), ActiveFor(old(jobs), path), id) && jobs == old(jobs)
      ensures ActiveFor(old(jobs), path) == {} ==>
        && id == newId && jobs.Keys == old(jobs).Keys + {newId} && (forall k | k in old(jobs) :: jobs[k] == old(jobs)[k])
        && jobs[id].status == WaitingForStable && jobs[id].origin == origin && jobs[id].detectedAt == now
        && jobs[id].sourceSize == Some(size) && jobs[id].observation == Some(Observation(size, mtime, clock))
        && jobs[id].retryCount == 0 && jobs[id].workerPid == None && !jobs[id].allowDuplicate
        && jobs[id].archiveDir == None && jobs[id].archivedMedia == None && jobs[id].sourceSha == None
    {
      var active := ActiveFor(jobs, path);
      if active != {} {
        ghost var newest := NewestExists(jobs, active);
        id :| id in active && IsNewest(jobs, active, id);
      } else {
        jobs := jobs[newId := NewJob(path, origin, size, mtime, now, clock)];
        id := newId;
      }
    }

    method Transition(id: JobId, target: JobStatus, updates: seq<Assign>, now: string)
      returns (r: Result<Job, DbError>)
      modifies this
      ensures var spec := Database.Transition(old(jobs), id, target, updates, now);
        && jobs == OrSame(old(jobs), spec)
        && (spec.Ok? ==> id in jobs && r == Ok(jobs[id])) && (spec.Err? ==> r == Err(spec.error))
    {
      if !All(Mutable, updates) {
        return Err(UnsupportedColumn);
      }
      if id !in jobs {
        return Err(UnknownJob);
      }
      if target !in Allowed(jobs[id].status) {
        return Err(IllegalTransition);
      }
      var updated := UpdateRow(id, Some(target), updates, now);
      r := Ok(jobs[id]);
    }

    method Update(id: JobId, updates: seq<Assign>) returns (r: Result<Job, DbError>)
      requires updates != []
      modifies this
      ensures var spec := Database.Update(old(jobs), id, updates);
        && jobs == OrSame(old(jobs), spec)
        && (spec.Ok? ==> id in jobs && r == Ok(jobs[id])) && (spec.Err? ==> r == Err(spec.error))
    {
      var updated := UpdateRow(id, None, updates, "");
      if updated.Err? {
        return Err(updated.error);
      }
      r := Ok(jobs[id]);
    }

    method ClaimNextQueued(now: string) returns (claimed: Option<JobId>)
      modifies this
      ensures (jobs, claimed) == Claim(old(jobs), now)
    {
      if WithStatus(jobs, Processing) != {} || WithStatus(jobs, Queued) == {} {
        return None;
      }
      var id := Earliest(jobs);
      var done := UpdateRow(id, Some(Processing), [], now);
      assert Heading(Some(Processing), [], now) + [] == Heading(Some(Processing), [], now);
      claimed := Some(id);
    }

    method RestoreTerminalFromManifest(id: JobId, final: Final, now: string) returns (r: Result<Job, DbError>)
      modifies this
      ensures var spec := RestoreTerminal(old(jobs), id, final, now);
        && jobs == OrSame(old(jobs), spec)
        && (spec.Ok? ==> id in jobs && r == Ok(jobs[id])) && (spec.Err? ==> r == Err(spec.error))
    {
      if final.status !in {Completed, CompletedWithWarnings, JobStatus.Failed} {
        return Err(NotFinal);
      }
      if id !in jobs {
        return Err(UnknownJob);
      }
      if jobs[id].status != Processing {
        return Ok(jobs[id]);
      }
      ghost var before := jobs;
      var updates := ResultColumns(final);
      var done := UpdateRow(id, Some(final.status), updates, now);
      if final.completedAt.Some? && final.completedAt.value != "" {
        jobs := jobs[id := jobs[id].(completedAt := final.completedAt)];
      }
      r := Ok(jobs[id]);
    }

    /** Every importing row and every row in processing that is not held back is interrupted and
        loses its pid; nothing else changes; the count is the number of rows that moved. */
    method RecoverAfterRestart(blocked: set<JobId>) returns (count: nat)
      modifies this
      ensures jobs == Database.RecoverAfterRestart(old(jobs), blocked)
      ensures WithStatus(jobs, Importing) == {} && WithStatus(jobs, Processing) == WithStatus(old(jobs), Processing) * blocked
      ensures forall id | id in jobs && old(jobs)[id].status !in {Importing, Processing} :: jobs[id] == old(jobs)[id]
      ensures forall id | id in jobs && jobs[id] != old(jobs)[id] :: Restarted(old(jobs)[id], jobs[id])
      ensures count == |WithStatus(old(jobs), Importing)| + |WithStatus(old(jobs), Processing) - blocked|
    {
      ghost var before := jobs;
      var todo := jobs.Keys;
      count := 0;
      while todo != {}
        invariant Recovering(before, jobs, blocked, todo, count)
        decreases |todo|
      {
        var id :| id in todo;
        OneMoreRecovered(before, jobs, blocked, todo, count, id);
        if Stranded(jobs[id], id in blocked) {
          jobs := jobs[id := RestartedRow(jobs[id], id in blocked)];
          count := count + 1;
        }
        todo := todo - {id};
      }
      AllRecovered(before, jobs, blocked, count);
      RestartedTable(before, blocked);
    }

    /** A retry is for finished rows only. The row waits for a new import with no observation, or is
        queued at once; it forgets the attempt before and keeps what its import recorded. */
    method Retry(id: JobId, needsImport: bool, now: string) returns (r: Result<Job, DbError>)
      modifies this
      ensures r == Err(UnknownJob) <==> id !in old(jobs)
      ensures r == Err(IllegalTransition) <==> id in old(jobs) && !Retryable(old(jobs)[id].status)
      ensures r.Err? ==> jobs == old(jobs) && r.error in {UnknownJob, IllegalTransition}
      ensures jobs == OrSame(old(jobs), Database.Retry(old(jobs), id, needsImport, now))
      ensures r.Ok? ==> id in jobs && r == Ok(jobs[id]) && Retried(old(jobs)[id], jobs[id], needsImport, now)
    {
      if id !in jobs {
        return Err(UnknownJob);
      }
      if !Retryable(jobs[id].status) {
        return Err(IllegalTransition);
      }
      var row := jobs[id];
      if needsImport {
        row := row.(status := WaitingForStable, queuedAt := None, startedAt := None, completedAt := None, workerPid := None,
                    errorCode := None, errorMessage := None, observation := None, retryCount := row.retryCount + 1);
      } else {
        row := row.(status := Queued, queuedAt := Some(now), startedAt := None, completedAt := None, workerPid := None,
                    errorCode := None, errorMessage := None, retryCount := row.retryCount + 1);
      }
      jobs := jobs[id := row];
      r := Ok(row);
    }
  }

  /** The attempt died with the application; everything it recorded is kept. */
  predicate Restarted(before: Job, after: Job) {
    && after.status == Interrupted && after.workerPid == None && after.errorCode == Some("app_restarted")
    && SameImport(after, before) && after.summary == before.summary
    && after.queuedAt == before.queuedAt && after.startedAt == before.startedAt && after.completedAt == before.completedAt
  }

  /** A new attempt at the same recording. */
  predicate Retried(before: Job, after: Job, needsImport: bool, now: string) {
    && after.status == (if needsImport then WaitingForStable else Queued)
    && after.queuedAt == (if needsImport then None else Some(now))
    && after.startedAt == None && after.completedAt == None && after.workerPid == None
    && after.errorCode == None && after.errorMessage == None
    && after.observation == (if needsImport then None else before.observation)
    && after.retryCount == before.retryCount + 1 && after.summary == before.summary
    && after.sourcePath == before.sourcePath && after.origin == before.origin && after.sourceSize == before.sourceSize
    && after.archiveDir == before.archiveDir && after.archivedMedia == before.archivedMedia && after.sourceSha == before.sourceSha
  }

  predicate IsNewest(db: Db, ids: set<JobId>, id: JobId)
    requires forall k | k in ids :: k in db
  {
    id in ids && forall k | k in ids :: !TextLess(db[id].detectedAt, db[k].detectedAt)
  }

  lemma {:induction false} NewestExists(db: Db, ids: set<JobId>) returns (newest: JobId)
    requires ids != {} && forall k | k in ids :: k in db
    ensures IsNewest(db, ids, newest)
    decreases |ids|
  {
    newest :| newest in ids;
    var rest := ids - {newest};
    TextLessTotal(db[newest].detectedAt, db[newest].detectedAt);
    if rest == {} {
      assert ids == {newest};
    } else {
      var best := NewestExists(db, rest);
      TextLessTotal(db[newest].detectedAt, db[best].detectedAt);
      if TextLess(db[newest].detectedAt, db[best].detectedAt) {
        newest := best;
      } else {
        forall k | k in rest ensures !TextLess(db[newest].detectedAt, db[k].detectedAt) {
          NotNewer(db[best].detectedAt, db[newest].detectedAt, db[k].detectedAt);
        }
      }
    }
  }

  lemma NotNewer(best: string, newest: string, other: string)
    requires !TextLess(best, other) && !TextLess(newest, best)
    ensures !TextLess(newest, other)
  {
    TextLessTotal(best, other);
    TextLessTotal(newest, best);
    if other != best && newest != best && TextLess(newest, other) {
      TextLessTransitive(newest, other, best);
    }
  }

  /** The rows outside `todo` have been recovered and counted. */
  ghost predicate Recovering(before: Db, now: Db, blocked: set<JobId>, todo: set<JobId>, count: nat) {
    && todo <= before.Keys && now.Keys == before.Keys && count == |StrandedRows(before, blocked) - todo|
    && forall id | id in before :: now[id] == if id in todo then before[id] else RestartedRow(before[id], id in blocked)
  }

  lemma OneMoreRecovered(before: Db, now: Db, blocked: set<JobId>, todo: set<JobId>, count: nat, id: JobId)
    requires Recovering(before, now, blocked, todo, count) && id in todo
    ensures id in now
    ensures var moves := Stranded(now[id], id in blocked);
      Recovering(before, if moves then now[id := RestartedRow(now[id], id in blocked)] else now, blocked, todo - {id},
                 if moves then count + 1 else count)
  {
    OneMoreStranded(StrandedRows(before, blocked), todo, id);
  }

  lemma OneMoreStranded(stranded: set<JobId>, todo: set<JobId>, id: JobId)
    requires id in todo
    ensures |stranded - (todo - {id})| == |stranded - todo| + if id in stranded then 1 else 0
  {
    if id in stranded {
      assert stranded - (todo - {id}) == (stranded - todo) + {id};
    } else {
      assert stranded - (todo - {id}) == stranded - todo;
    }
  }

  lemma StrandedSplit(db: Db, blocked: set<JobId>)
    ensures |StrandedRows(db, blocked)| == |WithStatus(db, Importing)| + |WithStatus(db, Processing) - blocked|
  {
    var importing, processing := WithStatus(db, Importing), WithStatus(db, Processing) - blocked;
    assert importing !! processing;
    assert StrandedRows(db, blocked) == importing + processing;
  }

  lemma AllRecovered(before: Db, now: Db, blocked: set<JobId>, count: nat)
    requires Recovering(before, now, blocked, {}, count)
    ensures now == Database.RecoverAfterRestart(before, blocked)
    ensures count == |WithStatus(before, Importing)| + |WithStatus(before, Processing) - blocked|
  {
    StrandedSplit(before, blocked);
    assert StrandedRows(before, blocked) - {} == StrandedRows(before, blocked);
    NothingLeft(before, now, blocked);
  }

  lemma NothingLeft(before: Db, now: Db, blocked: set<JobId>)
    requires now.Keys == before.Keys
    requires forall id | id in before :: now[id] == RestartedRow(before[id], id in blocked)
    ensures now == Database.RecoverAfterRestart(before, blocked)
  {
  }

  /** What a restart leaves: nothing importing, and in processing only what is held back. */
  lemma RestartedTable(db: Db, blocked: set<JobId>)
    ensures var r := Database.RecoverAfterRestart(db, blocked);
      && r.Keys == db.Keys && WithStatus(r, Importing) == {}
      && WithStatus(r, Processing) == WithStatus(db, Processing) * blocked
      && (forall id | id in db && db[id].status !in {Importing, Processing} :: r[id] == db[id])
      && forall id | id in db && r[id] != db[id] :: Restarted(db[id], r[id])
  {
  }
}
