/** `WorkCallController.start`: the recovery sequence that runs before anything else does. */
module Controller {
  import opened Models
  import opened Database
  import opened ImportProtocol
  import opened ImportSafety
  import opened ImportHost
  import opened Manifests
  import opened QueueService
  import Results
  import Runner = WorkerRunner
  import WorkerRun

  /** What the runner and the lease check answer about one row's worker; either may raise. */
  datatype Probe = Probe(raises: bool, status: Runner.OrphanStatus, leaseRaises: bool, leaseInactive: bool)

  /** A recorded worker has to be stopped, absent or replaced; without a recorded pid the worker
      lease has to be free as well. */
  predicate Permits(job: Job, p: Probe) {
    !p.raises && Runner.PermitsRecovery(p.status)
    && (job.workerPid.None? ==> !p.leaseRaises && p.leaseInactive)
  }

  function HeldBack(db: Db, probe: JobId -> Probe): set<JobId> {
    set j | j in db && db[j].status == Processing && !Permits(db[j], probe(j))
  }

  /** The runner could not be asked or could not tell. */
  predicate Unresolved(p: Probe) { p.raises || p.status == Runner.Unconfirmed }

  /** The worker lease could not be checked or is not known to be free. */
  predicate LeaseInDoubt(p: Probe) { p.leaseRaises || !p.leaseInactive }

  /** Exactly the rows in processing are held whose worker may still be there: the runner has not
      resolved it, or no pid was recorded and the lease is in doubt. */
  ghost predicate HeldExactly(db: Db, probe: JobId -> Probe, held: set<JobId>) {
    forall j :: j in held <==>
      && j in db && db[j].status == Processing
      && (Unresolved(probe(j)) || (db[j].workerPid == None && LeaseInDoubt(probe(j))))
  }

  /** What the probe of row j was answered was so: a worker reported gone is gone, a lease reported
      free is free. */
  ghost predicate Truthful(p: Probe, procs: Runner.Procs, lease: Option<Pid>, j: JobId) {
    && (!p.raises && p.status in {Runner.Stopped, Runner.Absent, Runner.PidReused} ==> Runner.NoWorker(procs, j))
    && (!p.leaseRaises && p.leaseInactive ==> lease == None)
  }

  /** A row that is let go has no worker, and without a recorded pid nobody holds the lease. */
  lemma LetGoIsSafe(db: Db, probe: JobId -> Probe, procs: Runner.Procs, lease: Option<Pid>, j: JobId)
    requires j in db && db[j].status == Processing && j !in HeldBack(db, probe) && Truthful(probe(j), procs, lease, j)
    ensures Runner.NoWorker(procs, j) && (db[j].workerPid == None ==> lease == None)
  {
    HeldBackExactly(db, probe);
  }

  lemma HeldBackExactly(db: Db, probe: JobId -> Probe)
    ensures HeldExactly(db, probe, HeldBack(db, probe))
  {
  }

  predicate Usable(final: Option<Final>) {
    final.Some? && final.value.status in {Completed, CompletedWithWarnings, JobStatus.Failed}
  }

  /** The row once its durable result, if it has one, has been applied. */
  predicate RestoredRow(before: Job, after: Job, final: Option<Final>) {
    if Usable(final)
    then after.status == final.value.status && after.summary == Stored(final.value.summary)
         && after.errorCode == final.value.errorCode && after.errorMessage == final.value.errorMessage
         && after.workerPid == None && SameImport(after, before)
    else after == before
  }

  function Marked(job: Job): Job { job.(errorCode := Some("worker_recovery_unconfirmed"), errorMessage := Some(HOLD_TEXT)) }

  /** What the directory of each row holds as its final manifest. Marking a row does not change
      where its directory is. */
  function FinalsOf(db: Db, disk: JobId -> Directory, parsers: Parsers): JobId -> Option<Final> {
    (j: JobId) => if j in db then ReadFinalManifest(j, db[j], disk(j), parsers) else None
  }

  /** A manifest is applied exactly when it carries this id and a final status, and for a completed
      one names the five exports that are all there. */
  lemma UsableManifest(db: Db, disk: JobId -> Directory, parsers: Parsers, j: JobId)
    requires j in db
    ensures Usable(FinalsOf(db, disk, parsers)(j)) <==>
      && db[j].archiveDir.Some? && disk(j).manifest.Some? && disk(j).manifest.value.jobId == Manifests.Text(j)
      && FinalStatus(disk(j).manifest.value.status).Some?
      && (FinalStatus(disk(j).manifest.value.status) == Some(JobStatus.Failed) || OutputsPresent(disk(j).manifest.value, disk(j)))
  {
  }

  function UsableAmong(ids: set<JobId>, final: JobId -> Option<Final>): set<JobId> {
    set j | j in ids && Usable(final(j))
  }

  function RowsToRestore(db: Db, held: set<JobId>, final: JobId -> Option<Final>): set<JobId> {
    UsableAmong(WithStatus(db, Processing) - held, final)
  }

  function RowsToInterrupt(db: Db, held: set<JobId>, final: JobId -> Option<Final>): set<JobId> {
    set j | j in WithStatus(db, Processing) - held && !Usable(final(j))
  }

  /** Held rows are marked, and every other row in processing has its durable result if it has
      one; the rest of the table is untouched. */
  ghost predicate ResultsApplied(before: Db, after: Db, held: set<JobId>, final: JobId -> Option<Final>) {
    && after.Keys == before.Keys
    && forall j | j in before ::
         if j in held then after[j] == Marked(before[j])
         else if before[j].status == Processing then RestoredRow(before[j], after[j], final(j))
         else after[j] == before[j]
  }

  /** The table `start` leaves behind. No row is importing; the rows in processing are exactly the
      ones held back; every usable result of a worker that is gone has been applied and the rest
      of those rows are interrupted; nothing else has changed. */
  ghost predicate Started(before: Db, after: Db, held: set<JobId>, final: JobId -> Option<Final>) {
    && after.Keys == before.Keys
    && WithStatus(after, Importing) == {} && WithStatus(after, Processing) == held
    && (forall j | j in before && j in held :: after[j] == Marked(before[j]))
    && (forall j | j in RowsToRestore(before, held, final) :: RestoredRow(before[j], after[j], final(j)))
    && (forall j | j in RowsToInterrupt(before, held, final) ::
          after[j].status == Interrupted && after[j].workerPid == None && SameImport(after[j], before[j]))
    && (forall j | j in before && before[j].status !in {Importing, Processing} :: after[j] == before[j])
  }

  /** Exactly the held rows are marked. */
  ghost predicate OnlyMarked(before: Db, now: Db, held: set<JobId>) {
    && now.Keys == before.Keys
    && forall j | j in before :: now[j] == if j in held then Marked(before[j]) else before[j]
  }

  ghost predicate OnlyRestored(before: Db, now: Db, done: set<JobId>, final: JobId -> Option<Final>) {
    && now.Keys == before.Keys
    && forall j | j in before :: if j in done then RestoredRow(before[j], now[j], final(j)) else now[j] == before[j]
  }

  /** Rows outside `todo` have been probed. */
  ghost predicate Probed(before: Db, now: Db, todo: set<JobId>, held: set<JobId>, probe: JobId -> Probe) {
    && todo <= WithStatus(before, Processing) && held == HeldBack(before, probe) - todo
    && OnlyMarked(before, now, held)
  }

  lemma OneMoreProbed(before: Db, now: Db, next: Db, todo: set<JobId>, held: set<JobId>, probe: JobId -> Probe, j: JobId)
    requires Probed(before, now, todo, held, probe) && j in todo && j in now
    requires next == if Permits(now[j], probe(j)) then now else now[j := Marked(now[j])]
    ensures Probed(before, next, todo - {j}, if Permits(now[j], probe(j)) then held else held + {j}, probe)
  {
    assert j in WithStatus(before, Processing) && now[j] == before[j];
  }

  lemma ProbedStays(before: Db, now: Db, todo: set<JobId>, held: set<JobId>, probe: JobId -> Probe, j: JobId)
    requires Probed(before, now, todo, held, probe) && j in todo
    ensures j in now
  {
    assert j in WithStatus(before, Processing);
  }

  /** Rows of `all` outside `todo` have been restored. */
  ghost predicate Restoring(before: Db, now: Db, all: set<JobId>, todo: set<JobId>, final: JobId -> Option<Final>,
                            restored: nat) {
    && todo <= all <= WithStatus(before, Processing) && OnlyRestored(before, now, all - todo, final)
    && restored == |UsableAmong(all - todo, final)|
  }

  lemma OneMoreUsable(ids: set<JobId>, j: JobId, final: JobId -> Option<Final>)
    requires j !in ids
    ensures |UsableAmong(ids + {j}, final)| == |UsableAmong(ids, final)| + if Usable(final(j)) then 1 else 0
  {
    assert UsableAmong(ids + {j}, final) == UsableAmong(ids, final) + if Usable(final(j)) then {j} else {};
  }

  lemma OneMoreRow(before: Db, now: Db, next: Db, done: set<JobId>, final: JobId -> Option<Final>, j: JobId)
    requires OnlyRestored(before, now, done, final) && j in before && j !in done
    requires next.Keys == now.Keys && forall k | k in now && k != j :: next[k] == now[k]
    requires RestoredRow(now[j], next[j], final(j))
    ensures OnlyRestored(before, next, done + {j}, final)
  {
    assert now[j] == before[j];
    forall k | k in before
      ensures if k in done + {j} then RestoredRow(before[k], next[k], final(k)) else next[k] == before[k] {
      assert k != j ==> next[k] == now[k];
    }
  }

  lemma OneMoreRestored(before: Db, now: Db, next: Db, all: set<JobId>, todo: set<JobId>, final: JobId -> Option<Final>,
                        restored: nat, j: JobId)
    requires Restoring(before, now, all, todo, final, restored) && j in todo && j in now
    requires next.Keys == now.Keys && forall k | k in now && k != j :: next[k] == now[k]
    requires RestoredRow(now[j], next[j], final(j))
    ensures Restoring(before, next, all, todo - {j}, final, restored + if Usable(final(j)) then 1 else 0)
  {
    assert all - (todo - {j}) == (all - todo) + {j};
    OneMoreRow(before, now, next, all - todo, final, j);
    OneMoreUsable(all - todo, j, final);
  }

  lemma NoneRestoredYet(before: Db, all: set<JobId>, final: JobId -> Option<Final>)
    requires all <= WithStatus(before, Processing)
    ensures Restoring(before, before, all, all, final, 0)
  {
    assert all - all == {} && UsableAmong({}, final) == {};
  }

  lemma StillProcessing(before: Db, now: Db, all: set<JobId>, todo: set<JobId>, final: JobId -> Option<Final>, restored: nat,
                        j: JobId)
    requires Restoring(before, now, all, todo, final, restored) && j in todo
    ensures j in now && now[j].status == Processing
  {
    assert j in WithStatus(before, Processing) && now[j] == before[j];
  }

  lemma AllRestored(before: Db, now: Db, all: set<JobId>, final: JobId -> Option<Final>, restored: nat)
    requires Restoring(before, now, all, {}, final, restored)
    ensures OnlyRestored(before, now, all, final) && restored == |UsableAmong(all, final)|
  {
    assert all - {} == all;
  }

  lemma MarkEffect(s: State, j: JobId)
    requires j in s.jobs
    ensures TableEnabled(s, Annotate(j, HoldNotes()))
    ensures DoTable(s, Annotate(j, HoldNotes())) == s.(jobs := s.jobs[j := Marked(s.jobs[j])])
  {
    UpdateTwo(s.jobs, j, SetErrorCode(Some(HOLD_CODE)), SetErrorMessage(Some(HOLD_TEXT)));
  }

  lemma SummaryEffect(s: State, j: JobId, summary: Summary)
    requires HasStatus(s, j, Processing)
    ensures TableEnabled(s, Annotate(j, SummaryColumns(summary)))
    ensures var t := DoTable(s, Annotate(j, SummaryColumns(summary)));
      t == s.(jobs := OrSame(s.jobs, Update(s.jobs, j, SummaryColumns(summary)))) && HasStatus(t, j, Processing)
  {
    UpdateTwo(s.jobs, j, SetSummary(summary), SetAllowDuplicate(false));
  }

  lemma ResultEffect(s: State, j: JobId, final: Final, at: string)
    requires j in s.jobs && s.jobs[j].status == Processing && Usable(Some(final))
    ensures TableEnabled(s, RestoreResult(j, final, at))
    ensures var t := DoTable(s, RestoreResult(j, final, at));
      OthersUnchanged(s, t, j) && RestoredRow(s.jobs[j], t.jobs[j], Some(final))
  {
    RestoreEffect(s.jobs, j, final, at);
  }

  lemma Phases(before: Db, marked: Db, restored: Db, held: set<JobId>, final: JobId -> Option<Final>)
    requires held <= WithStatus(before, Processing)
    requires OnlyMarked(before, marked, held)
    requires OnlyRestored(marked, restored, WithStatus(marked, Processing) - held, final)
    ensures ResultsApplied(before, restored, held, final)
    ensures RowsToRestore(marked, held, final) == RowsToRestore(before, held, final)
  {
    assert WithStatus(marked, Processing) == WithStatus(before, Processing);
  }

  lemma TwoPhases(before: Db, after: Db, held: set<JobId>, final: JobId -> Option<Final>)
    requires ResultsApplied(before, after, held, final)
    requires held <= WithStatus(before, Processing)
    ensures WithStatus(after, Importing) == WithStatus(before, Importing)
    ensures forall j | j in WithStatus(before, Importing) :: after[j] == before[j]
    ensures WithStatus(after, Processing) == held + RowsToInterrupt(before, held, final)
  {
  }

  /** Every import the previous run left behind was decided on its evidence. */
  ghost predicate ImportsDecided(states: seq<State>, before: State, after: State, turn: map<JobId, nat>,
                                 trouble: JobId -> Trouble) {
    forall j | j in WithStatus(before.jobs, Importing) :: j in turn && Decided(states, turn[j], before, after, j, trouble(j))
  }

  lemma ProcessingAfterImports(states: seq<State>, restored: State, imported: State, turn: map<JobId, nat>, trouble: JobId -> Trouble)
    requires Recovered(states, restored, imported, {}, turn, trouble)
    ensures WithStatus(imported.jobs, Processing) == WithStatus(restored.jobs, Processing)
    ensures forall j | j in restored.jobs && restored.jobs[j].status != Importing :: imported.jobs[j] == restored.jobs[j]
  {
    forall j | j in imported.jobs
      ensures imported.jobs[j].status == Processing <==> restored.jobs[j].status == Processing {
      if j in turn { assert Decided(states, turn[j], restored, imported, j, trouble(j)); }
    }
  }

  lemma LastStranded(before: Db, restored: Db, imported: Db, held: set<JobId>, final: JobId -> Option<Final>)
    requires ResultsApplied(before, restored, held, final) && held <= WithStatus(before, Processing)
    requires WithStatus(imported, Importing) == {}
    requires WithStatus(imported, Processing) == WithStatus(restored, Processing)
    ensures StrandedRows(imported, held) == RowsToInterrupt(before, held, final)
    ensures WithStatus(imported, Processing) == held + RowsToInterrupt(before, held, final)
  {
    TwoPhases(before, restored, held, final);
    forall j ensures j in StrandedRows(imported, held) <==> j in WithStatus(imported, Processing) && j !in held {
      assert j !in WithStatus(imported, Importing);
    }
  }

  /** What becomes of one row between the start and the end of `start`. */
  ghost predicate RowStarted(before: Job, after: Job, held: bool, final: Option<Final>) {
    if before.status == Importing then after.status !in {Importing, Processing}
    else if before.status != Processing then after == before
    else if held then after == Marked(before)
    else if Usable(final) then RestoredRow(before, after, final)
    else after.status == Interrupted && after.workerPid == None && SameImport(after, before)
  }

  lemma RowsStarted(before: Db, after: Db, held: set<JobId>, final: JobId -> Option<Final>)
    requires after.Keys == before.Keys && held <= WithStatus(before, Processing)
    requires forall j | j in before :: RowStarted(before[j], after[j], j in held, final(j))
    ensures Started(before, after, held, final)
  {
  }

  lemma LastTable(before: Db, restored: Db, imported: Db, held: set<JobId>, final: JobId -> Option<Final>)
    requires ResultsApplied(before, restored, held, final) && held <= WithStatus(before, Processing)
    requires imported.Keys == restored.Keys && WithStatus(imported, Importing) == {}
    requires WithStatus(imported, Processing) == WithStatus(restored, Processing)
    requires forall j | j in restored && restored[j].status != Importing :: imported[j] == restored[j]
    ensures Started(before, RecoverAfterRestart(imported, held), held, final)
  {
    var after := RecoverAfterRestart(imported, held);
    forall j | j in before ensures RowStarted(before[j], after[j], j in held, final(j)) {
      assert j !in WithStatus(imported, Importing);
      assert j in WithStatus(imported, Processing) <==> j in WithStatus(restored, Processing);
      assert j in held ==> j in WithStatus(before, Processing);
    }
    RowsStarted(before, after, held, final);
  }

  /** The imports change no row in processing, so what the last transaction interrupts is what
      no worker result accounts for. */
  lemma LastPhase(states: seq<State>, before: State, restored: State, imported: State, held: set<JobId>,
                  final: JobId -> Option<Final>, turn: map<JobId, nat>, trouble: JobId -> Trouble)
    requires ResultsApplied(before.jobs, restored.jobs, held, final) && held <= WithStatus(before.jobs, Processing)
    requires Recovered(states, restored, imported, {}, turn, trouble) && WithStatus(imported.jobs, Importing) == {}
    ensures WithStatus(before.jobs, Importing) == WithStatus(restored.jobs, Importing)
    ensures StrandedRows(imported.jobs, held) == RowsToInterrupt(before.jobs, held, final)
    ensures Started(before.jobs, RecoverAfterRestart(imported.jobs, held), held, final)
    ensures ImportsDecided(states, before, imported.(jobs := RecoverAfterRestart(imported.jobs, held)), turn, trouble)
  {
    TwoPhases(before.jobs, restored.jobs, held, final);
    ProcessingAfterImports(states, restored, imported, turn, trouble);
    LastStranded(before.jobs, restored.jobs, imported.jobs, held, final);
    LastTable(before.jobs, restored.jobs, imported.jobs, held, final);
    var after := imported.(jobs := RecoverAfterRestart(imported.jobs, held));
    forall j | j in WithStatus(before.jobs, Importing) ensures j in turn && Decided(states, turn[j], before, after, j, trouble(j)) {
      assert Decided(states, turn[j], restored, imported, j, trouble(j));
    }
  }

  lemma LaterDecided(seen: seq<State>, states: seq<State>, before: State, after: State, turn: map<JobId, nat>, trouble: JobId -> Trouble)
    requires seen <= states && ImportsDecided(seen, before, after, turn, trouble)
    ensures ImportsDecided(states, before, after, turn, trouble)
  {
    forall j | j in WithStatus(before.jobs, Importing) ensures j in turn && Decided(states, turn[j], before, after, j, trouble(j)) {
      assert states[turn[j]] == seen[turn[j]];
    }
  }

  /** What a start leaves that was cut off in the import of one row: that row still importing, those
      before it decided, the others as the two phases before left them. */
  ghost predicate StartRaised(states: seq<State>, before: State, after: State, held: set<JobId>,
                              final: JobId -> Option<Final>, how: Recovery, trouble: JobId -> Trouble)
    requires how.CutOff?
  {
    && after.jobs.Keys == before.jobs.Keys && LeftImporting(states, how.position, before, after, how.job, trouble(how.job))
    && forall k | k in before.jobs && k != how.job ::
         if before.jobs[k].status == Importing then
           if k in how.turn then Decided(states, how.turn[k], before, after, k, trouble(k)) else after.jobs[k] == before.jobs[k]
         else if k in held then after.jobs[k] == Marked(before.jobs[k])
         else if before.jobs[k].status == Processing then RestoredRow(before.jobs[k], after.jobs[k], final(k))
         else after.jobs[k] == before.jobs[k]
  }

  lemma RaisedInImports(states: seq<State>, before: State, restored: State, after: State, held: set<JobId>,
                        final: JobId -> Option<Final>, how: Recovery, trouble: JobId -> Trouble)
    requires ResultsApplied(before.jobs, restored.jobs, held, final) && held <= WithStatus(before.jobs, Processing)
    requires how.CutOff? && RecoveryRaised(states, restored, after, how, trouble)
    ensures StartRaised(states, before, after, held, final, how, trouble)
  {
    TwoPhases(before.jobs, restored.jobs, held, final);
    assert how.job in WithStatus(before.jobs, Importing);
    forall k | k in before.jobs && before.jobs[k].status == Importing
      ensures restored.jobs[k] == before.jobs[k] && (k in how.turn <==> k !in how.todo) {
      assert k in WithStatus(before.jobs, Importing);
    }
    forall k | k in before.jobs && before.jobs[k].status != Importing ensures k !in how.turn && k != how.job {
      assert k !in WithStatus(restored.jobs, Importing);
    }
  }

  lemma AllRowsDecided(seen: seq<State>, states: seq<State>, before: State, restored: State, imported: State, held: set<JobId>,
                       final: JobId -> Option<Final>, turn: map<JobId, nat>, trouble: JobId -> Trouble)
    requires ResultsApplied(before.jobs, restored.jobs, held, final) && held <= WithStatus(before.jobs, Processing)
    requires Recovered(seen, restored, imported, {}, turn, trouble) && WithStatus(imported.jobs, Importing) == {}
    requires seen <= states
    ensures var after := imported.(jobs := RecoverAfterRestart(imported.jobs, held));
      Started(before.jobs, after.jobs, held, final) && ImportsDecided(states, before, after, turn, trouble)
    ensures WithStatus(restored.jobs, Importing) == WithStatus(before.jobs, Importing)
    ensures StrandedRows(imported.jobs, held) == RowsToInterrupt(before.jobs, held, final)
  {
    var after := imported.(jobs := RecoverAfterRestart(imported.jobs, held));
    LastPhase(seen, before, restored, imported, held, final, turn, trouble);
    LaterDecided(seen, states, before, after, turn, trouble);
  }

  class WorkCallController {
    const host: Host
    const service: QueueService
    var blocked: set<JobId>
    var terminals: map<JobId, WorkerRun.Event>

    constructor (host: Host)
      ensures this.host == host && service.host == host && service.archive.host == host
      ensures blocked == {} && terminals == map[]
    {
      this.host := host;
      service := new QueueService(host);
      blocked, terminals := {}, map[];
    }

    method Mark(j: JobId)
      requires host.Valid() && j in host.s.jobs
      modifies host
      ensures host.Valid() && old(host.states) <= host.states && host.s.active == old(host.s).active
      ensures host.s.jobs == old(host.s).jobs[j := Marked(old(host.s).jobs[j])]
    {
      MarkEffect(host.s, j);
      host.Take(Table(Annotate(j, HoldNotes())));
    }

    method Restore(j: JobId, final: Final, at: string)
      requires host.Valid() && j in host.s.jobs && host.s.jobs[j].status == Processing && Usable(Some(final))
      modifies host
      ensures host.Valid() && old(host.states) <= host.states && host.s.active == old(host.s).active
      ensures OthersUnchanged(old(host.s), host.s, j)
      ensures RestoredRow(old(host.s).jobs[j], host.s.jobs[j], Some(final))
    {
      ResultEffect(host.s, j, final, at);
      host.Take(Table(RestoreResult(j, final, at)));
    }

    method InterruptStranded()
      requires host.Valid()
      modifies host
      ensures host.Valid() && host.states == old(host.states) + [host.s]
      ensures host.s == old(host.s).(jobs := RecoverAfterRestart(old(host.s).jobs, blocked))
    {
      host.Take(Import(RecoverRows(blocked)));
    }

    /** Rows whose worker cannot be ruled out are marked and held back; the rest are untouched. */
    method StopRecordedOrphanedWorkers(probe: JobId -> Probe) returns (held: set<JobId>)
      requires host.Valid()
      modifies host
      ensures host.Valid() && old(host.states) <= host.states && host.s.active == old(host.s).active
      ensures held == HeldBack(old(host.s).jobs, probe) && HeldExactly(old(host.s).jobs, probe, held)
      ensures OnlyMarked(old(host.s).jobs, host.s.jobs, held)
    {
      ghost var before := host.s.jobs;
      var todo := WithStatus(host.s.jobs, Processing);
      held := {};
      while todo != {}
        invariant host.Valid() && old(host.states) <= host.states && host.s.active == old(host.s).active
        invariant Probed(before, host.s.jobs, todo, held, probe)
        decreases todo
      {
        var j :| j in todo;
        held := ProbeNext(j, probe, before, todo, held);
        todo := todo - {j};
      }
      HeldBackExactly(before, probe);
    }

    method ProbeNext(j: JobId, probe: JobId -> Probe, ghost before: Db, ghost todo: set<JobId>, earlier: set<JobId>)
      returns (held: set<JobId>)
      requires host.Valid() && Probed(before, host.s.jobs, todo, earlier, probe) && j in todo
      modifies host
      ensures host.Valid() && old(host.states) <= host.states && host.s.active == old(host.s).active
      ensures Probed(before, host.s.jobs, todo - {j}, held, probe)
    {
      ghost var now := host.s.jobs;
      ProbedStays(before, now, todo, earlier, probe, j);
      held := earlier;
      if !Permits(host.s.jobs[j], probe(j)) {
        Mark(j);
        held := held + {j};
      }
      OneMoreProbed(before, now, host.s.jobs, todo, earlier, probe, j);
    }

    /** Durable results are applied to every row in processing that is not held back. */
    method RecoverCompletedManifests(final: JobId -> Option<Final>, held: set<JobId>, at: string) returns (restored: nat)
      requires host.Valid()
      modifies host
      ensures host.Valid() && old(host.states) <= host.states && host.s.active == old(host.s).active
      ensures OnlyRestored(old(host.s).jobs, host.s.jobs, WithStatus(old(host.s).jobs, Processing) - held, final)
      ensures restored == |RowsToRestore(old(host.s).jobs, held, final)|
    {
      ghost var before := host.s.jobs;
      var todo := WithStatus(host.s.jobs, Processing) - held;
      ghost var all := todo;
      restored := 0;
      NoneRestoredYet(before, all, final);
      while todo != {}
        invariant host.Valid() && old(host.states) <= host.states && host.s.active == old(host.s).active
        invariant Restoring(before, host.s.jobs, all, todo, final, restored)
        decreases todo
      {
        var j :| j in todo;
        restored := RestoreNext(j, final, at, before, all, todo, restored);
        todo := todo - {j};
      }
      AllRestored(before, host.s.jobs, all, final, restored);
    }

    method RestoreNext(j: JobId, final: JobId -> Option<Final>, at: string, ghost before: Db, ghost all: set<JobId>,
                       ghost todo: set<JobId>, restored: nat)
      returns (count: nat)
      requires host.Valid() && Restoring(before, host.s.jobs, all, todo, final, restored) && j in todo
      modifies host
      ensures host.Valid() && old(host.states) <= host.states && host.s.active == old(host.s).active
      ensures Restoring(before, host.s.jobs, all, todo - {j}, final, count)
    {
      ghost var now := host.s.jobs;
      StillProcessing(before, now, all, todo, final, restored, j);
      count := restored;
      if Usable(final(j)) {
        Restore(j, final(j).value, at);
        count := count + 1;
      }
      OneMoreRestored(before, now, host.s.jobs, all, todo, final, restored, j);
    }

    /** The two phases that deal with the workers of the previous run. */
    method RecoverWorkers(probe: JobId -> Probe, final: JobId -> Option<Final>, at: string) returns (restored: nat)
      requires host.Valid()
      modifies this, host
      ensures host.Valid() && old(host.states) <= host.states && host.s.active == old(host.s).active
      ensures blocked == HeldBack(old(host.s).jobs, probe) && HeldExactly(old(host.s).jobs, probe, blocked)
      ensures ResultsApplied(old(host.s).jobs, host.s.jobs, blocked, final)
      ensures restored == |RowsToRestore(old(host.s).jobs, blocked, final)|
    {
      ghost var before := host.s.jobs;
      blocked := StopRecordedOrphanedWorkers(probe);
      ghost var marked := host.s.jobs;
      restored := RecoverCompletedManifests(final, blocked, at);
      Phases(before, marked, host.s.jobs, blocked, final);
    }

    /** `recover_after_restart`: the imports are decided first, then what is left is interrupted. */
    method RecoverAllRows(notes: seq<Assign>, at: string, trouble: JobId -> Trouble)
      returns (recovered: Option<nat>, ghost how: Recovery, ghost imported: State, ghost seen: seq<State>)
      requires host.Valid() && host.s.active == None && All(Note, notes) && service.host == host
      modifies host
      ensures host.Valid() && old(host.states) <= seen <= host.states && blocked == old(blocked)
      ensures recovered.Some? <==> how.AllDecided?
      ensures how.AllDecided? ==>
        && Recovered(seen, old(host.s), imported, {}, how.turn, trouble) && WithStatus(imported.jobs, Importing) == {}
        && host.s == imported.(jobs := RecoverAfterRestart(imported.jobs, blocked))
        && recovered.value == |WithStatus(old(host.s).jobs, Importing)| + |StrandedRows(imported.jobs, blocked)|
      ensures how.CutOff? ==> RecoveryRaised(host.states, old(host.s), host.s, how, trouble)
    {
      recovered, how := service.RecoverImportingJobs(notes, at, trouble);
      imported, seen := host.s, host.states;
      if recovered.Some? {
        recovered := Some(recovered.value + |StrandedRows(host.s.jobs, blocked)|);
        InterruptStranded();
      }
    }

    /** `start`: probe the recorded workers, apply durable results, decide the imports, then
        interrupt what is left. A database error while an import is finished leaves `start`. */
    method Start(probe: JobId -> Probe, disk: JobId -> Directory, parsers: Parsers, trouble: JobId -> Trouble,
                 notes: seq<Assign>, at: string)
      returns (restored: nat, recovered: Option<nat>, ghost how: Recovery)
      requires host.Valid() && host.s.active == None && All(Note, notes) && service.host == host
      modifies this, host
      ensures host.Valid() && old(host.states) <= host.states
      ensures blocked == HeldBack(old(host.s).jobs, probe) && HeldExactly(old(host.s).jobs, probe, blocked)
      ensures restored == |RowsToRestore(old(host.s).jobs, blocked, FinalsOf(old(host.s).jobs, disk, parsers))|
      ensures recovered.Some? <==> how.AllDecided?
      ensures how.AllDecided? ==>
        && Started(old(host.s).jobs, host.s.jobs, blocked, FinalsOf(old(host.s).jobs, disk, parsers))
        && ImportsDecided(host.states, old(host.s), host.s, how.turn, trouble)
        && recovered.value == |WithStatus(old(host.s).jobs, Importing)|
             + |RowsToInterrupt(old(host.s).jobs, blocked, FinalsOf(old(host.s).jobs, disk, parsers))|
      ensures how.CutOff? ==>
        StartRaised(host.states, old(host.s), host.s, blocked, FinalsOf(old(host.s).jobs, disk, parsers), how, trouble)
    {
      ghost var before := host.s;
      var final := FinalsOf(host.s.jobs, disk, parsers);
      restored := RecoverWorkers(probe, final, at);
      ghost var results := host.s;
      ghost var imported, seen;
      recovered, how, imported, seen := RecoverAllRows(notes, at, trouble);
      if recovered.Some? {
        AllRowsDecided(seen, host.states, before, results, imported, blocked, final, how.turn, trouble);
      } else {
        RaisedInImports(host.states, before, results, host.s, blocked, final, how, trouble);
      }
    }

    /** `_on_worker_event`: the last terminal event of each job is kept. */
    method OnWorkerEvent(j: JobId, e: WorkerRun.Event)
      modifies `terminals
      ensures terminals == if WorkerRun.Terminal(e) then old(terminals)[j := e] else old(terminals)
    {
      if WorkerRun.Terminal(e) {
        terminals := terminals[j := e];
      }
    }

    /** `_on_worker_finished`: the row takes the event route, in one transaction or two. */
    method OnWorkerFinished(j: JobId, cancelledByUser: bool, now: string)
      requires host.Valid()
      modifies `terminals, host
      ensures host.Valid() && old(host.states) <= host.states && host.s.active == old(host.s).active
      ensures var terminal := if j in old(terminals) then Some(old(terminals)[j]) else None;
        host.s.jobs == Results.EventRoute(old(host.s).jobs, j, cancelledByUser, terminal, now)
      ensures terminals == if HasStatus(old(host.s), j, Processing) then old(terminals) - {j} else old(terminals)
    {
      if !HasStatus(host.s, j, Processing) {
        return;
      }
      var terminal := if j in terminals then Some(terminals[j]) else None;
      terminals := terminals - {j};
      if cancelledByUser || (terminal.Some? && terminal.value.CancelledEvent?) {
        Finish(j, Cancelled, Results.ErrorNotes(Results.CANCELLED_CODE, Results.CANCELLED_TEXT), now);
      } else if terminal.Some? && terminal.value.CompletedEvent? {
        Complete(j, terminal.value.payload, now);
      } else {
        Finish(j, JobStatus.Failed, Results.ErrorNotes(Results.FailureCode(terminal), Results.FAILED_RUN_TEXT), now);
      }
    }

    method Finish(j: JobId, target: JobStatus, notes: seq<Assign>, now: string)
      requires host.Valid() && HasStatus(host.s, j, Processing) && target in Allowed(Processing) && All(Note, notes)
      modifies host
      ensures host.Valid() && old(host.states) <= host.states && host.s.active == old(host.s).active
      ensures host.s.jobs == OrSame(old(host.s).jobs, Transition(old(host.s).jobs, j, target, notes, now))
    {
      host.Take(Table(Advance(j, target, notes, now)));
    }

    /** The result columns first, then the status; a crash between the two leaves the row in
        processing, and recovery reads the manifest instead. */
    method Complete(j: JobId, p: WorkerRun.Payload, now: string)
      requires host.Valid() && HasStatus(host.s, j, Processing)
      modifies host
      ensures host.Valid() && old(host.states) <= host.states && host.s.active == old(host.s).active
      ensures host.s.jobs == Results.RecordCompleted(old(host.s).jobs, j, p, now)
    {
      Summarise(j, Results.SummaryOf(p));
      Finish(j, if p.status == CompletedWithWarnings then CompletedWithWarnings else Completed, [], now);
    }

    method Summarise(j: JobId, summary: Summary)
      requires host.Valid() && HasStatus(host.s, j, Processing)
      modifies host
      ensures host.Valid() && old(host.states) <= host.states && host.s.active == old(host.s).active
      ensures host.s.jobs == OrSame(old(host.s).jobs, Update(old(host.s).jobs, j, SummaryColumns(summary)))
      ensures HasStatus(host.s, j, Processing)
    {
      SummaryEffect(host.s, j, summary);
      host.Take(Table(Annotate(j, SummaryColumns(summary))));
    }
  }
}
