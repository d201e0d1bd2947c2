/** Process ownership: deciding what a recorded or an unrecorded worker process has become,
    and the runner object that starts and stops the one child worker. */
module WorkerRunner {
  import opened Models

  /** One inspected process. The command line is held as its argument vector, so splitting it
      is taken to succeed. */
  datatype Inspection = Inspection(exists_: Option<bool>, executable: Option<string>, command: Option<seq<string>>)

  datatype OrphanStatus = Stopped | Absent | PidReused | Unconfirmed

  predicate PermitsRecovery(o: OrphanStatus) { o != Unconfirmed }

  const WORKER_PYTHON := "d:/whisperwork/.venv/scripts/python.exe"

  /** The name of a job's spec file; every character of a job id is kept in it. */
  function SpecName(job: JobId): string { "worker_" + job + ".json" }

  function WorkerCommand(job: JobId): seq<string> {
    [WORKER_PYTHON, "-m", "workcall_transcriber.worker", "--spec", SpecName(job)]
  }

  predicate IsExactWorker(i: Inspection, job: JobId) {
    i.executable == Some(WORKER_PYTHON) && i.command == Some(WorkerCommand(job))
  }

  /** Interpreter and all five arguments have to be those of this job's launch. */
  lemma ExactCommand(i: Inspection, job: JobId)
    ensures IsExactWorker(i, job) <==>
      && i.executable == Some("d:/whisperwork/.venv/scripts/python.exe")
      && i.command.Some? && |i.command.value| == 5 && i.command.value[0] == "d:/whisperwork/.venv/scripts/python.exe"
      && i.command.value[1] == "-m" && i.command.value[2] == "workcall_transcriber.worker"
      && i.command.value[3] == "--spec" && i.command.value[4] == "worker_" + job + ".json"
  {
    if i.command.Some? && |i.command.value| == 5 {
      var c := i.command.value;
      assert c == [c[0], c[1], c[2], c[3], c[4]];
    }
  }

  /** A process can be the exact worker of one job only. */
  lemma ExactForOneJob(i: Inspection, j: JobId, k: JobId)
    requires IsExactWorker(i, j) && IsExactWorker(i, k)
    ensures j == k
  {
    var a, b := "worker_" + j, "worker_" + k;
    assert WorkerCommand(j)[4] == a + ".json" && WorkerCommand(k)[4] == b + ".json";
    assert |a| == |b|;
    assert a == (a + ".json")[..|a|] && b == (b + ".json")[..|b|];
    assert j == a[7..] && k == b[7..];
  }

  /** What to do about a recorded pid once it has been inspected. */
  datatype Verdict = Report(status: OrphanStatus) | Terminate(pid: Pid)

  function JudgeRecorded(pid: Pid, answer: Option<Inspection>, job: JobId): Verdict {
    if pid <= 0 || answer.None? then Report(Unconfirmed)
    else if answer.value.exists_ == Some(false) then Report(Absent)
    else if answer.value.exists_ != Some(true) then Report(Unconfirmed)
    else if answer.value.command.None? || answer.value.executable.None? then Report(Unconfirmed)
    else if !IsExactWorker(answer.value, job) then Report(PidReused)
    else Terminate(pid)
  }

  type Listing = seq<(Pid, Inspection)>

  predicate Matches(entry: (Pid, Inspection), job: JobId) {
    entry.0 > 0 && entry.1.exists_ == Some(true) && IsExactWorker(entry.1, job)
  }

  function MatchingPids(list: Listing, job: JobId): (pids: seq<Pid>)
    ensures forall p :: p in pids <==> exists i :: 0 <= i < |list| && list[i].0 == p && Matches(list[i], job)
  {
    if list == [] then []
    else
      var rest := MatchingPids(list[..|list| - 1], job);
      var last := list[|list| - 1];
      if Matches(last, job) then rest + [last.0] else rest
  }

  function JudgeUnrecorded(answer: Option<Listing>, job: JobId): Verdict {
    if answer.None? then Report(Unconfirmed)
    else
      var pids := MatchingPids(answer.value, job);
      if pids == [] then Report(Absent)
      else if |pids| != 1 then Report(Unconfirmed)
      else Terminate(pids[0])
  }

  // ----- the operating system, as far as the program can see it -----

  datatype Proc = Worker(job: JobId) | Other

  type Procs = map<Pid, Proc>

  /** An inspector that answers tells the truth about the process it names. */
  ghost predicate TruthfulInspection(procs: Procs, pid: Pid, i: Inspection) {
    && (i.exists_ == Some(false) ==> pid !in procs)
    && (i.exists_ == Some(true) && i.executable.Some? && i.command.Some? ==>
        pid in procs && forall j: JobId :: IsExactWorker(i, j) <==> procs[pid] == Worker(j))
  }

  /** A lister that answers lists every running worker with its command line. */
  ghost predicate TruthfulListing(procs: Procs, list: Listing) {
    forall p, j: JobId | p in procs && procs[p] == Worker(j)
      :: exists i :: 0 <= i < |list| && list[i].0 == p && Matches(list[i], j)
  }

  ghost predicate NoWorker(procs: Procs, job: JobId) {
    forall p | p in procs :: procs[p] != Worker(job)
  }

  ghost predicate OnlyAt(procs: Procs, job: JobId, pid: Pid) {
    forall p | p in procs :: procs[p] == Worker(job) ==> p == pid
  }

  /** A recorded pid settles the question: the job's worker is gone, or it is that process. */
  lemma RecordedVerdict(procs: Procs, pid: Pid, answer: Option<Inspection>, job: JobId)
    requires OnlyAt(procs, job, pid)
    requires answer.Some? ==> TruthfulInspection(procs, pid, answer.value)
    ensures match JudgeRecorded(pid, answer, job)
      case Report(o) => PermitsRecovery(o) ==> NoWorker(procs, job)
      case Terminate(victim) => victim == pid && pid in procs && procs[pid] == Worker(job)
  {
  }

  /** A full answer about a recorded pid decides: the worker is named for termination, and a row
      without a worker is let go, whether the pid is free or another's by now. */
  lemma RecordedDecides(procs: Procs, pid: Pid, i: Inspection, job: JobId)
    requires OnlyAt(procs, job, pid) && TruthfulInspection(procs, pid, i) && pid > 0 && FullAnswer(i)
    ensures JudgeRecorded(pid, Some(i), job)
         == if !NoWorker(procs, job) then Terminate(pid) else Report(if i.exists_ == Some(true) then PidReused else Absent)
  {
  }

  predicate FullAnswer(i: Inspection) {
    i.exists_ == Some(false) || (i.exists_ == Some(true) && i.executable.Some? && i.command.Some?)
  }

  /** Without a recorded pid the listing settles it. */
  lemma UnrecordedVerdict(procs: Procs, answer: Option<Listing>, job: JobId)
    requires answer.Some? ==> TruthfulListing(procs, answer.value)
    ensures match JudgeUnrecorded(answer, job)
      case Report(o) => PermitsRecovery(o) ==> NoWorker(procs, job)
      case Terminate(victim) => OnlyAt(procs, job, victim)
  {
    if answer.Some? {
      forall p | p in procs && procs[p] == Worker(job) ensures p in MatchingPids(answer.value, job) {}
    }
  }

  /** A listing without a match lets the row go; a single match is named for termination. */
  lemma UnrecordedDecides(list: Listing, job: JobId, n: nat)
    requires n < |list| && Matches(list[n], job) ==> forall i :: 0 <= i < |list| && i != n ==> !Matches(list[i], job)
    ensures (forall i :: 0 <= i < |list| ==> !Matches(list[i], job)) ==> JudgeUnrecorded(Some(list), job) == Report(Absent)
    ensures n < |list| && Matches(list[n], job) ==> JudgeUnrecorded(Some(list), job) == Terminate(list[n].0)
  {
    if forall i :: 0 <= i < |list| ==> !Matches(list[i], job) {
      NoMatch(list, job);
    } else if n < |list| && Matches(list[n], job) {
      SingleMatch(list, job, n);
    }
  }

  lemma {:induction false} SingleMatch(list: Listing, job: JobId, n: nat)
    requires n < |list| && Matches(list[n], job)
    requires forall i :: 0 <= i < |list| && i != n ==> !Matches(list[i], job)
    ensures MatchingPids(list, job) == [list[n].0]
  {
    var front := list[..|list| - 1];
    if n < |front| {
      SingleMatch(front, job, n);
    } else {
      NoMatch(front, job);
    }
  }

  lemma {:induction false} NoMatch(list: Listing, job: JobId)
    requires forall i :: 0 <= i < |list| ==> !Matches(list[i], job)
    ensures MatchingPids(list, job) == []
  {
    if list != [] { NoMatch(list[..|list| - 1], job); }
  }

  // ----- the runner object -----

  /** No worker appears on its own. */
  predicate Drifted(before: Procs, after: Procs) {
    forall p | p in after && after[p].Worker? :: p in before && before[p] == after[p]
  }

  /** The process table, changed by launches and terminations, and by itself. */
  class OperatingSystem {
    var procs: Procs

    constructor ()
      ensures procs == map[]
    {
      procs := map[];
    }

    /** Time passes: workers may exit, other processes come and go, and pids are reused. */
    method Drift()
      modifies this
      ensures Drifted(old(procs), procs)
    {
      assert Drifted(procs, procs);
      var later: Procs :| Drifted(procs, later);
      procs := later;
    }

    /** taskkill: a report of success means the process is gone. */
    method TerminateTree(pid: Pid, succeeds: bool) returns (ok: bool)
      modifies this
      ensures ok == (pid > 0 && succeeds)
      ensures procs == if ok then old(procs) - {pid} else old(procs)
    {
      ok := pid > 0 && succeeds;
      if ok {
        procs := procs - {pid};
      }
    }
  }

  datatype Current = Current(job: JobId, pid: Pid)

  datatype Launch = Started(pid: Pid) | Busy | Raised

  class Runner {
    const os: OperatingSystem
    var current: Option<Current>
    var cancelledByUser: bool

    constructor (os: OperatingSystem)
      ensures this.os == os && current == None && !cancelledByUser
    {
      this.os := os;
      current := None;
      cancelledByUser := false;
    }

    predicate CurrentAlive()
      reads this, os
    {
      current.Some? && current.value.pid in os.procs && os.procs[current.value.pid] == Worker(current.value.job)
    }

    /** Launches the child unless one is alive. `recorded` says whether writing the pid to the
        job table succeeded; when it did not, the child is terminated again. `watches` says whether
        the thread that watches the child could be started; when not, the child is left alone. */
    method Start(job: JobId, pid: Pid, spawns: bool, recorded: bool, terminates: bool, watches: bool) returns (r: Launch)
      requires pid > 0 && pid !in os.procs
      modifies this, os
      ensures r.Busy? <==> old(CurrentAlive())
      ensures r.Busy? ==> os.procs == old(os.procs) && current == old(current)
      ensures r.Started? ==> r.pid == pid && os.procs == old(os.procs)[pid := Worker(job)] && CurrentAlive()
      ensures r.Started? <==> !old(CurrentAlive()) && spawns && recorded && watches
      ensures r.Raised? && !spawns ==> os.procs == old(os.procs) && current == old(current)
      ensures r.Raised? && spawns && !recorded ==> current == None
      ensures r.Raised? && spawns && !recorded ==>
        os.procs == if terminates then old(os.procs) else old(os.procs)[pid := Worker(job)]
      ensures r.Raised? && spawns && recorded ==> CurrentAlive() && os.procs == old(os.procs)[pid := Worker(job)]
      ensures r.Raised? && OnlyAt(old(os.procs), job, pid)
          ==> (NoWorker(os.procs, job) <==> !spawns || (!recorded && terminates))
    {
      if CurrentAlive() {
        return Busy;
      }
      if !spawns {
        return Raised;
      }
      os.procs := os.procs[pid := Worker(job)];
      current := Some(Current(job, pid));
      cancelledByUser := false;
      if !recorded {
        current := None;
        var ok := os.TerminateTree(pid, terminates);
        assert !ok ==> os.procs[pid] == Worker(job);
        return Raised;
      }
      if !watches {
        assert os.procs[pid] == Worker(job);
        return Raised;
      }
      r := Started(pid);
    }

    method StopCurrent(succeeds: bool) returns (ok: bool)
      modifies this, os
      ensures ok ==> old(CurrentAlive()) && cancelledByUser && os.procs == old(os.procs) - {old(current).value.pid}
      ensures !ok ==> os.procs == old(os.procs)
      ensures current == old(current)
    {
      if !CurrentAlive() {
        return false;
      }
      cancelledByUser := true;
      ok := os.TerminateTree(current.value.pid, succeeds);
    }

    /** Recovery is permitted only once the recorded worker of this job is dead. One process at most
        is terminated: the one at the recorded pid, which was that worker when it was inspected. By
        the time it is terminated the worker may have exited and its pid may be another's. */
    method StopOrphanedWorker(pid: Pid, job: JobId, answer: Option<Inspection>, terminates: bool)
      returns (o: OrphanStatus, ghost drifted: Procs)
      requires OnlyAt(os.procs, job, pid)
      requires answer.Some? ==> TruthfulInspection(os.procs, pid, answer.value)
      modifies os
      ensures PermitsRecovery(o) ==> NoWorker(os.procs, job)
      ensures Drifted(old(os.procs), drifted)
      ensures os.procs == if o == Stopped then drifted - {pid} else drifted
      ensures o == Stopped ==> pid in old(os.procs) && old(os.procs)[pid] == Worker(job)
    {
      RecordedVerdict(os.procs, pid, answer, job);
      drifted := os.procs;
      match JudgeRecorded(pid, answer, job)
      case Report(status) => o := status;
      case Terminate(victim) =>
        os.Drift();
        drifted := os.procs;
        var ok := os.TerminateTree(victim, terminates);
        o := if ok then Stopped else Unconfirmed;
    }

    /** Without a recorded pid: the one process terminated is the only one that can be the worker. */
    method StopUnrecordedWorker(job: JobId, answer: Option<Listing>, terminates: bool)
      returns (o: OrphanStatus, ghost drifted: Procs, ghost victim: Pid)
      requires answer.Some? ==> TruthfulListing(os.procs, answer.value)
      modifies os
      ensures PermitsRecovery(o) ==> NoWorker(os.procs, job)
      ensures Drifted(old(os.procs), drifted)
      ensures os.procs == if o == Stopped then drifted - {victim} else drifted
      ensures o == Stopped ==> answer.Some? && MatchingPids(answer.value, job) == [victim] && OnlyAt(old(os.procs), job, victim)
    {
      drifted, victim := os.procs, 0;
      if answer.None? {
        return Unconfirmed, drifted, victim;
      }
      UnrecordedVerdict(os.procs, answer, job);
      var matches := FindMatching(answer.value, job);
      if matches == [] {
        return Absent, drifted, victim;
      }
      if |matches| != 1 {
        return Unconfirmed, drifted, victim;
      }
      assert matches == [matches[0]];
      os.Drift();
      drifted, victim := os.procs, matches[0];
      var ok := os.TerminateTree(matches[0], terminates);
      o := if ok then Stopped else Unconfirmed;
    }

    method FindMatching(list: Listing, job: JobId) returns (matches: seq<Pid>)
      ensures matches == MatchingPids(list, job)
    {
      matches := [];
      var i := 0;
      while i < |list|
        invariant 0 <= i <= |list|
        invariant matches == MatchingPids(list[..i], job)
      {
        assert list[..i + 1][..i] == list[..i];
        if Matches(list[i], job) {
          matches := matches + [list[i].0];
        }
        i := i + 1;
      }
      assert list[..i] == list;
    }
  }
}
