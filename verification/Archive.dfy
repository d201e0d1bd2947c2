/** `ArchiveManager`: fresh job directories, and imports that move or copy a recording one
    file-system primitive at a time. */
module Archive {
  import opened Models
  import opened Text
  import opened ImportProtocol
  import opened ImportHost

  /** What the operating system makes of the calls of one import. `moved` says whether a move
      that reported an error had nevertheless happened; `partial` and `copied` are what the
      evidence file holds halfway through the copy and at its end. */
  datatype Faults = Faults(
    noSpace: bool, moveRaises: bool, moved: bool,
    partial: Bytes, copied: Bytes, copyRaises: bool, replaceRaises: bool,
    unlinkRaises: bool, readRaises: bool)

  predicate SourceIntact(s: State, a: Acceptance) { a.source in s.files && s.files[a.source] == a.bytes }

  predicate Published(s: State, a: Acceptance) { a.target in s.files && s.files[a.target] == a.bytes }

  function ImportedFrom(a: Acceptance): Imported
    requires IsTarget(a.target)
  {
    Imported(a.target.dir, a.target, |a.bytes|, a.bytes)
  }

  // ----- directory names -----

  /** The n-th name tried: the base name, then the base name with _2, _3, ... */
  function Candidate(base: string, n: nat): string
    requires 1 <= n
  {
    if n == 1 then base else base + "_" + Decimal(n)
  }

  lemma CandidatesDiffer(base: string, m: nat, n: nat)
    requires 1 <= m && 1 <= n && Candidate(base, m) == Candidate(base, n)
    ensures m == n
  {
    if m > 1 && n > 1 {
      var p := base + "_";
      assert (p + Decimal(m))[|p|..] == Decimal(m) && (p + Decimal(n))[|p|..] == Decimal(n);
      DecimalInjective(m, n);
    }
  }

  function Tried(base: string, n: nat): set<string> { set k | 1 <= k < n :: Candidate(base, k) }

  /** Pigeonhole: the names tried are all different. */
  lemma {:induction false} TriedSize(base: string, n: nat)
    requires 1 <= n
    ensures |Tried(base, n)| == n - 1
  {
    if n > 1 {
      TriedSize(base, n - 1);
      var last := Candidate(base, n - 1);
      assert last !in Tried(base, n - 1) by {
        if k :| 1 <= k < n - 1 && Candidate(base, k) == last { CandidatesDiffer(base, k, n - 1); }
      }
      assert Tried(base, n) == Tried(base, n - 1) + {last};
    } else {
      assert Tried(base, n) == {};
    }
  }

  lemma TriedFit(base: string, n: nat, dirs: set<string>)
    requires 1 <= n && Tried(base, n) <= dirs
    ensures n - 1 <= |dirs|
  {
    TriedSize(base, n);
    assert dirs == Tried(base, n) + (dirs - Tried(base, n));
  }

  // ----- an import under way -----

  /** The recording is at its source and nothing is published yet. */
  predicate Poised(s: State, a: Acceptance) {
    && AtWork(s, a) && s.jobs[a.job].sourcePath == a.source && a.source != StagingOf(a.target)
    && SourceIntact(s, a) && a.target !in s.files
  }

  class ArchiveManager {
    const host: Host

    constructor (host: Host)
      ensures this.host == host
    {
      this.host := host;
    }

    /** Ends for every directory content, with the first free name, after no more tries than
        there are directories. */
    method CreateJobDirectory(base: string) returns (dir: string)
      requires host.Valid()
      modifies host
      ensures host.Valid() && old(host.states) <= host.states
      ensures dir !in old(host.s).dirs
      ensures host.s == old(host.s).(dirs := old(host.s).dirs + {dir}, active := Owning(old(host.s).active, dir))
      ensures exists n :: 1 <= n <= |old(host.s).dirs| + 1 && dir == Candidate(base, n)
                && Tried(base, n) <= old(host.s).dirs
    {
      dir := base;
      var suffix := 2;
      while dir in host.s.dirs
        invariant host.Valid() && host.s == old(host.s) && host.states == old(host.states)
        invariant 2 <= suffix && dir == Candidate(base, suffix - 1)
        invariant Tried(base, suffix - 1) <= host.s.dirs
        decreases |host.s.dirs| + 2 - suffix
      {
        assert Tried(base, suffix) == Tried(base, suffix - 1) + {dir};
        TriedFit(base, suffix, host.s.dirs);
        dir := base + "_" + Decimal(suffix);
        suffix := suffix + 1;
      }
      TriedFit(base, suffix - 1, host.s.dirs);
      host.Take(Control(MakeDir(dir)));
    }

    // ----- single primitives, each followed by whatever others do -----

    method Move(a: Acceptance)
      requires host.Valid() && Poised(host.s, a) && host.s.jobs[a.job].origin == Inbox
      modifies host
      ensures host.Valid() && old(host.states) <= host.states && RowKept(old(host.s), host.s, a.job)
      ensures Published(host.s, a) && a.source !in host.s.files
    {
      host.Take(File(MoveSource(a)));
      host.OthersAct(a.job, false);
    }

    method Write(a: Acceptance, data: Bytes)
      requires host.Valid() && Poised(host.s, a)
      modifies host
      ensures host.Valid() && old(host.states) <= host.states && RowKept(old(host.s), host.s, a.job)
      ensures Poised(host.s, a) && StagingOf(a.target) in host.s.files && host.s.files[StagingOf(a.target)] == data
    {
      host.Take(File(CopyInto(a, data)));
      host.OthersAct(a.job, false);
    }

    method Replace(a: Acceptance)
      requires host.Valid() && Poised(host.s, a)
      requires StagingOf(a.target) in host.s.files && host.s.files[StagingOf(a.target)] == a.bytes
      modifies host
      ensures host.Valid() && old(host.states) <= host.states && RowKept(old(host.s), host.s, a.job)
      ensures Published(host.s, a) && SourceIntact(host.s, a)
    {
      host.Take(File(Publish(a)));
      host.OthersAct(a.job, false);
    }

    method Unlink(a: Acceptance)
      requires host.Valid() && AtWork(host.s, a) && host.s.jobs[a.job].origin == Inbox
      requires host.s.jobs[a.job].sourcePath == a.source && a.source != a.target
      requires Published(host.s, a) && SourceIntact(host.s, a)
      modifies host
      ensures host.Valid() && old(host.states) <= host.states && RowKept(old(host.s), host.s, a.job)
      ensures Published(host.s, a) && a.source !in host.s.files
    {
      host.Take(File(RemoveSource(a)));
      host.OthersAct(a.job, false);
    }

    // ----- imports -----

    /** Copies into the evidence file and publishes it only when it holds the recording. */
    method CopyVerified(a: Acceptance, f: Faults) returns (ok: bool)
      requires host.Valid() && Poised(host.s, a)
      modifies host
      ensures host.Valid() && old(host.states) <= host.states && RowKept(old(host.s), host.s, a.job)
      ensures SourceIntact(host.s, a) && if ok then Published(host.s, a) else a.target !in host.s.files
      ensures ok <==> !(StagingOf(a.target) in old(host.s).files || f.copyRaises || f.copied != a.bytes || f.replaceRaises)
    {
      var staging := StagingOf(a.target);
      if staging in host.s.files {
        return false;
      }
      var copied := Copy(a, f);
      if !copied || host.s.files[staging] != a.bytes {
        return false;
      }
      if f.replaceRaises {
        return false;
      }
      Replace(a);
      ok := true;
    }

    /** Fills the evidence file, which others see partly written first. */
    method Copy(a: Acceptance, f: Faults) returns (ok: bool)
      requires host.Valid() && Poised(host.s, a)
      modifies host
      ensures host.Valid() && old(host.states) <= host.states && RowKept(old(host.s), host.s, a.job)
      ensures Poised(host.s, a) && ok == !f.copyRaises
      ensures ok ==> StagingOf(a.target) in host.s.files && host.s.files[StagingOf(a.target)] == f.copied
    {
      Write(a, f.partial);
      ok := !f.copyRaises;
      if ok {
        Write(a, f.copied);
      }
    }

    method ReadBack(a: Acceptance, f: Faults) returns (r: Option<Imported>)
      requires host.Valid() && IsTarget(a.target)
      ensures r == if a.target in host.s.files && !f.readRaises
                   then Some(Imported(a.target.dir, a.target, |host.s.files[a.target]|, host.s.files[a.target])) else None
    {
      if a.target !in host.s.files || f.readRaises {
        return None;
      }
      r := Some(Imported(a.target.dir, a.target, |host.s.files[a.target]|, host.s.files[a.target]));
    }

    /** Success: published, and the Inbox source is gone. Failure: the source is intact, unless
        the import was over and only reading the published original back failed. */
    method ImportInbox(a: Acceptance, f: Faults) returns (r: Option<Imported>)
      requires host.Valid() && Poised(host.s, a) && host.s.jobs[a.job].origin == Inbox
      modifies host
      ensures host.Valid() && old(host.states) <= host.states && RowKept(old(host.s), host.s, a.job)
      ensures r.Some? ==> r.value == ImportedFrom(a) && Published(host.s, a) && a.source !in host.s.files
      ensures r.None? ==> SourceIntact(host.s, a) || (f.readRaises && Published(host.s, a) && a.source !in host.s.files)
    {
      if f.noSpace {
        return None;
      }
      if !f.moveRaises || f.moved {
        Move(a);
      }
      if f.moveRaises && !(a.source !in host.s.files && a.target in host.s.files) {
        var ok := CopyVerified(a, f);
        if !ok || f.unlinkRaises {
          return None;
        }
        Unlink(a);
      }
      r := ReadBack(a, f);
    }

    /** A manual source is never touched, whatever fails. */
    method CopyManual(a: Acceptance, f: Faults) returns (r: Option<Imported>)
      requires host.Valid() && Poised(host.s, a)
      modifies host
      ensures host.Valid() && old(host.states) <= host.states && RowKept(old(host.s), host.s, a.job)
      ensures SourceIntact(host.s, a)
      ensures r.Some? ==> r.value == ImportedFrom(a) && Published(host.s, a)
    {
      if f.noSpace {
        return None;
      }
      var ok := CopyVerified(a, f);
      if !ok {
        return None;
      }
      r := ReadBack(a, f);
    }
  }
}
