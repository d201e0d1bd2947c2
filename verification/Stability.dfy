/** When a file in the Inbox counts as finished: one assessment, and what a STABLE verdict says
    about everything that was observed before it. */
module Stability {
  import opened Models

  datatype Stat = NotFound | StatError | Stat(size: int, mtime: int)

  datatype StabilityState = Ineligible | Missing | Changed | Waiting | Unreadable | Unprobeable | Stable

  datatype Assessment = Assessment(state: StabilityState, observation: Option<Observation>)

  /** One reconciliation pass: what the disk, the clock and the probe answered. Times and the
      window are in microseconds. */
  datatype Pass = Pass(supported: bool, stat: Stat, now: int, window: int, opens: bool, probes: bool)

  function Assess(p: Pass, previous: Option<Observation>): Assessment {
    if !p.supported then Assessment(Ineligible, previous)
    else if p.stat.NotFound? then Assessment(Missing, previous)
    else if p.stat.StatError? then Assessment(Unreadable, previous)
    else if p.stat.size <= 0 then Assessment(Ineligible, previous)
    else if previous.None? || p.stat.size != previous.value.size || p.stat.mtime != previous.value.mtime then
      Assessment(Changed, Some(Observation(p.stat.size, p.stat.mtime, p.now)))
    else if p.now - previous.value.stableSince < p.window then Assessment(Waiting, previous)
    else if !p.opens then Assessment(Unreadable, previous)
    else if !p.probes then Assessment(Unprobeable, previous)
    else Assessment(Stable, previous)
  }

  // ----- when each verdict is given -----

  /** Not a media file, or an empty one. */
  predicate Barred(p: Pass) { !p.supported || (p.stat.Stat? && p.stat.size <= 0) }

  predicate Gone(p: Pass) { p.supported && p.stat == NotFound }

  /** There is something in the file, and it was seen with this size and time before. */
  predicate Known(p: Pass, previous: Option<Observation>) {
    p.supported && p.stat.Stat? && p.stat.size > 0
    && previous.Some? && previous.value.size == p.stat.size && previous.value.mtime == p.stat.mtime
  }

  predicate New(p: Pass, previous: Option<Observation>) {
    p.supported && p.stat.Stat? && p.stat.size > 0
    && (previous.Some? ==> previous.value.size != p.stat.size || previous.value.mtime != p.stat.mtime)
  }

  /** The file has been as it is for the whole window. */
  predicate HeldStill(p: Pass, previous: Option<Observation>) {
    Known(p, previous) && p.now >= previous.value.stableSince + p.window
  }

  /** Each verdict has its exact condition; in particular a file is STABLE only if it can be opened
      and probed. Only a file seen as new is observed anew. */
  lemma VerdictsExactly(p: Pass, previous: Option<Observation>)
    ensures var a := Assess(p, previous);
      && (a.state == Stable <==> HeldStill(p, previous) && p.opens && p.probes)
      && (a.state == Unprobeable <==> HeldStill(p, previous) && p.opens && !p.probes)
      && (a.state == Unreadable <==> (p.supported && p.stat == StatError) || (HeldStill(p, previous) && !p.opens))
      && (a.state == Waiting <==> Known(p, previous) && !HeldStill(p, previous))
      && (a.state == Changed <==> New(p, previous))
      && (a.state == Missing <==> Gone(p)) && (a.state == Ineligible <==> Barred(p))
      && a.observation == if New(p, previous) then Some(Observation(p.stat.size, p.stat.mtime, p.now)) else previous
  {
  }

  // ----- over a row's life -----

  /** The row leaves WAITING_FOR_STABLE after these. */
  predicate Leaves(st: StabilityState) { st in {Ineligible, Missing, Stable} }

  /** The life of one row's observation columns: detection writes them, a pass may rewrite them,
      a retry that imports again clears them. */
  datatype Event = Detection(size: int, mtime: int, at: int) | Reconcile(pass: Pass) | Reimport

  function ObservationAfter(events: seq<Event>): Option<Observation> {
    if events == [] then None
    else
      var before := ObservationAfter(events[..|events| - 1]);
      match events[|events| - 1]
      case Detection(size, mtime, at) => Some(Observation(size, mtime, at))
      case Reimport => None
      case Reconcile(p) =>
        var a := Assess(p, before);
        if a.observation.Some? then a.observation else before
  }

  function VerdictAt(events: seq<Event>, i: nat): StabilityState
    requires i < |events| && events[i].Reconcile?
  {
    Assess(events[i].pass, ObservationAfter(events[..i])).state
  }

  /** A row that has left the waiting state is not assessed again before a retry. Detection may
      write the columns at any time: the watcher and the reconciler can both find the same file. */
  ghost predicate Lifelike(events: seq<Event>) {
    forall i, j :: 0 <= i < j < |events| && events[i].Reconcile? && events[j].Reconcile? && Leaves(VerdictAt(events, i)) ==>
      exists m :: i < m < j && events[m].Reimport?
  }

  /** Event k first saw this size and modification time, at `since`. */
  predicate FirstSight(e: Event, o: Observation) {
    match e
    case Detection(size, mtime, at) => o == Observation(size, mtime, at)
    case Reconcile(p) => p.stat.Stat? && o == Observation(p.stat.size, p.stat.mtime, p.now)
    case Reimport => false
  }

  /** A pass that got an answer got this size and modification time. */
  predicate SawSame(e: Event, o: Observation) {
    e.Reconcile? && (e.pass.stat.Stat? ==> e.pass.stat.size == o.size && e.pass.stat.mtime == o.mtime)
  }

  /** The observation a pass at `final` goes by was recorded by event k, and every event since then
      is a pass that saw the same. */
  lemma {:induction false} RecordedSince(events: seq<Event>, n: nat, final: nat) returns (k: nat)
    requires Lifelike(events) && n <= final < |events| && events[final].Reconcile? && ObservationAfter(events[..n]).Some?
    requires forall i :: n <= i < final ==> !events[i].Reimport?
    ensures k < n && FirstSight(events[k], ObservationAfter(events[..n]).value)
    ensures ObservationAfter(events[..n]) == ObservationAfter(events[..k + 1])
    ensures events[k].Detection? || ObservationAfter(events[..k]) != ObservationAfter(events[..n])
    ensures forall i :: k < i < n ==> SawSame(events[i], ObservationAfter(events[..n]).value)
  {
    var o := ObservationAfter(events[..n]).value;
    var e := events[n - 1];
    assert events[..n][..n - 1] == events[..n - 1];
    assert ObservationAfter(events[..n]) == match e
      case Detection(size, mtime, at) => Some(Observation(size, mtime, at))
      case Reimport => None
      case Reconcile(p) =>
        var a := Assess(p, ObservationAfter(events[..n - 1]));
        if a.observation.Some? then a.observation else ObservationAfter(events[..n - 1]);
    if e.Detection? || ObservationAfter(events[..n - 1]) != Some(o) {
      k := n - 1;
    } else {
      assert e.Reconcile? && !Leaves(VerdictAt(events, n - 1));
      k := RecordedSince(events, n - 1, final);
    }
  }

  /** If a pass finds the file STABLE, then some earlier event recorded exactly the size and
      modification time it sees now, at least the whole window ago, every pass in between that
      could read the file saw the same, and no retry cleared the record meanwhile. */
  lemma StableMeansQuiet(events: seq<Event>, n: nat)
    requires Lifelike(events) && n < |events| && events[n].Reconcile? && VerdictAt(events, n) == Stable
    ensures exists k: nat, o: Observation ::
      && k < n && FirstSight(events[k], o) && events[n].pass.now - o.stableSince >= events[n].pass.window
      && events[n].pass.stat == Stat(o.size, o.mtime) && events[n].pass.opens && events[n].pass.probes
      && forall i :: k < i < n ==> SawSame(events[i], o)
  {
    var o := ObservationAfter(events[..n]).value;
    VerdictsExactly(events[n].pass, Some(o));
    var k := RecordedSince(events, n, n);
    assert FirstSight(events[k], o);
  }

  /** The file is seen as new: a detection, or a pass that finds it changed. */
  predicate NewSight(events: seq<Event>, k: nat) {
    k < |events| && (events[k].Detection? || (events[k].Reconcile? && VerdictAt(events, k) == Changed))
  }

  function SeenAt(e: Event): int
    requires !e.Reimport?
  {
    if e.Detection? then e.at else e.pass.now
  }

  /** After a change, or after a retry that imports again, no pass is STABLE before a whole new
      window has gone by since the file was next seen as new. */
  lemma ChangeRestartsWindow(events: seq<Event>, m: nat, n: nat)
    requires Lifelike(events) && m < n < |events| && events[n].Reconcile?
    requires events[m].Reimport? || NewSight(events, m)
    requires VerdictAt(events, n) == Stable
    ensures exists k: nat :: m <= k < n && NewSight(events, k) && events[n].pass.now - SeenAt(events[k]) >= events[n].pass.window
  {
    var o := ObservationAfter(events[..n]).value;
    var k := RecordedSince(events, n, n);
    if k < m {
      assert SawSame(events[m], o);
      ChangedIsFirstSight(events, m);
      SameUntil(events, k, m, o);
    }
    if events[k].Reconcile? { FirstSightIsChange(events, k, o); }
    assert NewSight(events, k);
  }

  lemma FirstSightIsChange(events: seq<Event>, k: nat, o: Observation)
    requires k < |events| && events[k].Reconcile? && ObservationAfter(events[..k + 1]) == Some(o)
    requires ObservationAfter(events[..k]) != Some(o)
    ensures VerdictAt(events, k) == Changed
  {
    assert events[..k + 1][..k] == events[..k];
  }

  lemma ChangedIsFirstSight(events: seq<Event>, m: nat)
    requires m < |events| && events[m].Reconcile? && VerdictAt(events, m) == Changed
    ensures FirstSight(events[m], ObservationAfter(events[..m + 1]).value)
    ensures ObservationAfter(events[..m]) == None || !SawSame(events[m], ObservationAfter(events[..m]).value)
  {
    assert events[..m + 1][..m] == events[..m];
  }

  /** An observation stands as long as the passes after it see the same. */
  lemma {:induction false} SameUntil(events: seq<Event>, k: nat, m: nat, o: Observation)
    requires k < m <= |events| && (forall i :: k < i < m ==> SawSame(events[i], o))
    requires ObservationAfter(events[..k + 1]) == Some(o)
    ensures ObservationAfter(events[..m]) == Some(o)
  {
    assert events[..m][..m - 1] == events[..m - 1];
    if k + 1 < m {
      SameUntil(events, k, m - 1, o);
      assert SawSame(events[m - 1], o);
    }
  }
}
