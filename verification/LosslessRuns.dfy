/** The lossy log of every run loses nothing for the survival curve. */
module LosslessRuns {
  import opened Common
  import opened Samples
  import opened Sampling
  import opened MatchSets
  import opened Survival
  import opened SurvivalLaw
  import opened LosslessLog
  import opened Machine
  import opened NoDanglingWindows

  /** Every pair that is evaluated has a database id. */
  ghost predicate IdsKnown(s: State, e: Event) {
    e.Evaluate? ==> e.k in s.ids
  }

  /** The first evaluation after a close marker is recorded. */
  ghost predicate Resumed(s: State, e: Event) {
    e.Evaluate? && e.k in s.tracked ==>
      forall u {:trigger Newest(s.all, u)} :: Newest(s.all, u) && u.pair == e.k && IsMarker(u) ==> ReasonOf(s, e).Some?
  }

  ghost function Openers(R: set<Sample>): set<Sample> {
    set r {:trigger Opens(R, r)} | r in R && Opens(R, r)
  }

  /** The entry of a pair speaks of its newest row. */
  ghost predicate EntriesCurrent(s: State) {
    && (forall r {:trigger Newest(s.all, r)} :: Newest(s.all, r) ==>
          && (Viable(r) <==> r.pair in s.entries && s.entries[r.pair].wasViable)
          && (IsMarker(r) ==> r.pair !in s.entries))
    && (forall k {:trigger k in s.entries} :: k in s.entries ==>
          k in s.ids && exists r {:trigger Newest(s.all, r)} :: Newest(s.all, r) && r.pair == k)
  }

  ghost predicate Faithful(s: State) {
    && LogOf(s.all, s.written) && MarkersClose(s.all) && EntriesCurrent(s)
    && s.windows == |Openers(s.all)|
  }

  lemma EvaluationAppends(s: State, e: Event)
    requires e.Evaluate? && Enabled(s, e)
    ensures Appends(s.all, {RowOf(s, e)})
  {
  }

  lemma EvaluateKeepsLog(s: State, e: Event)
    requires Faithful(s) && e.Evaluate? && Enabled(s, e) && IdsKnown(s, e)
    ensures LogOf(Next(s, e).all, Next(s, e).written)
  {
    var t, row := Next(s, e), RowOf(s, e);
    var M := {row};
    EvaluationAppends(s, e);
    KeyedAppended(s.all, M);
    forall r, p | r in t.all && r !in t.written && Precedes(t.all, p, r) ensures !Viable(p) {
      if r in s.all {
        OldPredecessors(s.all, M, r, p);
      } else {
        NewPredecessors(s.all, M, row, p);
      }
    }
  }

  lemma EvaluateKeepsMarkers(s: State, e: Event)
    requires Faithful(s) && e.Evaluate? && Enabled(s, e)
    ensures MarkersClose(Next(s, e).all)
  {
    var t, M := Next(s, e), {RowOf(s, e)};
    EvaluationAppends(s, e);
    forall r | r in t.all && IsMarker(r)
      ensures !Viable(r) && exists p {:trigger Precedes(t.all, p, r)} :: Precedes(t.all, p, r) && Viable(p)
    {
      assert r in s.all;
      var p :| Precedes(s.all, p, r) && Viable(p);
      OldPredecessors(s.all, M, r, p);
    }
  }

  lemma EvaluateKeepsEntries(s: State, e: Event)
    requires Faithful(s) && e.Evaluate? && Enabled(s, e) && IdsKnown(s, e)
    ensures EntriesCurrent(Next(s, e))
  {
    var t, row := Next(s, e), RowOf(s, e);
    var M := {row};
    EvaluationAppends(s, e);
    AppendedIsNewest(s.all, M, row);
    forall r | Newest(t.all, r)
      ensures Viable(r) <==> r.pair in t.entries && t.entries[r.pair].wasViable
      ensures IsMarker(r) ==> r.pair !in t.entries
    {
      NewestAppended(s.all, M, r);
      assert r != row ==> r.pair != e.k;
    }
    forall k | k in t.entries ensures exists r {:trigger Newest(t.all, r)} :: Newest(t.all, r) && r.pair == k {
      if k != e.k {
        var r :| Newest(s.all, r) && r.pair == k;
        assert Newest(t.all, r);
      }
    }
  }

  lemma EvaluateOpens(s: State, e: Event)
    requires Faithful(s) && e.Evaluate? && Enabled(s, e)
    ensures Opens(Next(s, e).all, RowOf(s, e)) <==> e.ev.size > 0 && !Entry(s, e.k).wasViable
  {
    var t, row := Next(s, e), RowOf(s, e);
    EvaluationAppends(s, e);
    forall p ensures Precedes(t.all, p, row) <==> Newest(s.all, p) && p.pair == e.k {
      NewPredecessors(s.all, {row}, row, p);
    }
    if Entry(s, e.k).wasViable {
      var p :| Newest(s.all, p) && p.pair == e.k;
      assert Precedes(t.all, p, row) && Viable(p);
    }
  }

  lemma EvaluateCountsWindows(s: State, e: Event)
    requires Faithful(s) && e.Evaluate? && Enabled(s, e)
    ensures Next(s, e).windows == |Openers(Next(s, e).all)|
  {
    var t, row := Next(s, e), RowOf(s, e);
    EvaluationAppends(s, e);
    EvaluateOpens(s, e);
    assert row !in s.all;
    forall x | x in s.all ensures Opens(t.all, x) <==> Opens(s.all, x) {
      OldOpenings(s.all, {row}, x);
    }
    if Opens(t.all, row) {
      assert Openers(t.all) == Openers(s.all) + {row};
    } else {
      assert Openers(t.all) == Openers(s.all);
    }
  }

  // ---- the refresh ----

  lemma MarkerFollowsViable(s: State, wall: int, m: Sample)
    requires Faithful(s) && Consistent(s) && s.cycle.Synced? && Enabled(s, CloseAndApply(wall))
    requires m in Markers(s, s.cycle.diff.dropped, wall)
    ensures exists p {:trigger Newest(s.all, p)} :: Newest(s.all, p) && p.pair == m.pair && Viable(p)
  {
    MarkerRows(s, s.cycle.diff.dropped, wall);
    var p :| Newest(s.all, p) && p.pair == m.pair;
  }

  lemma ApplyKeepsLog(s: State, e: Event)
    requires Faithful(s) && Consistent(s) && e.CloseAndApply? && Enabled(s, e)
    ensures LogOf(Next(s, e).all, Next(s, e).written)
  {
    var t, M := Next(s, e), Markers(s, s.cycle.diff.dropped, e.wall);
    MarkersAppend(s, s.cycle.diff.dropped, e.wall);
    KeyedAppended(s.all, M);
    forall r, p | r in t.all && r !in t.written && Precedes(t.all, p, r) ensures !Viable(p) {
      OldPredecessors(s.all, M, r, p);
    }
  }

  lemma ApplyKeepsMarkers(s: State, e: Event)
    requires Faithful(s) && Consistent(s) && e.CloseAndApply? && Enabled(s, e)
    ensures MarkersClose(Next(s, e).all)
  {
    var t, M := Next(s, e), Markers(s, s.cycle.diff.dropped, e.wall);
    MarkersAppend(s, s.cycle.diff.dropped, e.wall);
    MarkerRows(s, s.cycle.diff.dropped, e.wall);
    forall r | r in t.all && IsMarker(r)
      ensures !Viable(r) && exists p {:trigger Precedes(t.all, p, r)} :: Precedes(t.all, p, r) && Viable(p)
    {
      if r in s.all {
        var p :| Precedes(s.all, p, r) && Viable(p);
        OldPredecessors(s.all, M, r, p);
      } else {
        MarkerFollowsViable(s, e.wall, r);
        var p :| Newest(s.all, p) && p.pair == r.pair && Viable(p);
        NewPredecessors(s.all, M, r, p);
      }
    }
  }

  lemma ApplyKeepsEntries(s: State, e: Event)
    requires Faithful(s) && Consistent(s) && e.CloseAndApply? && Enabled(s, e)
    ensures EntriesCurrent(Next(s, e))
  {
    var t, dropped := Next(s, e), s.cycle.diff.dropped;
    var M := Markers(s, dropped, e.wall);
    MarkersAppend(s, dropped, e.wall);
    MarkerRows(s, dropped, e.wall);
    forall r | Newest(t.all, r)
      ensures Viable(r) <==> r.pair in t.entries && t.entries[r.pair].wasViable
      ensures IsMarker(r) ==> r.pair !in t.entries
    {
      NewestAppended(s.all, M, r);
      assert r in M || r.pair !in ToClose(s, dropped);
    }
    forall k | k in t.entries ensures exists r {:trigger Newest(t.all, r)} :: Newest(t.all, r) && r.pair == k {
      var r :| Newest(s.all, r) && r.pair == k;
      assert Newest(t.all, r);
    }
  }

  lemma ApplyCountsWindows(s: State, e: Event)
    requires Faithful(s) && Consistent(s) && e.CloseAndApply? && Enabled(s, e)
    ensures Next(s, e).windows == |Openers(Next(s, e).all)|
  {
    var t, M := Next(s, e), Markers(s, s.cycle.diff.dropped, e.wall);
    MarkersAppend(s, s.cycle.diff.dropped, e.wall);
    MarkerRows(s, s.cycle.diff.dropped, e.wall);
    forall x | x in s.all ensures Opens(t.all, x) <==> Opens(s.all, x) {
      OldOpenings(s.all, M, x);
    }
    assert Openers(t.all) == Openers(s.all);
  }

  lemma FaithfulStep(s: State, e: Event)
    requires Faithful(s) && Consistent(s) && Enabled(s, e) && IdsKnown(s, e)
    ensures Faithful(Next(s, e))
  {
    if e.Evaluate? {
      EvaluateKeepsLog(s, e);
      EvaluateKeepsMarkers(s, e);
      EvaluateKeepsEntries(s, e);
      EvaluateCountsWindows(s, e);
    } else if e.CloseAndApply? {
      ApplyKeepsLog(s, e);
      ApplyKeepsMarkers(s, e);
      ApplyKeepsEntries(s, e);
      ApplyCountsWindows(s, e);
    }
  }

  lemma {:induction false} FaithfulAlways(s0: State, events: seq<Event>, s: State, ok: (State, Event) -> bool)
    requires Initial(s0) && Run(s0, events, s, ok)
    requires forall t, e {:trigger ok(t, e)} :: ok(t, e) ==> IdsKnown(t, e)
    ensures Consistent(s) && Faithful(s)
    decreases |events|
  {
    NoDanglingAlways(s0, events, s, ok);
    if events != [] {
      var front, e := events[..|events| - 1], events[|events| - 1];
      var t :| Run(s0, front, t, ok) && Enabled(t, e) && ok(t, e) && s == Next(t, e);
      NoDanglingAlways(s0, front, t, ok);
      FaithfulAlways(s0, front, t, ok);
      FaithfulStep(t, e);
    }
  }

  /** The windows counter is the number of runs of viable rows in what was written. */
  lemma WindowsCounted(s0: State, events: seq<Event>, s: State)
    requires Initial(s0) && Run(s0, events, s, IdsKnown)
    ensures s.windows == |Openers(s.written)|
  {
    FaithfulAlways(s0, events, s, IdsKnown);
    forall r ensures Opens(s.all, r) <==> Opens(s.written, r) {
      OpensSame(s.all, s.written, r);
    }
    assert Openers(s.all) == Openers(s.written);
  }

  lemma EvaluateResumes(s: State, e: Event)
    requires Faithful(s) && e.Evaluate? && Enabled(s, e) && IdsKnown(s, e)
    ensures Resumes(Next(s, e).all, Next(s, e).written) <==> Resumes(s.all, s.written) && Resumed(s, e)
  {
    var t, row := Next(s, e), RowOf(s, e);
    EvaluationAppends(s, e);
    forall r, p | r in s.all ensures Precedes(t.all, p, r) <==> Precedes(s.all, p, r) {
      OldPredecessors(s.all, {row}, r, p);
    }
    forall p ensures Precedes(t.all, p, row) <==> Newest(s.all, p) && p.pair == e.k {
      NewPredecessors(s.all, {row}, row, p);
    }
    assert row !in s.all;
    if Resumes(t.all, t.written) {
      forall r, p | r in s.all && r !in s.written && Precedes(s.all, p, r) ensures !IsMarker(p) {
        assert Precedes(t.all, p, r);
      }
      forall u | Newest(s.all, u) && u.pair == e.k && IsMarker(u) ensures ReasonOf(s, e).Some? {
        assert Precedes(t.all, u, row);
      }
    }
  }

  lemma ApplyResumes(s: State, e: Event)
    requires Faithful(s) && Consistent(s) && e.CloseAndApply? && Enabled(s, e)
    ensures Resumes(Next(s, e).all, Next(s, e).written) <==> Resumes(s.all, s.written)
  {
    var t, M := Next(s, e), Markers(s, s.cycle.diff.dropped, e.wall);
    MarkersAppend(s, s.cycle.diff.dropped, e.wall);
    forall r, p | r in s.all ensures Precedes(t.all, p, r) <==> Precedes(s.all, p, r) {
      OldPredecessors(s.all, M, r, p);
    }
    if Resumes(t.all, t.written) {
      forall r, p | r in s.all && r !in s.written && Precedes(s.all, p, r) ensures !IsMarker(p) {
        assert r !in M;
        assert Precedes(t.all, p, r);
      }
    }
  }

  /** A run along which every resumption is recorded. */
  ghost predicate KnownAndResumed(s: State, e: Event) {
    IdsKnown(s, e) && Resumed(s, e)
  }

  lemma {:induction false} LogResumesImpliesRunResumes(s0: State, events: seq<Event>, s: State)
    requires Initial(s0) && Run(s0, events, s, IdsKnown) && Resumes(s.all, s.written)
    ensures Run(s0, events, s, KnownAndResumed)
    decreases |events|
  {
    if events != [] {
      var front, e := events[..|events| - 1], events[|events| - 1];
      var t :| Run(s0, front, t, IdsKnown) && Enabled(t, e) && IdsKnown(t, e) && s == Next(t, e);
      FaithfulAlways(s0, front, t, IdsKnown);
      if e.Evaluate? { EvaluateResumes(t, e); } else if e.CloseAndApply? { ApplyResumes(t, e); }
      LogResumesImpliesRunResumes(s0, front, t);
      assert KnownAndResumed(t, e);
    }
  }

  lemma {:induction false} RunResumesImpliesLogResumes(s0: State, events: seq<Event>, s: State)
    requires Initial(s0) && Run(s0, events, s, KnownAndResumed)
    ensures Resumes(s.all, s.written)
    decreases |events|
  {
    if events != [] {
      var front, e := events[..|events| - 1], events[|events| - 1];
      var t :| Run(s0, front, t, KnownAndResumed) && Enabled(t, e) && KnownAndResumed(t, e) && s == Next(t, e);
      FaithfulAlways(s0, front, t, KnownAndResumed);
      RunResumesImpliesLogResumes(s0, front, t);
      if e.Evaluate? { EvaluateResumes(t, e); } else if e.CloseAndApply? { ApplyResumes(t, e); }
    }
  }

  /**
   * Over every run in which the evaluated pairs have ids, the survival curve of the rows the policy wrote equals
   * the curve of every evaluation plus the markers, at every delta, exactly when every first evaluation after a
   * close marker was recorded.
   */
  lemma LossyLogIsLossless(s0: State, events: seq<Event>, s: State, rows: seq<Sample>, everything: seq<Sample>)
    requires Initial(s0) && Run(s0, events, s, IdsKnown)
    requires Distinct(rows) && Elements(rows) == s.written
    requires Distinct(everything) && Elements(everything) == s.all
    ensures (forall delta :: PointAt(Windows(rows), delta) == PointAt(Windows(everything), delta))
            <==> Run(s0, events, s, KnownAndResumed)
  {
    FaithfulAlways(s0, events, s, IdsKnown);
    LosslessExactlyWhenResumed(s.all, s.written);
    if Resumes(s.all, s.written) {
      LogResumesImpliesRunResumes(s0, events, s);
      forall delta ensures PointAt(Windows(rows), delta) == PointAt(Windows(everything), delta) {
        CurveMeaning(rows, delta);
        CurveMeaning(everything, delta);
        assert PointOf(s.written, delta) == PointOf(s.all, delta);
      }
    } else {
      var delta :| PointOf(s.written, delta) != PointOf(s.all, delta);
      CurveMeaning(rows, delta);
      CurveMeaning(everything, delta);
      if Run(s0, events, s, KnownAndResumed) {
        RunResumesImpliesLogResumes(s0, events, s);
      }
    }
  }

  /** The same at one delta: the two curves part there exactly when a window is seen wrongly. */
  lemma LossyLogAtDelta(s0: State, events: seq<Event>, s: State, rows: seq<Sample>, everything: seq<Sample>, delta: int)
    requires Initial(s0) && Run(s0, events, s, IdsKnown)
    requires Distinct(rows) && Elements(rows) == s.written
    requires Distinct(everything) && Elements(everything) == s.all
    ensures PointAt(Windows(rows), delta) == PointAt(Windows(everything), delta)
            <==> !MisledAt(s.all, s.written, delta)
  {
    FaithfulAlways(s0, events, s, IdsKnown);
    LosslessAtDelta(s.all, s.written, delta);
    CurveMeaning(rows, delta);
    CurveMeaning(everything, delta);
  }

  /** When that is, read off the evaluation itself: it comes after a marker, and nothing forces a row. */
  lemma ResumedExactlyWhen(s: State, e: Event)
    requires Faithful(s) && e.Evaluate? && Enabled(s, e)
    ensures Resumed(s, e) <==>
            || (forall u {:trigger Newest(s.all, u)} :: Newest(s.all, u) && u.pair == e.k ==> !IsMarker(u))
            || e.ev.size > 0
            || (s.tracked[e.k].structured && e.mono >= THROTTLE)
            || e.mono >= HEARTBEAT
  {
    if u :| Newest(s.all, u) && u.pair == e.k && IsMarker(u) {
      assert Entry(s, e.k) == ABSENT;
    }
  }

  /** So a monotonic clock one heartbeat old at a pair's first evaluation after each add is enough. */
  lemma LateStartResumes(s: State, e: Event)
    requires Faithful(s) && Enabled(s, e)
    requires e.Evaluate? && e.k !in s.entries ==> e.mono >= HEARTBEAT
    ensures Resumed(s, e)
  {
    if e.Evaluate? { ResumedExactlyWhen(s, e); }
  }

  lemma RunStep(s0: State, events: seq<Event>, t: State, e: Event)
    requires Run(s0, events, t, IdsKnown) && Enabled(t, e) && IdsKnown(t, e)
    ensures Run(s0, events + [e], Next(t, e), IdsKnown)
  {
    assert (events + [e])[..|events + [e]| - 1] == events;
  }

  /** A refresh without a database: three steps. */
  lemma RefreshRun(s0: State, events: seq<Event>, s: State, trusted: seq<Match>, listed: set<string>, wall: int)
    returns (longer: seq<Event>, t: State)
    requires Run(s0, events, s, IdsKnown) && s.cycle.Idle?
    requires forall k :: k in PairDiff(s.tracked, trusted, listed).dropped ==> After(s.all, k, wall)
    ensures Run(s0, longer, t, IdsKnown) && t == Applied(s, PairDiff(s.tracked, trusted, listed), None, wall)
  {
    var d := PairDiff(s.tracked, trusted, listed);
    var s1 := s.(cycle := Diffed(d));
    var l1 := RunStepTo(s0, events, s, StartRefresh(trusted, listed), s1);
    var s2 := s1.(cycle := Synced(d, None));
    var l2 := RunStepTo(s0, l1, s1, SyncDb(None), s2);
    t := Applied(s2, d, None, wall);
    longer := RunStepTo(s0, l2, s2, CloseAndApply(wall), t);
    assert Markers(s2, d.dropped, wall) == Markers(s, d.dropped, wall) by {
      assert ToClose(s2, d.dropped) == ToClose(s, d.dropped);
    }
  }

  lemma RunStepTo(s0: State, events: seq<Event>, s: State, e: Event, t: State) returns (longer: seq<Event>)
    requires Run(s0, events, s, IdsKnown) && Enabled(s, e) && IdsKnown(s, e) && t == Next(s, e)
    ensures Run(s0, longer, t, IdsKnown)
  {
    longer := events + [e];
    RunStep(s0, events, s, e);
  }

  lemma SeenWrongly(F: set<Sample>, W: set<Sample>, k: PairKey, r: Sample)
    requires r.pair == k && r.at == 40_000
    requires W == {Sample(k, 10_000, Some(ViableRow), 1, 1, "kalshi"), Marker(k, 20_000, "kalshi")} && F == W + {r}
    ensures MisledAt(F, W, 30_000)
  {
    var o, u := Sample(k, 10_000, Some(ViableRow), 1, 1, "kalshi"), Marker(k, 20_000, "kalshi");
    assert IsState(F, r, o, 40_000) && IsState(W, u, o, 40_000);
    assert Opens(F, o) && Misled(F, W, o, o.at + 30_000);
  }

  lemma OpenThenDropped(k: PairKey, m: Match) returns (s0: State, events: seq<Event>, s: State)
    requires m.Key() == k && !m.structured
    ensures Initial(s0) && Run(s0, events, s, IdsKnown) && s.cycle.Idle?
    ensures s.tracked == map[] && s.entries == map[] && k in s.ids
    ensures s.all == s.written == {Sample(k, 10_000, Some(ViableRow), 1, 1, "kalshi"), Marker(k, 20_000, "kalshi")}
  {
    s0 := State(map[k := m], map[], map[k := 1], {}, {}, 0, Idle);
    var e := Evaluate(k, Evaluation(1, 1, 0, "kalshi"), 10_000, 0);
    RunStep(s0, [], s0, e);
    events, s := [] + [e], Next(s0, e);
    assert s.all == s.written == {Sample(k, 10_000, Some(ViableRow), 1, 1, "kalshi")};
    assert ToClose(s, PairDiff(s.tracked, [], {}).dropped) == {k};
    assert Markers(s, PairDiff(s.tracked, [], {}).dropped, 20_000) == {Marker(k, 20_000, "kalshi")};
    events, s := RefreshRun(s0, events, s, [], {}, 20_000);
  }

  /** One evaluation more, too early to be recorded, right after the marker. */
  lemma SkipAfterMarker(s0: State, events: seq<Event>, s: State, k: PairKey) returns (longer: seq<Event>, t: State)
    requires Initial(s0) && Run(s0, events, s, IdsKnown)
    requires s.all == s.written == {Sample(k, 10_000, Some(ViableRow), 1, 1, "kalshi"), Marker(k, 20_000, "kalshi")}
    requires k in s.tracked && !s.tracked[k].structured && k !in s.entries && k in s.ids
    ensures Run(s0, longer, t, IdsKnown)
    ensures PointOf(t.written, 30_000) != PointOf(t.all, 30_000)
  {
    var e := Evaluate(k, Evaluation(0, 0, 0, "kalshi"), 40_000, 30_000);
    var skipped := RowOf(s, e);
    RunStep(s0, events, s, e);
    longer, t := events + [e], Next(s, e);
    assert Precedes(t.all, Marker(k, 20_000, "kalshi"), skipped) && skipped !in t.written;
    FaithfulAlways(s0, longer, t, IdsKnown);
    SeenWrongly(t.all, t.written, k, skipped);
    LosslessAtDelta(t.all, t.written, 30_000);
  }

  /**
   * The condition can fail: a pair dropped with its window open, re-added, and first found not viable within five
   * minutes of the clock's start leaves the marker as its last row, and the delta of 30 milliseconds shows it.
   */
  lemma EarlyResumptionLoses() returns (s0: State, events: seq<Event>, s: State)
    ensures Initial(s0) && Run(s0, events, s, IdsKnown)
    ensures PointOf(s.written, 30_000) != PointOf(s.all, 30_000)
  {
    var k, m := PairKey("K", "P"), Match("K", "P", false, false);
    s0, events, s := OpenThenDropped(k, m);
    events, s := RefreshRun(s0, events, s, [m], {"K", "P"}, 30_000);
    assert m in [m];
    assert s.all == s.written == {Sample(k, 10_000, Some(ViableRow), 1, 1, "kalshi"), Marker(k, 20_000, "kalshi")};
    events, s := SkipAfterMarker(s0, events, s, k);
  }
}
