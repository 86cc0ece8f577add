/** No window is left open in the log, in any reachable state. */
module NoDanglingWindows {
  import opened Samples
  import opened MatchSets
  import opened LosslessLog
  import opened Machine

  ghost predicate DiffFits(s: State, d: Diff) {
    ByKey(d.Live()) && d.dropped.Keys == s.tracked.Keys - d.Live().Keys
  }

  ghost predicate Consistent(s: State) {
    && ByKey(s.tracked)
    && s.entries.Keys <= s.tracked.Keys
    && s.written <= s.all
    && (forall r :: r in s.written ==> r.pair in s.ids)
    && match s.cycle
       case Idle => true
       case Diffed(d) => DiffFits(s, d)
       case Synced(d, newIds) => DiffFits(s, d) && (newIds.Some? ==> s.ids.Keys <= newIds.value.Keys)
  }

  lemma MarkerRows(s: State, dropped: map<PairKey, Match>, wall: int)
    ensures forall m :: m in Markers(s, dropped, wall) ==>
              m.pair in ToClose(s, dropped) && m == Marker(m.pair, wall, Entry(s, m.pair).yesVenue)
              && IsMarker(m) && !Viable(m)
    ensures forall k :: k in ToClose(s, dropped) ==> exists m :: m in Markers(s, dropped, wall) && m.pair == k
  {
    forall k | k in ToClose(s, dropped) ensures exists m :: m in Markers(s, dropped, wall) && m.pair == k {
      assert Marker(k, wall, Entry(s, k).yesVenue) in Markers(s, dropped, wall);
    }
  }

  lemma MarkersAppend(s: State, dropped: map<PairKey, Match>, wall: int)
    requires forall k :: k in dropped ==> After(s.all, k, wall)
    ensures Appends(s.all, Markers(s, dropped, wall))
  {
    var M := Markers(s, dropped, wall);
    MarkerRows(s, dropped, wall);
  }

  lemma ConsistentStep(s: State, e: Event)
    requires Consistent(s) && Enabled(s, e)
    ensures Consistent(Next(s, e))
  {
    if e.StartRefresh? {
      DiffMeaning(s.tracked, e.trusted, e.listed);
    } else if e.CloseAndApply? {
      MarkerRows(s, s.cycle.diff.dropped, e.wall);
    }
  }

  /** If a pair's newest stored row is viable, the pair is tracked and its entry says so. */
  ghost predicate NoDangling(s: State) {
    forall r {:trigger Newest(s.written, r)} :: Newest(s.written, r) && Viable(r) ==>
      r.pair in s.tracked && r.pair in s.entries && s.entries[r.pair].wasViable
  }

  lemma EvaluateKeepsNoDangling(s: State, e: Event)
    requires Consistent(s) && NoDangling(s) && e.Evaluate? && Enabled(s, e)
    ensures NoDangling(Next(s, e))
  {
    var t, row := Next(s, e), RowOf(s, e);
    var M := if row.reason.Some? && e.k in s.ids then {row} else {};
    assert t.written == s.written + M;
    assert Appends(s.written, M);
    forall r | Newest(t.written, r) && Viable(r)
      ensures r.pair in t.tracked && r.pair in t.entries && t.entries[r.pair].wasViable
    {
      NewestAppended(s.written, M, r);
    }
  }

  lemma ApplyKeepsNoDangling(s: State, e: Event)
    requires Consistent(s) && NoDangling(s) && e.CloseAndApply? && Enabled(s, e)
    ensures NoDangling(Next(s, e))
  {
    var t, dropped := Next(s, e), s.cycle.diff.dropped;
    var M := Markers(s, dropped, e.wall);
    MarkerRows(s, dropped, e.wall);
    MarkersAppend(s, dropped, e.wall);
    assert Appends(s.written, M);
    forall r | Newest(t.written, r) && Viable(r)
      ensures r.pair in t.tracked && r.pair in t.entries && t.entries[r.pair].wasViable
    {
      NewestAppended(s.written, M, r);
      assert r in M || r.pair !in ToClose(s, dropped);
    }
  }

  lemma {:induction false} NoDanglingAlways(s0: State, events: seq<Event>, s: State, ok: (State, Event) -> bool)
    requires Initial(s0) && Run(s0, events, s, ok)
    ensures Consistent(s) && NoDangling(s)
    decreases |events|
  {
    if events != [] {
      var front, e := events[..|events| - 1], events[|events| - 1];
      var t :| Run(s0, front, t, ok) && Enabled(t, e) && s == Next(t, e);
      NoDanglingAlways(s0, front, t, ok);
      ConsistentStep(t, e);
      if e.Evaluate? {
        EvaluateKeepsNoDangling(t, e);
      } else if e.CloseAndApply? {
        ApplyKeepsNoDangling(t, e);
      }
    }
  }

  /**
   * In particular, whatever was dropped and however the database behaved, a pair no longer tracked has no open window.
   */
  lemma DroppedPairsAreClosed(s0: State, events: seq<Event>, s: State, ok: (State, Event) -> bool, r: Sample)
    requires Initial(s0) && Run(s0, events, s, ok)
    requires Newest(s.written, r) && r.pair !in s.tracked
    ensures !Viable(r)
  {
    NoDanglingAlways(s0, events, s, ok);
  }
}
