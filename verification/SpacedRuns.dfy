/** How far apart the rows of a pair are, in every run of collector and refresh (pmarb/main.py:57-95, 255-300). */
module SpacedRuns {
  import opened Common
  import opened Samples
  import opened Sampling
  import opened MatchSets
  import opened Machine
  import opened NoDanglingWindows

  /** The events, and the states they lead through. */
  ghost predicate Trace(states: seq<State>, events: seq<Event>) {
    && |states| == |events| + 1 && Initial(states[0])
    && forall i :: 0 <= i < |events| ==> Enabled(states[i], events[i]) && states[i + 1] == Next(states[i], events[i])
  }

  lemma TraceOn(states: seq<State>, events: seq<Event>, e: Event)
    requires Trace(states, events) && Enabled(states[|events|], e)
    ensures Trace(states + [Next(states[|events|], e)], events + [e])
  {
    var longer, more := states + [Next(states[|events|], e)], events + [e];
    forall i | 0 <= i < |more| ensures Enabled(longer[i], more[i]) && longer[i + 1] == Next(longer[i], more[i]) {
      if i < |events| { assert longer[i] == states[i] && longer[i + 1] == states[i + 1]; }
    }
  }

  /** Every run passes through such states. */
  lemma {:induction false} RunIsTrace(s0: State, events: seq<Event>, s: State, ok: (State, Event) -> bool)
    returns (states: seq<State>)
    requires Initial(s0) && Run(s0, events, s, ok)
    ensures Trace(states, events) && states[0] == s0 && states[|events|] == s
    decreases |events|
  {
    if events == [] {
      states := [s0];
    } else {
      var front, e := events[..|events| - 1], events[|events| - 1];
      var t :| Run(s0, front, t, ok) && Enabled(t, e) && s == Next(t, e);
      states := RunIsTrace(s0, front, t, ok);
      TraceOn(states, front, e);
      states := states + [s];
      assert front + [e] == events;
    }
  }

  lemma {:induction false} ConsistentAt(states: seq<State>, events: seq<Event>, n: nat)
    requires Trace(states, events) && n < |states|
    ensures Consistent(states[n])
  {
    if n > 0 {
      ConsistentAt(states, events, n - 1);
      ConsistentStep(states[n - 1], events[n - 1]);
    }
  }

  /** Event `i` evaluates pair `k`. */
  ghost predicate Evaluates(states: seq<State>, events: seq<Event>, i: nat, k: PairKey)
    requires Trace(states, events)
  {
    i < |events| && events[i].Evaluate? && events[i].k == k
  }

  ghost function ReasonAt(states: seq<State>, events: seq<Event>, i: nat): Option<Reason>
    requires Trace(states, events) && i < |events| && events[i].Evaluate?
  {
    ReasonOf(states[i], events[i])
  }

  /** Event `i` is an evaluation of pair `k` that is recorded. */
  ghost predicate Records(states: seq<State>, events: seq<Event>, i: nat, k: PairKey)
    requires Trace(states, events)
  {
    Evaluates(states, events, i, k) && ReasonAt(states, events, i).Some?
  }

  /** Event `i` is one recorded only because the clock allowed it. */
  ghost predicate Throttles(states: seq<State>, events: seq<Event>, i: nat, k: PairKey)
    requires Trace(states, events)
  {
    Evaluates(states, events, i, k) && Throttled(ReasonAt(states, events, i))
  }

  /** Event `i` drops pair `k` from the live set. */
  ghost predicate Drops(states: seq<State>, events: seq<Event>, i: nat, k: PairKey)
    requires Trace(states, events)
  {
    i < |events| && events[i].CloseAndApply? && k in states[i].cycle.diff.dropped
  }

  /** Between events `i` and `j` no refresh drops the pair. */
  ghost predicate StaysLive(states: seq<State>, events: seq<Event>, i: int, j: int, k: PairKey)
    requires Trace(states, events)
  {
    forall d: nat :: i < d < j ==> !Drops(states, events, d, k)
  }

  /** The monotonic clock has started and never goes back. */
  ghost predicate ClockRuns(events: seq<Event>) {
    && (forall i :: 0 <= i < |events| && events[i].Evaluate? ==> events[i].mono >= 0)
    && (forall i, j :: 0 <= i < j < |events| && events[i].Evaluate? && events[j].Evaluate? ==>
        events[i].mono <= events[j].mono)
  }

  // ---- what the entry remembers ----

  /** One event and one pair's entry: an evaluation advances it, a drop forgets it, and nothing else touches it. */
  lemma EntryStep(states: seq<State>, events: seq<Event>, n: nat, k: PairKey)
    requires Trace(states, events) && n < |events|
    ensures Entry(states[n + 1], k) ==
            if Evaluates(states, events, n, k)
            then Advance(Entry(states[n], k), events[n].ev, states[n].tracked[k].structured, events[n].mono)
            else if Drops(states, events, n, k) then ABSENT
            else Entry(states[n], k)
  {
    ConsistentAt(states, events, n);
  }

  /** While the pair stays live its entry is no older than any row recorded for it. */
  lemma {:induction false} EntryRemembers(states: seq<State>, events: seq<Event>, i: nat, n: nat, k: PairKey)
    requires Trace(states, events) && ClockRuns(events) && i < n <= |events|
    requires Records(states, events, i, k) && StaysLive(states, events, i, n, k)
    ensures Entry(states[n], k).lastT >= events[i].mono
    decreases n
  {
    EntryStep(states, events, n - 1, k);
    if i < n - 1 {
      EntryRemembers(states, events, i, n - 1, k);
      assert !Drops(states, events, n - 1, k);
    }
  }

  /** What an entry says of the past: the reading of a row recorded since the last drop, unless there is none. */
  lemma {:induction false} EntryIsARow(states: seq<State>, events: seq<Event>, n: nat, k: PairKey) returns (i: nat)
    requires Trace(states, events) && n <= |events| && Entry(states[n], k).lastT != 0
    ensures i < n && Records(states, events, i, k) && StaysLive(states, events, i, n, k)
    ensures events[i].mono == Entry(states[n], k).lastT
    decreases n
  {
    EntryStep(states, events, n - 1, k);
    if Records(states, events, n - 1, k) {
      i := n - 1;
    } else {
      i := EntryIsARow(states, events, n - 1, k);
    }
  }

  /** And whether the last evaluation found the pair viable. */
  lemma {:induction false} EntryIsViable(states: seq<State>, events: seq<Event>, i: nat, n: nat, k: PairKey)
    requires Trace(states, events) && i < n <= |events| && Evaluates(states, events, i, k)
    requires StaysLive(states, events, i, n, k) && forall j: nat :: i < j < n ==> !Evaluates(states, events, j, k)
    ensures Entry(states[n], k).wasViable <==> events[i].ev.size > 0
    decreases n
  {
    EntryStep(states, events, n - 1, k);
    if i < n - 1 { EntryIsViable(states, events, i, n - 1, k); }
  }

  // ---- how far apart rows are ----

  /**
   * Unless the pair was dropped between them, an edge-change or heartbeat row is a throttle after every earlier row.
   */
  lemma ThrottledRowsKeepDistance(states: seq<State>, events: seq<Event>, i: nat, j: nat, k: PairKey)
    requires Trace(states, events) && ClockRuns(events) && i < j
    requires Records(states, events, i, k) && Throttles(states, events, j, k) && StaysLive(states, events, i, j, k)
    ensures events[j].mono - events[i].mono >= THROTTLE
  {
    EntryRemembers(states, events, i, j, k);
  }

  /** Event `i` is the pair's last evaluation before event `j`, with no drop between. */
  ghost predicate Precedes(states: seq<State>, events: seq<Event>, i: nat, j: nat, k: PairKey)
    requires Trace(states, events)
  {
    && i < j && Evaluates(states, events, i, k) && StaysLive(states, events, i, j, k)
    && forall h: nat :: i < h < j ==> !Evaluates(states, events, h, k)
  }

  /**
   * An evaluation that is not recorded is not viable, does not follow a viable one, and comes within a heartbeat of a
   * row recorded since the pair was last dropped, or of the clock's start.
   */
  lemma SkippedIsQuiet(states: seq<State>, events: seq<Event>, j: nat, k: PairKey)
    requires Trace(states, events) && Evaluates(states, events, j, k) && ReasonAt(states, events, j).None?
    ensures events[j].ev.size == 0
    ensures forall i: nat :: Precedes(states, events, i, j, k) ==> events[i].ev.size == 0
    ensures events[j].mono < HEARTBEAT
            || exists i: nat :: i < j && Records(states, events, i, k) && StaysLive(states, events, i, j, k)
                                && events[j].mono - events[i].mono < HEARTBEAT
  {
    forall i: nat | Precedes(states, events, i, j, k) ensures events[i].ev.size == 0 {
      EntryIsViable(states, events, i, j, k);
    }
    if Entry(states[j], k).lastT != 0 { var i := EntryIsARow(states, events, j, k); }
  }

  /** How many events from `m` on and before `n` record a row of the pair only because the clock allowed it. */
  ghost function ThrottledRows(states: seq<State>, events: seq<Event>, m: nat, n: nat, k: PairKey): nat
    requires Trace(states, events) && n <= |events|
    decreases n
  {
    if n <= m then 0
    else ThrottledRows(states, events, m, n - 1, k) + if Throttles(states, events, n - 1, k) then 1 else 0
  }

  /** How many of them drop it. */
  ghost function DropCount(states: seq<State>, events: seq<Event>, m: nat, n: nat, k: PairKey): nat
    requires Trace(states, events) && n <= |events|
    decreases n
  {
    if n <= m then 0
    else DropCount(states, events, m, n - 1, k) + if Drops(states, events, n - 1, k) then 1 else 0
  }

  lemma {:induction false} DropsCount(states: seq<State>, events: seq<Event>, m: nat, i: nat, n: nat, k: PairKey)
    requires Trace(states, events) && m <= i < n <= |events|
    ensures DropCount(states, events, m, n, k) >= DropCount(states, events, m, i, k)
    ensures !StaysLive(states, events, i, n, k) ==>
            DropCount(states, events, m, n, k) > DropCount(states, events, m, i, k)
    decreases n
  {
    if i < n - 1 { DropsCount(states, events, m, i, n - 1, k); }
  }

  /** `rows` rows take this long when all but `drops` of the gaps are throttles. */
  predicate Spans(rows: nat, drops: nat, first: int, last: int) {
    (rows - 1 - drops) * THROTTLE <= last - first
  }

  lemma SpansOn(rows: nat, drops: nat, more: nat, first: int, before: int, last: int)
    requires Spans(rows, drops, first, before) && drops <= more
    requires if drops < more then before <= last else before + THROTTLE <= last
    ensures Spans(rows + 1, more, first, last)
  {
  }

  /** One more throttled row after those that span from `first` to `before`. */
  lemma NextRowSpans(states: seq<State>, events: seq<Event>, first: nat, before: nat, last: nat, k: PairKey, rows: nat)
    requires Trace(states, events) && ClockRuns(events) && first <= before < last
    requires Throttles(states, events, before, k) && Throttles(states, events, last, k) && events[first].Evaluate?
    requires Spans(rows, DropCount(states, events, first, before, k), events[first].mono, events[before].mono)
    ensures Spans(rows + 1, DropCount(states, events, first, last, k), events[first].mono, events[last].mono)
  {
    var drops, more := DropCount(states, events, first, before, k), DropCount(states, events, first, last, k);
    DropsCount(states, events, first, before, last, k);
    if StaysLive(states, events, before, last, k) { ThrottledRowsKeepDistance(states, events, before, last, k); }
    SpansOn(rows, drops, more, events[first].mono, events[before].mono, events[last].mono);
  }

  /**
   * However often the books move: over any stretch of a run, n edge-change and heartbeat rows of a pair take at least
   * n - 1 throttles, less one for each drop between the first and the last of them.
   */
  lemma {:induction false} ThrottleBoundsRows(states: seq<State>, events: seq<Event>, m: nat, n: nat, k: PairKey)
    returns (first: nat, last: nat)
    requires Trace(states, events) && ClockRuns(events) && n <= |events| && ThrottledRows(states, events, m, n, k) > 0
    ensures m <= first <= last < n && Throttles(states, events, first, k) && Throttles(states, events, last, k)
    ensures Spans(ThrottledRows(states, events, m, n, k), DropCount(states, events, first, last, k),
                  events[first].mono, events[last].mono)
    decreases n
  {
    if !Throttles(states, events, n - 1, k) {
      first, last := ThrottleBoundsRows(states, events, m, n - 1, k);
    } else if ThrottledRows(states, events, m, n - 1, k) == 0 {
      first, last := n - 1, n - 1;
      assert ThrottledRows(states, events, m, n, k) == 1 && DropCount(states, events, first, last, k) == 0;
    } else {
      var before;
      first, before := ThrottleBoundsRows(states, events, m, n - 1, k);
      last := n - 1;
      NextRowSpans(states, events, first, before, last, k, ThrottledRows(states, events, m, n - 1, k));
    }
  }

  // ---- and when they are not ----

  /** One event later, what was recorded or dropped before still was. */
  lemma GrowsOn(states: seq<State>, events: seq<Event>, longer: seq<State>, more: seq<Event>, i: nat, k: PairKey)
    requires Trace(states, events) && Trace(longer, more) && states <= longer && events <= more && i < |events|
    ensures Evaluates(longer, more, i, k) == Evaluates(states, events, i, k)
    ensures Records(longer, more, i, k) == Records(states, events, i, k)
    ensures Drops(longer, more, i, k) == Drops(states, events, i, k)
  {
    assert longer[i] == states[i] && more[i] == events[i];
  }

  /** Three steps: a refresh against a catalog and match file, with no database; nobody had a window open. */
  lemma Refreshes(states: seq<State>, events: seq<Event>, trusted: seq<Match>, listed: set<string>, wall: int)
    returns (longer: seq<State>, more: seq<Event>)
    requires Trace(states, events) && states[|events|].cycle.Idle? && ClockRuns(events)
    requires forall k :: k in PairDiff(states[|events|].tracked, trusted, listed).dropped ==>
             After(states[|events|].all, k, wall)
    requires forall k :: k in states[|events|].entries ==> !states[|events|].entries[k].wasViable
    ensures |more| == |events| + 3 && events <= more && Trace(longer, more) && states <= longer && ClockRuns(more)
    ensures forall i :: |events| <= i < |more| ==> !more[i].Evaluate?
    ensures var s, d, t := states[|events|], PairDiff(states[|events|].tracked, trusted, listed), longer[|more|];
            && t.tracked == d.Live() && t.entries == Restrict(s.entries, d.Live().Keys) && t.cycle.Idle?
            && t.all == s.all
            && more[|events| + 2].CloseAndApply? && longer[|events| + 2].cycle == Synced(d, None)
  {
    var s, d := states[|events|], PairDiff(states[|events|].tracked, trusted, listed);
    var s1, s2 := s.(cycle := Diffed(d)), s.(cycle := Synced(d, None));
    TraceOn(states, events, StartRefresh(trusted, listed));
    TraceOn(states + [s1], events + [StartRefresh(trusted, listed)], SyncDb(None));
    var states2, events2 := states + [s1] + [s2], events + [StartRefresh(trusted, listed)] + [SyncDb(None)];
    TraceOn(states2, events2, CloseAndApply(wall));
    longer, more := states2 + [Applied(s2, d, None, wall)], events2 + [CloseAndApply(wall)];
    assert ToClose(s2, d.dropped) == {};
  }

  lemma DropsOne(m: Match)
    ensures var d := PairDiff(map[m.Key() := m], [], {}); m.Key() in d.dropped && d.Live() == map[]
  {
  }

  lemma AddsOne(m: Match)
    ensures var d := PairDiff(map[], [m], {m.kalshi, m.poly}); d.dropped == map[] && d.Live() == map[m.Key() := m]
  {
    assert m in [m];
  }

  /** A pair, tracked alone and quiet. */
  ghost predicate Alone(s: State, k: PairKey, m: Match, at: int) {
    s.tracked == map[k := m] && s.cycle.Idle? && (forall x :: x in s.all ==> x.at < at)
  }

  /** Once the clock is five minutes old, a quiet pair with no entry is recorded as a heartbeat. */
  lemma FirstHeartbeat(states: seq<State>, events: seq<Event>, k: PairKey, m: Match, wall: int, mono: int)
    returns (longer: seq<State>, more: seq<Event>)
    requires Trace(states, events) && Alone(states[|events|], k, m, wall) && states[|events|].entries == map[]
    requires !m.structured
    requires mono >= HEARTBEAT && ClockRuns(events) && forall e :: e in events && e.Evaluate? ==> e.mono <= mono
    ensures Trace(longer, more) && |more| == |events| + 1 && states <= longer && events <= more && ClockRuns(more)
    ensures Throttles(longer, more, |events|, k) && more[|events|].mono == mono
    ensures Alone(longer[|more|], k, m, wall + 1)
    ensures forall x :: x in longer[|more|].entries ==> !longer[|more|].entries[x].wasViable
  {
    var s, e := states[|events|], Evaluate(k, Evaluation(0, 0, 0, "kalshi"), wall, mono);
    TraceOn(states, events, e);
    longer, more := states + [Next(s, e)], events + [e];
    forall i, j | 0 <= i < j < |more| && more[i].Evaluate? && more[j].Evaluate? ensures more[i].mono <= more[j].mono {
      if j == |events| { assert more[i] in events; }
    }
  }

  /** A refresh that drops the only pair. */
  lemma Goes(states: seq<State>, events: seq<Event>, k: PairKey, m: Match, wall: int)
    returns (longer: seq<State>, more: seq<Event>)
    requires Trace(states, events) && Alone(states[|events|], k, m, wall) && m.Key() == k && ClockRuns(events)
    requires forall x :: x in states[|events|].entries ==> !states[|events|].entries[x].wasViable
    ensures |more| == |events| + 3 && events <= more && Trace(longer, more) && states <= longer && ClockRuns(more)
    ensures forall i :: |events| <= i < |more| ==> !more[i].Evaluate?
    ensures Drops(longer, more, |events| + 2, k)
    ensures longer[|more|].tracked == map[] && longer[|more|].entries == map[] && longer[|more|].cycle.Idle?
    ensures longer[|more|].all == states[|events|].all
  {
    DropsOne(m);
    longer, more := Refreshes(states, events, [], {}, wall);
  }

  /** And one that adds it again. */
  lemma Returns(states: seq<State>, events: seq<Event>, k: PairKey, m: Match, wall: int)
    returns (longer: seq<State>, more: seq<Event>)
    requires Trace(states, events) && m.Key() == k && ClockRuns(events)
    requires states[|events|].tracked == map[] && states[|events|].entries == map[] && states[|events|].cycle.Idle?
    requires forall x :: x in states[|events|].all ==> x.at < wall
    ensures |more| == |events| + 3 && events <= more && Trace(longer, more) && states <= longer && ClockRuns(more)
    ensures forall i :: |events| <= i < |more| ==> !more[i].Evaluate?
    ensures Alone(longer[|more|], k, m, wall) && longer[|more|].entries == map[]
  {
    AddsOne(m);
    longer, more := Refreshes(states, events, [m], {m.kalshi, m.poly}, wall);
  }

  lemma QuietStart(k: PairKey, m: Match) returns (states: seq<State>)
    requires m.Key() == k
    ensures Trace(states, []) && Alone(states[0], k, m, 10) && states[0].entries == map[]
  {
    states := [State(map[k := m], map[], map[k := 1], {}, {}, 0, Idle)];
  }

  /**
   * Across a drop and a re-add the entry is forgotten: there the rows of a pair may follow each other at any distance.
   */
  lemma ReAddedPairMayRepeatAtOnce(gap: nat)
    returns (states: seq<State>, events: seq<Event>, i: nat, j: nat, k: PairKey)
    ensures Trace(states, events) && ClockRuns(events) && i < j < |events|
    ensures Records(states, events, i, k) && Throttles(states, events, j, k) && !StaysLive(states, events, i, j, k)
    ensures events[j].mono - events[i].mono == gap
  {
    k := PairKey("K", "P");
    var m := Match("K", "P", false, false);
    var s0 := QuietStart(k, m);
    var s1, e1 := FirstHeartbeat(s0, [], k, m, 10, HEARTBEAT);
    var s2, e2 := Goes(s1, e1, k, m, 20);
    var s3, e3 := Returns(s2, e2, k, m, 30);
    forall e | e in e3 && e.Evaluate? ensures e.mono <= HEARTBEAT + gap {
      var h :| 0 <= h < |e3| && e3[h] == e;
      assert e1 <= e2 <= e3;
      assert h < 1 ==> e3[h] == e2[h] == e1[h];
      assert h < 4 ==> e3[h] == e2[h];
    }
    states, events := FirstHeartbeat(s3, e3, k, m, 40, HEARTBEAT + gap);
    i, j := 0, 7;
    GrowsOn(s1, e1, s2, e2, 0, k);
    GrowsOn(s2, e2, s3, e3, 0, k);
    GrowsOn(s3, e3, states, events, 0, k);
    GrowsOn(s2, e2, s3, e3, 3, k);
    GrowsOn(s3, e3, states, events, 3, k);
    assert Drops(states, events, 3, k);
  }
}
