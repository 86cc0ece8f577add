/** One observation of one matched pair (pmarb/models/sample.py). Times are integer microseconds. */
module Samples {
  import opened Common

  datatype PairKey = PairKey(kalshi: string, poly: string)

  datatype Reason = Heartbeat | EdgeChange | ViableRow | WindowClose | Unsubscribed

  /** `reason` is None where the source of the row recorded none. */
  datatype Sample = Sample(pair: PairKey, at: int, reason: Option<Reason>, size: int, spread: int, yesVenue: string)

  predicate Viable(s: Sample) {
    s.size > 0 && s.spread > 0
  }
}

/** The survival curve over a list of rows (pmarb/backtest/survival.py). */
module Survival {
  import opened Common
  import opened Sorting
  import opened Samples

  datatype SurvivalPoint = SurvivalPoint(delta: int, known: nat, survived: nat, censored: nat) {
    /** round(100 * survived / known, 1) in tenths of a percent, ties to even; None when nothing is known. */
    function Pct(): Option<int> {
      if known == 0 then None
      else
        var q, r := 1000 * survived / known, 1000 * survived % known;
        Some(if 2 * r < known || (2 * r == known && q % 2 == 0) then q else q + 1)
    }
  }

  datatype OpenedAt = Window(series: seq<Sample>, start: nat)

  /** A pair's series and the position of the row that opens a window in it. */
  type Window = w: OpenedAt | w.start < |w.series| witness Window([Sample(PairKey("", ""), 0, None, 0, 0, "")], 0)

  datatype Fate = Survived | Closed | Censored

  const Earlier: (Sample, Sample) -> bool := (a: Sample, b: Sample) => a.at <= b.at

  /** The pairs in the order a dictionary would first see them. */
  function Pairs(rows: seq<Sample>): seq<PairKey> {
    if rows == [] then []
    else
      var front := Pairs(rows[..|rows| - 1]);
      var p := rows[|rows| - 1].pair;
      if p in front then front else front + [p]
  }

  function Select(rows: seq<Sample>, p: PairKey): seq<Sample> {
    if rows == [] then []
    else
      var front := Select(rows[..|rows| - 1], p);
      if rows[|rows| - 1].pair == p then front + [rows[|rows| - 1]] else front
  }

  function Series(rows: seq<Sample>, p: PairKey): seq<Sample> {
    Sort(Select(rows, p), Earlier)
  }

  predicate StartsWindow(series: seq<Sample>, i: nat)
    requires i < |series|
  {
    Viable(series[i]) && (i == 0 || !Viable(series[i - 1]))
  }

  function WindowsIn(series: seq<Sample>, n: nat): seq<Window>
    requires n <= |series|
  {
    if n == 0 then []
    else WindowsIn(series, n - 1) + if StartsWindow(series, n - 1) then [Window(series, n - 1)] else []
  }

  function WindowsOver(rows: seq<Sample>, pairs: seq<PairKey>): seq<Window> {
    if pairs == [] then []
    else
      var s := Series(rows, pairs[|pairs| - 1]);
      WindowsOver(rows, pairs[..|pairs| - 1]) + WindowsIn(s, |s|)
  }

  function Windows(rows: seq<Sample>): seq<Window> {
    WindowsOver(rows, Pairs(rows))
  }

  /** The first position from `i` on whose row is after `target`. */
  function Reach(series: seq<Sample>, i: nat, target: int): (j: nat)
    requires i <= |series|
    ensures i <= j <= |series|
    ensures forall k :: i <= k < j ==> series[k].at <= target
    ensures j < |series| ==> series[j].at > target
    decreases |series| - i
  {
    if i < |series| && series[i].at <= target then Reach(series, i + 1, target) else i
  }

  function FateOf(w: Window, delta: int): Fate
  {
    var target := w.series[w.start].at + delta;
    var j := Reach(w.series, w.start, target);
    if j > w.start && w.series[j - 1].reason == Some(Unsubscribed) then Censored
    else
      var stillOpen := j > w.start && Viable(w.series[j - 1]);
      if stillOpen && w.series[|w.series| - 1].at < target then Censored
      else if stillOpen then Survived else Closed
  }

  function Tally(ws: seq<Window>, delta: int, f: Fate): nat
  {
    if ws == [] then 0
    else Tally(ws[..|ws| - 1], delta, f) + if FateOf(ws[|ws| - 1], delta) == f then 1 else 0
  }

  function PointAt(ws: seq<Window>, delta: int): SurvivalPoint
  {
    var survived, closed := Tally(ws, delta, Survived), Tally(ws, delta, Closed);
    SurvivalPoint(delta, survived + closed, survived, Tally(ws, delta, Censored))
  }

  lemma {:induction false} PairsOnce(rows: seq<Sample>)
    ensures NoDuplicates(Pairs(rows))
    ensures forall p :: p in Pairs(rows) <==> exists k :: 0 <= k < |rows| && rows[k].pair == p
  {
    if rows != [] { PairsOnce(rows[..|rows| - 1]); }
  }

  /** The rows grouped by pair, each group in arrival order. */
  method GroupByPair(rows: seq<Sample>) returns (byPair: map<PairKey, seq<Sample>>, order: seq<PairKey>)
    ensures order == Pairs(rows)
    ensures forall p :: p in byPair <==> p in order
    ensures forall p :: p in byPair ==> byPair[p] == Select(rows, p)
  {
    byPair, order := map[], [];
    for k := 0 to |rows|
      invariant order == Pairs(rows[..k])
      invariant forall p :: p in byPair <==> p in order
      invariant forall p :: p in byPair ==> byPair[p] == Select(rows[..k], p)
      invariant forall p :: p !in order ==> Select(rows[..k], p) == []
    {
      var r := rows[k];
      assert rows[..k + 1][..k] == rows[..k];
      if r.pair !in byPair {
        order := order + [r.pair];
        byPair := byPair[r.pair := []];
      }
      byPair := byPair[r.pair := byPair[r.pair] + [r]];
    }
    assert rows[..|rows|] == rows;
  }

  method SortGroups(rows: seq<Sample>, groups: map<PairKey, seq<Sample>>, order: seq<PairKey>)
    returns (byPair: map<PairKey, seq<Sample>>)
    requires NoDuplicates(order)
    requires forall p :: p in groups <==> p in order
    requires forall p :: p in groups ==> groups[p] == Select(rows, p)
    ensures forall p :: p in byPair <==> p in order
    ensures forall p :: p in byPair ==> byPair[p] == Series(rows, p)
  {
    byPair := groups;
    for k := 0 to |order|
      invariant forall p :: p in byPair <==> p in order
      invariant forall j :: 0 <= j < k ==> byPair[order[j]] == Series(rows, order[j])
      invariant forall j :: k <= j < |order| ==> byPair[order[j]] == Select(rows, order[j])
    {
      assert forall j :: 0 <= j < |order| && j != k ==> order[j] != order[k];
      byPair := byPair[order[k] := Sort(byPair[order[k]], Earlier)];
    }
  }

  method FindWindows(rows: seq<Sample>, byPair: map<PairKey, seq<Sample>>, order: seq<PairKey>)
    returns (opens: seq<Window>)
    requires forall p :: p in byPair <==> p in order
    requires forall p :: p in byPair ==> byPair[p] == Series(rows, p)
    ensures opens == WindowsOver(rows, order)
  {
    opens := [];
    for k := 0 to |order|
      invariant opens == WindowsOver(rows, order[..k])
    {
      assert order[..k + 1][..k] == order[..k];
      var found := FindInSeries(byPair[order[k]]);
      opens := opens + found;
    }
    assert order[..|order|] == order;
  }

  method FindInSeries(series: seq<Sample>) returns (found: seq<Window>)
    ensures found == WindowsIn(series, |series|)
  {
    found := [];
    var prevViable := false;
    for i := 0 to |series|
      invariant prevViable == (i > 0 && Viable(series[i - 1]))
      invariant found == WindowsIn(series, i)
    {
      var nowViable := Viable(series[i]);
      if nowViable && !prevViable {
        found := found + [Window(series, i)];
      }
      prevViable := nowViable;
    }
  }

  /** The last row at or before the target instant, from position `i` on. */
  method StateAt(series: seq<Sample>, i: nat, target: int) returns (state: Option<Sample>)
    requires i < |series|
    ensures var j := Reach(series, i, target); state == if j == i then None else Some(series[j - 1])
  {
    state := None;
    var j := i;
    while j < |series| && series[j].at <= target
      invariant i <= j <= |series|
      invariant state == if j == i then None else Some(series[j - 1])
      invariant Reach(series, i, target) == Reach(series, j, target)
    {
      state := Some(series[j]);
      j := j + 1;
    }
  }

  /** What became of one window by the target instant. */
  method WindowFate(w: Window, delta: int) returns (fate: Fate)
    ensures fate == FateOf(w, delta)
  {
    var series, i := w.series, w.start;
    var target := series[i].at + delta;
    var state := StateAt(series, i, target);
    if state.Some? && state.value.reason == Some(Unsubscribed) {
      return Censored;
    }
    var stillOpen := state.Some? && Viable(state.value);
    if stillOpen && series[|series| - 1].at < target {
      return Censored;
    }
    return if stillOpen then Survived else Closed;
  }

  /** One delta of the curve: the loop over the opened windows. */
  method CountFates(opens: seq<Window>, delta: int) returns (known: nat, survived: nat, censored: nat)
    ensures survived == Tally(opens, delta, Survived)
    ensures known == survived + Tally(opens, delta, Closed)
    ensures censored == Tally(opens, delta, Censored)
  {
    known, survived, censored := 0, 0, 0;
    for k := 0 to |opens|
      invariant survived == Tally(opens[..k], delta, Survived)
      invariant known == survived + Tally(opens[..k], delta, Closed)
      invariant censored == Tally(opens[..k], delta, Censored)
    {
      assert opens[..k + 1][..k] == opens[..k];
      var fate := WindowFate(opens[k], delta);
      if fate == Censored {
        censored := censored + 1;
      } else {
        known := known + 1;
        if fate == Survived {
          survived := survived + 1;
        }
      }
    }
    assert opens[..|opens|] == opens;
  }

  method PointsFor(opens: seq<Window>, deltas: seq<int>) returns (points: seq<SurvivalPoint>)
    ensures |points| == |deltas|
    ensures forall k :: 0 <= k < |deltas| ==> points[k] == PointAt(opens, deltas[k])
  {
    points := [];
    for k := 0 to |deltas|
      invariant |points| == k
      invariant forall j :: 0 <= j < k ==> points[j] == PointAt(opens, deltas[j])
    {
      var known, survived, censored := CountFates(opens, deltas[k]);
      points := points + [SurvivalPoint(deltas[k], known, survived, censored)];
    }
  }

  /** For every delta, how many windows were still viable that much later. */
  method SurvivalCurve(rows: seq<Sample>, deltas: seq<int>) returns (points: seq<SurvivalPoint>)
    ensures |points| == |deltas|
    ensures forall k :: 0 <= k < |deltas| ==> points[k] == PointAt(Windows(rows), deltas[k])
  {
    PairsOnce(rows);
    var groups, order := GroupByPair(rows);
    var byPair := SortGroups(rows, groups, order);
    var opens := FindWindows(rows, byPair, order);
    points := PointsFor(opens, deltas);
  }
}
