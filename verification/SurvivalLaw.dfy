/** What the survival curve means, said of the set of rows: no grouping, no sorting, no order of arrival. */
module SurvivalLaw {
  import opened Common
  import opened Sorting
  import opened Samples
  import opened Survival

  /** Postgres keys an observation by (pair, time). */
  ghost predicate Distinct(rows: seq<Sample>) {
    forall i, j :: 0 <= i < j < |rows| && rows[i].pair == rows[j].pair ==> rows[i].at != rows[j].at
  }

  ghost predicate SameKey(r: Sample, s: Sample) {
    r.pair == s.pair && r.at == s.at
  }

  ghost predicate Keyed(R: set<Sample>) {
    forall r, s {:trigger SameKey(r, s)} :: r in R && s in R && SameKey(r, s) ==> r == s
  }

  /** `s` is the row of the pair immediately before `r`. */
  ghost predicate Precedes(R: set<Sample>, s: Sample, r: Sample) {
    && s in R && s.pair == r.pair && s.at < r.at
    && forall x :: x in R && x.pair == r.pair && x.at < r.at ==> x.at <= s.at
  }

  ghost predicate Opens(R: set<Sample>, r: Sample) {
    r in R && Viable(r) && forall s {:trigger Precedes(R, s, r)} :: Precedes(R, s, r) ==> !Viable(s)
  }

  /** `s` is the newest row of the pair from `r` on and no later than `target`. */
  ghost predicate IsState(R: set<Sample>, s: Sample, r: Sample, target: int) {
    && s in R && s.pair == r.pair && r.at <= s.at <= target
    && forall x :: x in R && x.pair == r.pair && r.at <= x.at <= target ==> x.at <= s.at
  }

  ghost predicate EndsBefore(R: set<Sample>, p: PairKey, target: int) {
    forall x :: x in R && x.pair == p ==> x.at < target
  }

  ghost predicate IsCensored(R: set<Sample>, r: Sample, target: int) {
    exists s {:trigger IsState(R, s, r, target)} :: IsState(R, s, r, target)
                && (s.reason == Some(Unsubscribed) || (Viable(s) && EndsBefore(R, r.pair, target)))
  }

  ghost predicate IsSurvived(R: set<Sample>, r: Sample, target: int) {
    exists s {:trigger IsState(R, s, r, target)} :: IsState(R, s, r, target)
                && s.reason != Some(Unsubscribed) && Viable(s) && !EndsBefore(R, r.pair, target)
  }

  ghost predicate HasFate(R: set<Sample>, r: Sample, target: int, f: Fate) {
    match f
    case Censored => IsCensored(R, r, target)
    case Survived => IsSurvived(R, r, target)
    case Closed => !IsCensored(R, r, target) && !IsSurvived(R, r, target)
  }

  ghost function WithFate(R: set<Sample>, delta: int, f: Fate): set<Sample> {
    set r {:trigger Opens(R, r)} | r in R && Opens(R, r) && HasFate(R, r, r.at + delta, f)
  }

  ghost function PointOf(R: set<Sample>, delta: int): SurvivalPoint {
    SurvivalPoint(delta, |WithFate(R, delta, Survived)| + |WithFate(R, delta, Closed)|,
                  |WithFate(R, delta, Survived)|, |WithFate(R, delta, Censored)|)
  }

  /** `S` lists the rows of `p` in strictly ascending time. */
  ghost predicate Represents(R: set<Sample>, p: PairKey, S: seq<Sample>) {
    && (forall i, j :: 0 <= i < j < |S| ==> S[i].at < S[j].at)
    && (forall x :: x in S <==> x in R && x.pair == p)
  }

  lemma {:induction false} SelectMembers(rows: seq<Sample>, p: PairKey)
    requires Distinct(rows)
    ensures forall x :: x in Select(rows, p) <==> x in rows && x.pair == p
    ensures forall i, j :: 0 <= i < j < |Select(rows, p)| ==> Select(rows, p)[i].at != Select(rows, p)[j].at
  {
    if rows != [] {
      var front, last := rows[..|rows| - 1], rows[|rows| - 1];
      assert rows == front + [last];
      SelectMembers(front, p);
      forall x | x in Select(front, p) && last.pair == p ensures x.at != last.at {
        var i :| 0 <= i < |front| && front[i] == x;
        assert rows[i] == x;
      }
    }
  }

  lemma {:induction false} InsertStrict(x: Sample, s: seq<Sample>)
    requires forall i, j :: 0 <= i < j < |s| ==> s[i].at < s[j].at
    requires forall y :: y in s ==> y.at != x.at
    ensures forall i, j :: 0 <= i < j <= |s| ==> Insert(x, s, Earlier)[i].at < Insert(x, s, Earlier)[j].at
  {
    if s == [] || Earlier(x, s[0]) {
    } else {
      var t := Insert(x, s[1..], Earlier);
      InsertStrict(x, s[1..]);
      forall k | 0 <= k < |t| ensures s[0].at < t[k].at {
        assert t[k] in multiset(t);
        assert t[k] == x || t[k] in s[1..];
      }
    }
  }

  lemma {:induction false} SortStrict(s: seq<Sample>)
    requires forall i, j :: 0 <= i < j < |s| ==> s[i].at != s[j].at
    ensures forall i, j :: 0 <= i < j < |s| ==> Sort(s, Earlier)[i].at < Sort(s, Earlier)[j].at
  {
    if s != [] {
      SortStrict(s[1..]);
      SortMembers(s[1..], Earlier);
      InsertStrict(s[0], Sort(s[1..], Earlier));
    }
  }

  lemma SeriesRepresents(rows: seq<Sample>, p: PairKey)
    requires Distinct(rows)
    ensures Represents(Elements(rows), p, Series(rows, p))
  {
    SelectMembers(rows, p);
    SortStrict(Select(rows, p));
    SortMembers(Select(rows, p), Earlier);
  }

  lemma OpeningInSeries(R: set<Sample>, p: PairKey, S: seq<Sample>, i: nat)
    requires Represents(R, p, S) && i < |S|
    ensures Opens(R, S[i]) <==> StartsWindow(S, i)
  {
    assert S[i] in S;
    if i > 0 {
      assert S[i - 1] in S;
      forall x | x in R && x.pair == p && x.at < S[i].at ensures x.at <= S[i - 1].at {
        var k :| 0 <= k < |S| && S[k] == x;
      }
      assert Precedes(R, S[i - 1], S[i]);
      forall s | Precedes(R, s, S[i]) ensures s == S[i - 1] {
        var k :| 0 <= k < |S| && S[k] == s;
      }
    } else {
      forall x | x in R && x.pair == p ensures S[0].at <= x.at {
        var k :| 0 <= k < |S| && S[k] == x;
      }
    }
  }

  lemma StateInSeries(R: set<Sample>, p: PairKey, S: seq<Sample>, i: nat, target: int, s: Sample)
    requires Represents(R, p, S) && i < |S|
    ensures var j := Reach(S, i, target); IsState(R, s, S[i], target) <==> j > i && s == S[j - 1]
  {
    var j := Reach(S, i, target);
    assert S[i] in S;
    if j > i {
      assert S[j - 1] in S;
      forall x | x in R && x.pair == p && S[i].at <= x.at <= target ensures x.at <= S[j - 1].at {
        var k :| 0 <= k < |S| && S[k] == x;
      }
    }
    if IsState(R, s, S[i], target) {
      var k :| 0 <= k < |S| && S[k] == s;
      if j > i { assert IsState(R, S[j - 1], S[i], target); }
    }
  }

  lemma EndInSeries(R: set<Sample>, p: PairKey, S: seq<Sample>, target: int)
    requires Represents(R, p, S) && S != []
    ensures EndsBefore(R, p, target) <==> S[|S| - 1].at < target
  {
    assert S[|S| - 1] in S;
    forall x | x in R && x.pair == p ensures x.at <= S[|S| - 1].at {
      var k :| 0 <= k < |S| && S[k] == x;
    }
  }

  /** The fate of a window is read off its state row, or is Closed when there is none. */
  lemma FateOfState(R: set<Sample>, r: Sample, target: int, s: Option<Sample>)
    requires forall x {:trigger IsState(R, x, r, target)} :: IsState(R, x, r, target) <==> s == Some(x)
    ensures IsCensored(R, r, target) <==>
            s.Some? && (s.value.reason == Some(Unsubscribed) || (Viable(s.value) && EndsBefore(R, r.pair, target)))
    ensures IsSurvived(R, r, target) <==>
            s.Some? && s.value.reason != Some(Unsubscribed) && Viable(s.value) && !EndsBefore(R, r.pair, target)
  {
    if s.Some? { assert IsState(R, s.value, r, target); }
  }

  lemma FateFromState(R: set<Sample>, S: seq<Sample>, i: nat, delta: int, f: Fate)
    requires i < |S|
    requires var target := S[i].at + delta; var j := Reach(S, i, target);
             && (EndsBefore(R, S[i].pair, target) <==> S[|S| - 1].at < target)
             && forall x {:trigger IsState(R, x, S[i], target)} ::
                  IsState(R, x, S[i], target) <==> (if j > i then Some(S[j - 1]) else None) == Some(x)
    ensures FateOf(Window(S, i), delta) == f <==> HasFate(R, S[i], S[i].at + delta, f)
  {
    var j := Reach(S, i, S[i].at + delta);
    FateOfState(R, S[i], S[i].at + delta, if j > i then Some(S[j - 1]) else None);
    match f {
      case Censored =>
      case Survived =>
      case Closed =>
    }
  }

  function Opening(w: Window): Sample
  {
    w.series[w.start]
  }

  lemma StateIsReached(R: set<Sample>, p: PairKey, S: seq<Sample>, i: nat, target: int)
    requires Represents(R, p, S) && i < |S|
    ensures var j := Reach(S, i, target);
            && S[i].pair == p && (EndsBefore(R, p, target) <==> S[|S| - 1].at < target)
            && forall x {:trigger IsState(R, x, S[i], target)} ::
                 IsState(R, x, S[i], target) <==> (if j > i then Some(S[j - 1]) else None) == Some(x)
  {
    assert S[i] in S;
    EndInSeries(R, p, S, target);
    forall s ensures IsState(R, s, S[i], target) <==>
                     (if Reach(S, i, target) > i then Some(S[Reach(S, i, target) - 1]) else None) == Some(s)
    {
      StateInSeries(R, p, S, i, target, s);
    }
  }

  lemma FateInSeries(R: set<Sample>, p: PairKey, S: seq<Sample>, i: nat, delta: int, f: Fate)
    requires Represents(R, p, S) && i < |S|
    ensures FateOf(Window(S, i), delta) == f <==> HasFate(R, S[i], S[i].at + delta, f)
  {
    StateIsReached(R, p, S, i, S[i].at + delta);
    FateFromState(R, S, i, delta, f);
  }

  function Openings(ws: seq<Window>): set<Sample>
  {
    if ws == [] then {} else Openings(ws[..|ws| - 1]) + {Opening(ws[|ws| - 1])}
  }

  /** No row opens two windows. */
  ghost predicate Separate(ws: seq<Window>) {
    ws != [] ==>
      var front, w := ws[..|ws| - 1], ws[|ws| - 1];
      Separate(front) && Opening(w) !in Openings(front)
  }

  lemma {:induction false} TallyCounts(ws: seq<Window>, delta: int, f: Fate, has: Sample -> bool)
    requires Separate(ws)
    requires forall k :: 0 <= k < |ws| ==> (FateOf(ws[k], delta) == f <==> has(Opening(ws[k])))
    ensures Tally(ws, delta, f) == |set r {:trigger has(r)} | r in Openings(ws) && has(r)|
  {
    var all := set r {:trigger has(r)} | r in Openings(ws) && has(r);
    if ws == [] {
      assert all == {};
    } else {
      var front, w := ws[..|ws| - 1], ws[|ws| - 1];
      var rest := set r {:trigger has(r)} | r in Openings(front) && has(r);
      TallyCounts(front, delta, f, has);
      assert FateOf(w, delta) == f <==> has(Opening(w));
      if has(Opening(w)) {
        assert all == rest + {Opening(w)};
      } else {
        assert all == rest;
      }
    }
  }

  lemma {:induction false} OpeningsIn(S: seq<Sample>, n: nat)
    requires n <= |S|
    ensures forall r :: r in Openings(WindowsIn(S, n)) <==> exists i :: 0 <= i < n && S[i] == r && StartsWindow(S, i)
  {
    if n > 0 {
      OpeningsIn(S, n - 1);
      var front, ws := WindowsIn(S, n - 1), WindowsIn(S, n);
      if StartsWindow(S, n - 1) {
        assert ws[..|ws| - 1] == front && ws[|ws| - 1] == Window(S, n - 1);
        assert Openings(ws) == Openings(front) + {S[n - 1]};
      } else {
        assert ws == front;
      }
    }
  }

  lemma NotYetOpening(S: seq<Sample>, n: nat)
    requires n < |S|
    requires forall i, j :: 0 <= i < j < |S| ==> S[i].at < S[j].at
    ensures S[n] !in Openings(WindowsIn(S, n))
  {
    OpeningsIn(S, n);
  }

  lemma {:induction false} WindowsInSeparate(S: seq<Sample>, n: nat)
    requires n <= |S|
    requires forall i, j :: 0 <= i < j < |S| ==> S[i].at < S[j].at
    ensures Separate(WindowsIn(S, n))
  {
    if n > 0 {
      WindowsInSeparate(S, n - 1);
      NotYetOpening(S, n - 1);
      var front, ws := WindowsIn(S, n - 1), WindowsIn(S, n);
      if StartsWindow(S, n - 1) {
        assert ws[..|ws| - 1] == front && ws[|ws| - 1] == Window(S, n - 1);
      } else {
        assert ws == front;
      }
    }
  }

  lemma {:induction false} OpeningsAppend(a: seq<Window>, b: seq<Window>)
    requires Separate(a) && Separate(b) && Openings(a) !! Openings(b)
    ensures Separate(a + b)
    ensures Openings(a + b) == Openings(a) + Openings(b)
  {
    if b == [] {
      assert a + b == a;
    } else {
      OpeningsAppend(a, b[..|b| - 1]);
      assert (a + b)[..|a + b| - 1] == a + b[..|b| - 1];
    }
  }

  lemma OpeningsOfPair(rows: seq<Sample>, p: PairKey)
    requires Distinct(rows)
    ensures var ws := WindowsIn(Series(rows, p), |Series(rows, p)|);
            Separate(ws) && forall r :: r in Openings(ws) <==> r.pair == p && Opens(Elements(rows), r)
  {
    var R, S := Elements(rows), Series(rows, p);
    SeriesRepresents(rows, p);
    WindowsInSeparate(S, |S|);
    OpeningsIn(S, |S|);
    var ws := WindowsIn(S, |S|);
    forall r ensures r in Openings(ws) <==> r.pair == p && Opens(R, r) {
      if r in Openings(ws) {
        var i :| 0 <= i < |S| && S[i] == r && StartsWindow(S, i);
        assert S[i] in S;
        OpeningInSeries(R, p, S, i);
      } else if r.pair == p && Opens(R, r) {
        assert r in S;
        var i :| 0 <= i < |S| && S[i] == r;
        OpeningInSeries(R, p, S, i);
      }
    }
  }

  lemma {:induction false} OpeningsOver(rows: seq<Sample>, pairs: seq<PairKey>)
    requires Distinct(rows) && NoDuplicates(pairs)
    ensures Separate(WindowsOver(rows, pairs))
    ensures forall r :: r in Openings(WindowsOver(rows, pairs)) <==> r.pair in pairs && Opens(Elements(rows), r)
  {
    if pairs != [] {
      var front, p := pairs[..|pairs| - 1], pairs[|pairs| - 1];
      OpeningsOver(rows, front);
      OpeningsOfPair(rows, p);
      assert p !in front;
      OpeningsAppend(WindowsOver(rows, front), WindowsIn(Series(rows, p), |Series(rows, p)|));
    }
  }

  lemma {:induction false} WindowShape(rows: seq<Sample>, pairs: seq<PairKey>, k: nat)
    requires k < |WindowsOver(rows, pairs)|
    ensures exists p :: WindowsOver(rows, pairs)[k].series == Series(rows, p)
  {
    var front, p := pairs[..|pairs| - 1], pairs[|pairs| - 1];
    var S := Series(rows, p);
    var before := WindowsOver(rows, front);
    if k < |before| {
      WindowShape(rows, front, k);
    } else {
      SameSeries(S, |S|, k - |before|);
    }
  }

  lemma {:induction false} SameSeries(S: seq<Sample>, n: nat, k: nat)
    requires n <= |S| && k < |WindowsIn(S, n)|
    ensures WindowsIn(S, n)[k].series == S
  {
    if k < |WindowsIn(S, n - 1)| { SameSeries(S, n - 1, k); }
  }

  lemma FateAt(rows: seq<Sample>, p: PairKey, S: seq<Sample>, i: nat, delta: int, f: Fate, has: Sample -> bool)
    requires Distinct(rows) && i < |S| && S == Series(rows, p)
    requires has == ((r: Sample) => HasFate(Elements(rows), r, r.at + delta, f))
    ensures FateOf(Window(S, i), delta) == f <==> has(S[i])
  {
    SeriesRepresents(rows, p);
    FateInSeries(Elements(rows), p, S, i, delta, f);
  }

  lemma FatesOver(rows: seq<Sample>, ws: seq<Window>, delta: int, f: Fate, has: Sample -> bool)
    requires Distinct(rows)
    requires forall k :: 0 <= k < |ws| ==> exists p :: ws[k].series == Series(rows, p)
    requires has == ((r: Sample) => HasFate(Elements(rows), r, r.at + delta, f))
    ensures forall k :: 0 <= k < |ws| ==> (FateOf(ws[k], delta) == f <==> has(Opening(ws[k])))
  {
    forall k | 0 <= k < |ws| ensures FateOf(ws[k], delta) == f <==> has(Opening(ws[k])) {
      var p :| ws[k].series == Series(rows, p);
      FateAt(rows, p, ws[k].series, ws[k].start, delta, f, has);
      assert ws[k] == Window(ws[k].series, ws[k].start);
    }
  }

  lemma OpeningSet(rows: seq<Sample>)
    requires Distinct(rows)
    ensures Separate(Windows(rows))
    ensures Openings(Windows(rows)) ==
            set r {:trigger Opens(Elements(rows), r)} | r in Elements(rows) && Opens(Elements(rows), r)
  {
    PairsOnce(rows);
    OpeningsOver(rows, Pairs(rows));
  }

  lemma TallyMeaning(rows: seq<Sample>, delta: int, f: Fate, has: Sample -> bool)
    requires Distinct(rows)
    requires has == ((r: Sample) => HasFate(Elements(rows), r, r.at + delta, f))
    ensures Tally(Windows(rows), delta, f) == |set r | r in Openings(Windows(rows)) && has(r)|
  {
    OpeningSet(rows);
    forall k | 0 <= k < |Windows(rows)| ensures exists p :: Windows(rows)[k].series == Series(rows, p) {
      WindowShape(rows, Pairs(rows), k);
    }
    FatesOver(rows, Windows(rows), delta, f, has);
    TallyCounts(Windows(rows), delta, f, has);
  }

  lemma FatedOpenings(rows: seq<Sample>, delta: int, f: Fate, O: set<Sample>, has: Sample -> bool)
    requires O == set r {:trigger Opens(Elements(rows), r)} | r in Elements(rows) && Opens(Elements(rows), r)
    requires has == ((r: Sample) => HasFate(Elements(rows), r, r.at + delta, f))
    ensures (set r | r in O && has(r)) == WithFate(Elements(rows), delta, f)
  {
    forall r ensures r in O && has(r) <==> r in WithFate(Elements(rows), delta, f) {
    }
  }

  lemma CountMeaning(rows: seq<Sample>, delta: int, f: Fate)
    requires Distinct(rows)
    ensures Tally(Windows(rows), delta, f) == |WithFate(Elements(rows), delta, f)|
  {
    var has := (r: Sample) => HasFate(Elements(rows), r, r.at + delta, f);
    TallyMeaning(rows, delta, f, has);
    OpeningSet(rows);
    FatedOpenings(rows, delta, f, Openings(Windows(rows)), has);
  }

  /** The grouped, sorted, looped computation counts exactly the openings with each fate. */
  lemma CurveMeaning(rows: seq<Sample>, delta: int)
    requires Distinct(rows)
    ensures PointAt(Windows(rows), delta) == PointOf(Elements(rows), delta)
  {
    PairsOnce(rows);
    CountMeaning(rows, delta, Survived);
    CountMeaning(rows, delta, Closed);
    CountMeaning(rows, delta, Censored);
  }
}
