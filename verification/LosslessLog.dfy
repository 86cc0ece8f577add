/** Corollaries of the curve's meaning, and the law of the lossy log. */
module CurveCorollaries {
  import opened Common
  import opened Samples
  import opened Survival
  import opened SurvivalLaw

  /** Every window has exactly one fate, whatever the rows. */
  lemma {:induction false} EveryWindowCounted(ws: seq<Window>, delta: int)
    ensures var p := PointAt(ws, delta); p.known + p.censored == |ws| && p.survived <= p.known
  {
    if ws != [] { EveryWindowCounted(ws[..|ws| - 1], delta); }
  }

  lemma QuotientInRange(n: nat, k: nat)
    requires 0 < k && n <= 1000 * k
    ensures 0 <= n / k <= 1000 && (n / k == 1000 ==> n % k == 0)
  {
    var q, r := n / k, n % k;
    assert n == q * k + r && 0 <= r < k;
    if q >= 1000 { assert q * k >= 1000 * k; }
  }

  /** The percentage is a percentage, and absent exactly when nothing is known. */
  lemma PctInRange(p: SurvivalPoint)
    requires p.survived <= p.known
    ensures p.Pct().None? <==> p.known == 0
    ensures p.Pct().Some? ==> 0 <= p.Pct().value <= 1000
  {
    if p.known > 0 { QuotientInRange(1000 * p.survived, p.known); }
  }

  /** The order in which rows arrive does not matter. */
  lemma ArrivalOrderIrrelevant(rows: seq<Sample>, shuffled: seq<Sample>, delta: int)
    requires Distinct(rows) && Distinct(shuffled) && Elements(rows) == Elements(shuffled)
    ensures PointAt(Windows(rows), delta) == PointAt(Windows(shuffled), delta)
  {
    CurveMeaning(rows, delta);
    CurveMeaning(shuffled, delta);
  }

  lemma ZeroDelta(R: set<Sample>, r: Sample)
    requires Keyed(R) && Opens(R, r) && r.reason != Some(Unsubscribed)
    ensures HasFate(R, r, r.at + 0, Survived)
  {
    assert IsState(R, r, r, r.at);
  }

  /** At delta 0 every window survived and none is censored. */
  lemma DeltaZeroIsEveryWindow(rows: seq<Sample>)
    requires Distinct(rows)
    requires forall r :: r in rows && Viable(r) ==> r.reason != Some(Unsubscribed)
    ensures PointAt(Windows(rows), 0) == SurvivalPoint(0, |Windows(rows)|, |Windows(rows)|, 0)
  {
    var R := Elements(rows);
    CurveMeaning(rows, 0);
    EveryWindowCounted(Windows(rows), 0);
    forall r | r in R && Opens(R, r) ensures HasFate(R, r, r.at + 0, Survived) {
      ZeroDelta(R, r);
    }
    forall f: Fate | f != Survived ensures WithFate(R, 0, f) == {} {
      forall r | r in WithFate(R, 0, f) ensures false {
        ZeroExclusive(R, r, r.at + 0, f);
      }
    }
  }

  lemma ZeroExclusive(R: set<Sample>, r: Sample, target: int, f: Fate)
    requires Keyed(R) && HasFate(R, r, target, Survived) && f != Survived
    ensures !HasFate(R, r, target, f)
  {
    forall s, t | IsState(R, s, r, target) && IsState(R, t, r, target) ensures s == t {
      assert SameKey(s, t);
    }
  }

  ghost function Of(R: set<Sample>, P: set<PairKey>): set<Sample> {
    set r | r in R && r.pair in P
  }

  lemma OpensLocal(R: set<Sample>, P: set<PairKey>, r: Sample)
    requires r in R && r.pair in P
    ensures Opens(R, r) <==> Opens(Of(R, P), r)
  {
    forall s ensures Precedes(R, s, r) <==> Precedes(Of(R, P), s, r) {}
  }

  lemma FateLocal(R: set<Sample>, P: set<PairKey>, r: Sample, target: int, f: Fate)
    requires r in R && r.pair in P
    ensures HasFate(R, r, target, f) <==> HasFate(Of(R, P), r, target, f)
  {
    var Q := Of(R, P);
    forall s ensures IsState(R, s, r, target) <==> IsState(Q, s, r, target) {}
    assert EndsBefore(R, r.pair, target) <==> EndsBefore(Q, r.pair, target);
  }

  lemma RowOfGroup(R: set<Sample>, P: set<PairKey>, delta: int, f: Fate, r: Sample)
    ensures r in WithFate(Of(R, P), delta, f) <==> r in WithFate(R, delta, f) && r.pair in P
  {
    if r in R && r.pair in P {
      OpensLocal(R, P, r);
      FateLocal(R, P, r, r.at + delta, f);
    }
  }

  /** Pairs do not bleed into each other: the curve of two groups of pairs is the sum of their curves. */
  lemma PairsAreIndependent(R: set<Sample>, P: set<PairKey>, Q: set<PairKey>, delta: int, f: Fate)
    requires P !! Q && forall r :: r in R ==> r.pair in P + Q
    ensures |WithFate(R, delta, f)| == |WithFate(Of(R, P), delta, f)| + |WithFate(Of(R, Q), delta, f)|
  {
    var All, A, B := WithFate(R, delta, f), WithFate(Of(R, P), delta, f), WithFate(Of(R, Q), delta, f);
    forall r ensures r in A <==> r in All && r.pair in P {
      RowOfGroup(R, P, delta, f, r);
    }
    forall r ensures r in B <==> r in All && r.pair in Q {
      RowOfGroup(R, Q, delta, f, r);
    }
    assert forall r :: r in All ==> r in R;
    assert All == A + B && A !! B;
  }
}

/**
 * The collector writes only some of its evaluations. `F` holds every evaluation and every close marker,
 * `W` the rows that were written.
 */
module LosslessLog {
  import opened Common
  import opened Samples
  import opened Survival
  import opened SurvivalLaw

  ghost predicate IsMarker(r: Sample) {
    r.reason == Some(Unsubscribed)
  }

  /** What the write policy guarantees of the rows it skips. */
  ghost predicate LogOf(F: set<Sample>, W: set<Sample>) {
    && Keyed(F) && W <= F
    && (forall r {:trigger r in F} {:trigger r in W} :: r in F && (Viable(r) || IsMarker(r)) ==> r in W)
    && (forall r, s {:trigger Precedes(F, s, r)} :: r in F && r !in W && Precedes(F, s, r) ==> !Viable(s))
  }

  /** A close marker ends a window: the row before it is viable, itself is not. */
  ghost predicate MarkersClose(F: set<Sample>) {
    forall r :: r in F && IsMarker(r) ==>
        !Viable(r) && exists s {:trigger Precedes(F, s, r)} :: Precedes(F, s, r) && Viable(s)
  }

  /** The first evaluation after a close marker is in the log. */
  ghost predicate Resumes(F: set<Sample>, W: set<Sample>) {
    forall r, s {:trigger Precedes(F, s, r)} :: r in F && r !in W && Precedes(F, s, r) ==> !IsMarker(s)
  }

  lemma {:induction false} NextRow(F: set<Sample>, w: Sample, x: Sample) returns (u: Sample)
    requires w in F && x in F && w.pair == x.pair && w.at < x.at && Keyed(F)
    ensures u in F && Precedes(F, w, u) && u.at <= x.at
    decreases x.at - w.at
  {
    if forall y :: y in F && y.pair == x.pair && y.at < x.at ==> y.at <= w.at {
      u := x;
    } else {
      var y :| y in F && y.pair == x.pair && w.at < y.at < x.at;
      u := NextRow(F, w, y);
    }
  }

  lemma {:induction false} PreviousRow(F: set<Sample>, w: Sample, x: Sample) returns (s: Sample)
    requires w in F && w.pair == x.pair && w.at < x.at
    ensures Precedes(F, s, x) && w.at <= s.at
    decreases x.at - w.at
  {
    if forall y :: y in F && y.pair == x.pair && y.at < x.at ==> y.at <= w.at {
      s := w;
    } else {
      var y :| y in F && y.pair == x.pair && w.at < y.at < x.at;
      s := PreviousRow(F, y, x);
    }
  }

  lemma {:induction false} StateExists(R: set<Sample>, w: Sample, r: Sample, target: int) returns (s: Sample)
    requires w in R && w.pair == r.pair && r.at <= w.at <= target
    ensures IsState(R, s, r, target)
    decreases target - w.at
  {
    if IsState(R, w, r, target) {
      s := w;
    } else {
      var y :| y in R && y.pair == r.pair && w.at < y.at <= target;
      s := StateExists(R, y, r, target);
    }
  }

  lemma OpensSame(F: set<Sample>, W: set<Sample>, r: Sample)
    requires LogOf(F, W)
    ensures Opens(F, r) <==> Opens(W, r)
  {
    if r in F && Viable(r) {
      assert r in W;
      forall s | Precedes(F, s, r) && Viable(s) ensures Precedes(W, s, r) {}
      forall w | Precedes(W, w, r) && Viable(w) ensures Precedes(F, w, r) {
        var u := NextRow(F, w, r);
        assert u.at < r.at ==> u !in W;
      }
    }
  }

  /** The state row in the log is the state row among all rows, or a row that was followed by a skipped one. */
  lemma StatesAgree(F: set<Sample>, W: set<Sample>, r: Sample, target: int, f: Sample, w: Sample)
    requires LogOf(F, W) && r in W && IsState(F, f, r, target) && IsState(W, w, r, target)
    ensures f == w || (f !in W && !Viable(f) && !IsMarker(f) && !Viable(w)
                       && exists u :: u in F && u !in W && Precedes(F, w, u))
  {
    assert SameKey(w, f) <==> w.at == f.at;
    if f !in W {
      assert w.at < f.at;
      var u := NextRow(F, w, f);
      assert u !in W;
    }
  }

  lemma EndsAgree(F: set<Sample>, W: set<Sample>, r: Sample, target: int, s: Sample)
    requires LogOf(F, W) && IsState(F, s, r, target) && IsState(W, s, r, target) && Viable(s)
    ensures EndsBefore(F, r.pair, target) <==> EndsBefore(W, r.pair, target)
  {
    if x :| x in F && x.pair == r.pair && x.at >= target {
      if x.at > s.at {
        var u := NextRow(F, s, x);
        assert u in W;
        assert u.at >= target;
      } else {
        assert s.at >= target;
      }
    }
  }

  lemma OneState(R: set<Sample>, r: Sample, target: int, s: Sample)
    requires Keyed(R) && IsState(R, s, r, target)
    ensures forall t {:trigger IsState(R, t, r, target)} :: IsState(R, t, r, target) ==> t == s
  {
    forall t | IsState(R, t, r, target) ensures t == s {
      assert SameKey(s, t);
    }
  }

  /** Either both have the same state row, or the log's state row was followed by a skipped evaluation. */
  lemma StatePair(F: set<Sample>, W: set<Sample>, r: Sample, target: int) returns (f: Sample, w: Sample)
    requires LogOf(F, W) && r in W && r.at <= target
    ensures IsState(F, f, r, target) && IsState(W, w, r, target)
    ensures forall t {:trigger IsState(F, t, r, target)} :: IsState(F, t, r, target) ==> t == f
    ensures forall t {:trigger IsState(W, t, r, target)} :: IsState(W, t, r, target) ==> t == w
    ensures f == w || (!Viable(f) && !IsMarker(f) && !Viable(w) && (Resumes(F, W) ==> !IsMarker(w)))
    ensures f == w && Viable(f) ==> (EndsBefore(F, r.pair, target) <==> EndsBefore(W, r.pair, target))
  {
    f := StateExists(F, r, r, target);
    w := StateExists(W, r, r, target);
    OneState(F, r, target, f);
    OneState(W, r, target, w);
    StatesAgree(F, W, r, target, f, w);
    if f == w && Viable(f) {
      EndsAgree(F, W, r, target, f);
    }
  }

  lemma SurvivedSame(F: set<Sample>, W: set<Sample>, r: Sample, target: int)
    requires LogOf(F, W) && r in W
    ensures IsSurvived(F, r, target) <==> IsSurvived(W, r, target)
  {
    if r.at <= target { var f, w := StatePair(F, W, r, target); }
  }

  lemma CensoredKept(F: set<Sample>, W: set<Sample>, r: Sample, target: int)
    requires LogOf(F, W) && r in W && IsCensored(F, r, target)
    ensures IsCensored(W, r, target)
  {
    var f, w := StatePair(F, W, r, target);
  }

  lemma CensoredSame(F: set<Sample>, W: set<Sample>, r: Sample, target: int)
    requires LogOf(F, W) && r in W && Resumes(F, W)
    ensures IsCensored(F, r, target) <==> IsCensored(W, r, target)
  {
    if r.at <= target { var f, w := StatePair(F, W, r, target); }
  }

  lemma FateKept(F: set<Sample>, W: set<Sample>, r: Sample, target: int, f: Fate)
    requires LogOf(F, W) && Resumes(F, W) && r in W
    ensures HasFate(F, r, target, f) <==> HasFate(W, r, target, f)
  {
    SurvivedSame(F, W, r, target);
    CensoredSame(F, W, r, target);
  }

  lemma RowKeepsFate(F: set<Sample>, W: set<Sample>, r: Sample, delta: int, f: Fate)
    requires LogOf(F, W) && Resumes(F, W)
    ensures r in WithFate(F, delta, f) <==> r in WithFate(W, delta, f)
  {
    OpensSame(F, W, r);
    if r in W { FateKept(F, W, r, r.at + delta, f); }
  }

  lemma ResumedLogSameFates(F: set<Sample>, W: set<Sample>, delta: int, f: Fate)
    requires LogOf(F, W) && Resumes(F, W)
    ensures WithFate(F, delta, f) == WithFate(W, delta, f)
  {
    forall r ensures r in WithFate(F, delta, f) <==> r in WithFate(W, delta, f) {
      RowKeepsFate(F, W, r, delta, f);
    }
  }

  lemma {:induction false} OpeningOf(F: set<Sample>, v: Sample) returns (o: Sample)
    requires v in F && Viable(v)
    ensures Opens(F, o) && o.pair == v.pair && o.at <= v.at
    decreases |set x | x in F && x.pair == v.pair && x.at < v.at|
  {
    if Opens(F, v) {
      o := v;
    } else {
      var s :| Precedes(F, s, v) && Viable(s);
      var later := set x | x in F && x.pair == v.pair && x.at < v.at;
      var earlier := set x | x in F && x.pair == s.pair && x.at < s.at;
      assert s in later && s !in earlier && earlier <= later;
      ProperSubsetSmaller(earlier, later, s);
      o := OpeningOf(F, s);
    }
  }

  lemma ProperSubsetSmaller(a: set<Sample>, b: set<Sample>, x: Sample)
    requires a <= b && x in b && x !in a
    ensures |a| < |b|
  {
    assert b == a + (b - a);
    assert x in b - a;
  }

  lemma CensoredRowStays(F: set<Sample>, W: set<Sample>, r: Sample, delta: int)
    requires LogOf(F, W) && r in WithFate(F, delta, Censored)
    ensures r in WithFate(W, delta, Censored)
  {
    OpensSame(F, W, r);
    CensoredKept(F, W, r, r.at + delta);
  }

  lemma CensoredStaysCensored(F: set<Sample>, W: set<Sample>, delta: int)
    requires LogOf(F, W)
    ensures WithFate(F, delta, Censored) <= WithFate(W, delta, Censored)
  {
    forall r | r in WithFate(F, delta, Censored) ensures r in WithFate(W, delta, Censored) {
      CensoredRowStays(F, W, r, delta);
    }
  }

  /** Seen from the window a marker closed, at the instant of the skipped row, the two logs disagree. */
  lemma SkippedRowTells(F: set<Sample>, W: set<Sample>, r: Sample, u: Sample, o: Sample)
    requires LogOf(F, W) && r in F && r !in W && Precedes(F, u, r) && IsMarker(u)
    requires o.pair == u.pair && o.at <= u.at
    ensures IsCensored(W, o, r.at) && !IsCensored(F, o, r.at)
  {
    forall x | x in W && x.pair == o.pair && x.at <= r.at ensures x.at <= u.at {
      assert SameKey(x, r) <==> x.at == r.at;
    }
    assert IsState(W, u, o, r.at);
    assert IsState(F, r, o, r.at);
    OneState(F, o, r.at, r);
  }

  /** So a log that skips the first evaluation after a marker shows at some delta. */
  lemma SkippedResumptionShows(F: set<Sample>, W: set<Sample>, r: Sample, u: Sample) returns (delta: int)
    requires LogOf(F, W) && MarkersClose(F) && r in F && r !in W && Precedes(F, u, r) && IsMarker(u)
    ensures |WithFate(F, delta, Censored)| < |WithFate(W, delta, Censored)|
  {
    var v :| Precedes(F, v, u) && Viable(v);
    var o := OpeningOf(F, v);
    delta := r.at - o.at;
    CensoredStaysCensored(F, W, delta);
    OpensSame(F, W, o);
    SkippedRowTells(F, W, r, u, o);
    assert o.at + delta == r.at;
    ProperSubsetSmaller(WithFate(F, delta, Censored), WithFate(W, delta, Censored), o);
  }

  /** At the target a marker is the last row of the log in reach, but a skipped evaluation has followed it. */
  ghost predicate Misled(F: set<Sample>, W: set<Sample>, o: Sample, target: int) {
    exists r, u {:trigger IsState(F, r, o, target), IsState(W, u, o, target)} ::
      IsState(F, r, o, target) && r !in W && IsState(W, u, o, target) && IsMarker(u)
  }

  /** Some window is seen wrongly at this delta. */
  ghost predicate MisledAt(F: set<Sample>, W: set<Sample>, delta: int) {
    exists o {:trigger Opens(F, o)} :: Opens(F, o) && Misled(F, W, o, o.at + delta)
  }

  lemma MisledIsCensored(F: set<Sample>, W: set<Sample>, o: Sample, target: int)
    requires LogOf(F, W) && Misled(F, W, o, target)
    ensures IsCensored(W, o, target) && !IsCensored(F, o, target)
  {
    var r, u :| IsState(F, r, o, target) && r !in W && IsState(W, u, o, target) && IsMarker(u);
    OneState(F, o, target, r);
  }

  lemma FateKeptAt(F: set<Sample>, W: set<Sample>, o: Sample, target: int, f: Fate)
    requires LogOf(F, W) && o in W && !Misled(F, W, o, target)
    ensures HasFate(F, o, target, f) <==> HasFate(W, o, target, f)
  {
    SurvivedSame(F, W, o, target);
    if o.at <= target {
      var r, u := StatePair(F, W, o, target);
      StatesAgree(F, W, o, target, r, u);
    }
  }

  lemma SameFatesAt(F: set<Sample>, W: set<Sample>, delta: int, f: Fate)
    requires LogOf(F, W) && !MisledAt(F, W, delta)
    ensures WithFate(F, delta, f) == WithFate(W, delta, f)
  {
    forall o ensures o in WithFate(F, delta, f) <==> o in WithFate(W, delta, f) {
      OpensSame(F, W, o);
      if Opens(F, o) { FateKeptAt(F, W, o, o.at + delta, f); }
    }
  }

  /**
   * At one delta, whatever its unit, the log gives the curve's point exactly when no window is seen wrongly there. The
   * source's deltas are whole milliseconds: what a log loses between two of them its curve does not show.
   */
  lemma LosslessAtDelta(F: set<Sample>, W: set<Sample>, delta: int)
    requires LogOf(F, W)
    ensures PointOf(W, delta) == PointOf(F, delta) <==> !MisledAt(F, W, delta)
  {
    if MisledAt(F, W, delta) {
      var o :| Opens(F, o) && Misled(F, W, o, o.at + delta);
      CensoredStaysCensored(F, W, delta);
      OpensSame(F, W, o);
      MisledIsCensored(F, W, o, o.at + delta);
      ProperSubsetSmaller(WithFate(F, delta, Censored), WithFate(W, delta, Censored), o);
    } else {
      forall f: Fate ensures WithFate(F, delta, f) == WithFate(W, delta, f) { SameFatesAt(F, W, delta, f); }
    }
  }

  /**
   * The lossy log loses nothing for the survival curve, at any delta in microseconds, exactly when it holds the first
   * evaluation after every close marker.
   */
  lemma LosslessExactlyWhenResumed(F: set<Sample>, W: set<Sample>)
    requires LogOf(F, W) && MarkersClose(F)
    ensures (forall delta :: PointOf(W, delta) == PointOf(F, delta)) <==> Resumes(F, W)
  {
    if Resumes(F, W) {
      forall delta ensures PointOf(W, delta) == PointOf(F, delta) {
        forall f: Fate ensures WithFate(F, delta, f) == WithFate(W, delta, f) {
          ResumedLogSameFates(F, W, delta, f);
        }
      }
    } else {
      var r, u :| r in F && r !in W && Precedes(F, u, r) && IsMarker(u);
      var delta := SkippedResumptionShows(F, W, r, u);
      assert PointOf(W, delta) != PointOf(F, delta);
    }
  }
}
