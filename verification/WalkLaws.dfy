/**
 * What the depth walk promises: the early exit is exact, the edge only
 * falls, and per-level fees are the cheaper reading.
 */
module WalkLaws {
  import opened Common
  import opened Fees
  import opened DepthWalk

  ghost predicate NoRebates(w: Walk) {
    forall i :: 0 <= i < |w.yes| ==> w.yesFee[i] >= 0 && w.noFee[i] >= 0
  }

  lemma {:induction false} SumAtMost(s: seq<int>, n: nat, bound: int)
    requires n <= |s| && forall i :: 0 <= i < n ==> s[i] <= bound
    ensures Sum(s, n) <= bound * n
  {
    if n > 0 {
      SumAtMost(s, n - 1, bound);
      assert bound * (n - 1) + bound == bound * n;
    }
  }

  lemma {:induction false} SumRiseAtLeast(s: seq<int>, m: nat, n: nat, bound: int)
    requires m <= n <= |s| && forall i :: m <= i < n ==> s[i] >= bound
    ensures Sum(s, n) - Sum(s, m) >= bound * (n - m)
  {
    if m < n {
      SumRiseAtLeast(s, m, n - 1, bound);
      assert bound * (n - 1 - m) + bound == bound * (n - m);
    }
  }

  lemma StillTooDear(k: int, n: nat, legs: int, last: int)
    requires 0 < n && k * n <= legs <= last * n
    ensures k * (n + 1) <= legs + last
  {
    assert last < k ==> last * n <= (k - 1) * n;
  }

  /** Prefix averages of a sorted ladder never fall: once the legs cost too much, they do at every larger size. */
  lemma TooDearStays(w: Walk, n: nat)
    requires Rising(w.yes) && Rising(w.no) && 0 < n < |w.yes| && TooDear(w, n)
    ensures TooDear(w, n + 1)
  {
    SumAtMost(w.yes, n, w.yes[n]);
    SumAtMost(w.no, n, w.no[n]);
    var last := w.yes[n] + w.no[n];
    assert w.yes[n] * n + w.no[n] * n == last * n;
    StillTooDear(PAYOUT - w.buffer, n, Legs(w, n), last);
  }

  lemma TooDearNeverClears(w: Walk, n: nat)
    requires NoRebates(w) && 0 < n <= |w.yes| && TooDear(w, n)
    ensures !Clears(w, n)
  {
    SumRiseAtLeast(w.yesFee, 0, n, 0);
    SumRiseAtLeast(w.noFee, 0, n, 0);
    assert PAYOUT * n - (PAYOUT - w.buffer) * n == w.buffer * n;
  }

  lemma {:induction false} BeyondHorizon(w: Walk, h: nat, n: nat)
    requires Rising(w.yes) && Rising(w.no) && NoRebates(w)
    requires 0 < h <= n <= |w.yes| && TooDear(w, h)
    ensures TooDear(w, n)
    decreases n - h
  {
    if h < n {
      TooDearStays(w, h);
      BeyondHorizon(w, h + 1, n);
    }
  }

  lemma {:induction false} HorizonStops(w: Walk, n: nat)
    requires n <= |w.yes|
    ensures var h := Horizon(w, n); h < |w.yes| ==> TooDear(w, h + 1)
    decreases |w.yes| - n
  {
    if n < |w.yes| && !TooDear(w, n + 1) { HorizonStops(w, n + 1); }
  }

  /**
   * The size found is the largest of all that clear, up to the cap and the thinner book: the early exit loses nothing.
   */
  lemma EarlyExitLosesNothing(w: Walk, n: nat)
    requires Rising(w.yes) && Rising(w.no) && NoRebates(w)
    requires PlanSize(w) < n <= |w.yes|
    ensures !Clears(w, n)
    ensures PlanSize(w) > 0 ==> Clears(w, PlanSize(w))
  {
    var h := Horizon(w, 0);
    BestIsLargest(w, h);
    HorizonStops(w, 0);
    if n > h {
      BeyondHorizon(w, h + 1, n);
      TooDearNeverClears(w, n);
    }
  }

  // ---- the edge along the walk ----

  /** What the i-th hedge costs, fees included, never falls. */
  ghost predicate CostsRise(w: Walk) {
    && (forall i, j :: 0 <= i < j < |w.yes| ==> w.yes[i] + w.yesFee[i] <= w.yes[j] + w.yesFee[j])
    && (forall i, j :: 0 <= i < j < |w.no| ==> w.no[i] + w.noFee[i] <= w.no[j] + w.noFee[j])
  }

  function Unit(w: Walk, i: nat): int
    requires i < |w.yes|
  {
    w.yes[i] + w.no[i] + w.yesFee[i] + w.noFee[i]
  }

  lemma {:induction false} SpentAtMost(w: Walk, m: nat, bound: int)
    requires m <= |w.yes| && forall i :: 0 <= i < m ==> Unit(w, i) <= bound
    ensures PAYOUT * m - Net(w, m) <= bound * m
  {
    if m > 0 {
      SpentAtMost(w, m - 1, bound);
      assert Unit(w, m - 1) <= bound;
      assert bound * (m - 1) + bound == bound * m;
    }
  }

  lemma {:induction false} SpentRise(w: Walk, m: nat, n: nat, bound: int)
    requires m <= n <= |w.yes| && forall i :: m <= i < n ==> Unit(w, i) >= bound
    ensures (PAYOUT * n - Net(w, n)) - (PAYOUT * m - Net(w, m)) >= bound * (n - m)
  {
    if m < n {
      SpentRise(w, m, n - 1, bound);
      assert Unit(w, n - 1) >= bound;
      assert bound * (n - 1 - m) + bound == bound * (n - m);
    }
  }

  lemma CrossAverages(a: int, b: int, c: int, m: nat, n: nat)
    requires m <= n && a <= c * m && b - a >= c * (n - m)
    ensures a * n <= b * m
  {
    assert a * (n - m) <= (c * m) * (n - m);
    assert (b - a) * m >= (c * (n - m)) * m;
    assert (c * m) * (n - m) == (c * (n - m)) * m;
    assert a * n == a * m + a * (n - m);
    assert b * m == a * m + (b - a) * m;
  }

  /** The per-share edge never rises with size. */
  lemma EdgeNeverRises(w: Walk, m: nat, n: nat)
    requires CostsRise(w) && 0 < m <= n <= |w.yes|
    ensures AtLeast(EdgeAt(w, m), EdgeAt(w, n))
  {
    if m < n {
      var c := Unit(w, m);
      assert forall i :: 0 <= i < m ==> Unit(w, i) <= c;
      assert forall i :: m <= i < n ==> Unit(w, i) >= c;
      SpentAtMost(w, m, c);
      SpentRise(w, m, n, c);
      var a, b := PAYOUT * m - Net(w, m), PAYOUT * n - Net(w, n);
      CrossAverages(a, b, c, m, n);
      CrossNets(a, b, m, n);
    }
  }

  lemma CrossNets(a: int, b: int, m: nat, n: nat)
    requires a * n <= b * m
    ensures (PAYOUT * m - a) * n >= (PAYOUT * n - b) * m
  {
    assert (PAYOUT * m - a) * n == PAYOUT * m * n - a * n;
    assert (PAYOUT * n - b) * m == PAYOUT * n * m - b * m;
    assert PAYOUT * m * n == PAYOUT * n * m;
  }

  lemma AboveBuffer(x: int, y: int, buffer: int, m: nat, n: nat)
    requires 0 < m <= n && x * n >= y * m && y > buffer * n
    ensures x > buffer * m
  {
    assert y * m > (buffer * n) * m;
    assert (buffer * n) * m == (buffer * m) * n;
    assert x <= buffer * m ==> x * n <= (buffer * m) * n;
  }

  /** So the sizes that clear form a prefix of the walk. */
  lemma ClearingSizesArePrefix(w: Walk, m: nat, n: nat)
    requires CostsRise(w) && 0 < m <= n <= |w.yes| && Clears(w, n)
    ensures Clears(w, m)
  {
    EdgeNeverRises(w, m, n);
    AboveBuffer(Net(w, m), Net(w, n), w.buffer, m, n);
  }

  lemma PercentOrder(size: nat, a: nat, b: nat)
    requires 0 < size && a <= b <= 100
    ensures CeilPercent(size, a) <= CeilPercent(size, b) <= size
  {
    assert size * a <= size * b <= size * 100;
  }

  /** The frontier's edges do not increase, and none is below the edge of the plan itself. */
  lemma FrontierFalls(w: Walk)
    requires CostsRise(w) && PlanSize(w) > 0
    ensures var f := PlanOf(w).frontier;
            && |f| == 3 && AtLeast(f[0], f[1]) && AtLeast(f[1], f[2]) && AtLeast(f[2], PlanOf(w).edge)
            && forall k :: 0 <= k < 3 ==> f[k].total > w.buffer * f[k].shares && 0 < f[k].shares <= PlanSize(w)
  {
    var n := PlanSize(w);
    BestIsLargest(w, Horizon(w, 0));
    PercentInRange(n, 25); PercentInRange(n, 50); PercentInRange(n, 75);
    PercentOrder(n, 25, 50); PercentOrder(n, 50, 75); PercentOrder(n, 75, 100);
    var a, b, c := CeilPercent(n, 25), CeilPercent(n, 50), CeilPercent(n, 75);
    EdgeNeverRises(w, a, b);
    EdgeNeverRises(w, b, c);
    EdgeNeverRises(w, c, n);
    ClearingSizesArePrefix(w, a, n);
    ClearingSizesArePrefix(w, b, n);
    ClearingSizesArePrefix(w, c, n);
  }

  // ---- ladders and the venues' own fees ----

  /** Share by share, an ascending ladder only gets dearer, and never beats its best level. */
  lemma {:induction false} SharesRise(l: Ladder)
    requires Ascending(l)
    ensures Rising(Shares(l))
    ensures forall i :: 0 <= i < |Shares(l)| ==> l != [] && Shares(l)[i] >= l[0].price
  {
    if l != [] {
      var rest := l[1..];
      assert forall i :: 0 <= i < |rest| ==> rest[i] == l[i + 1];
      SharesRise(rest);
      var head := Repeat(l[0].price, Whole(l[0].size));
      RepeatIsFlat(l[0].price, Whole(l[0].size));
      assert Shares(l) == head + Shares(rest);
      assert forall i :: 0 <= i < |Shares(rest)| ==> Shares(rest)[i] >= l[0].price;
    }
  }

  lemma LadderWalk(yes: Ladder, no: Ladder, yesFee: FeeTable, noFee: FeeTable, buffer: int, cap: int)
    requires Ascending(yes) && Ascending(no)
    ensures var w := WalkOf(Shares(yes), Shares(no), yesFee, noFee, buffer, cap); Rising(w.yes) && Rising(w.no)
  {
    SharesRise(yes);
    SharesRise(no);
  }

  ghost predicate NoneBelow(s: seq<int>, p: int) {
    forall i :: 0 <= i < |s| ==> s[i] >= p
  }

  lemma LegsAtLeast(w: Walk, n: nat, ya: int, na: int)
    requires n <= |w.yes| && NoneBelow(w.yes, ya) && NoneBelow(w.no, na)
    ensures Legs(w, n) >= (ya + na) * n
  {
    SumRiseAtLeast(w.yes, 0, n, ya);
    SumRiseAtLeast(w.no, 0, n, na);
    assert ya * n + na * n == (ya + na) * n;
  }

  lemma TopIsFloor(l: Ladder, n: nat)
    requires Ascending(l) && 0 < n <= |Shares(l)|
    ensures l != [] && NoneBelow(Shares(l)[..n], l[0].price)
  {
    SharesRise(l);
    assert Shares(l)[0] >= l[0].price;
  }

  /** However many are bought, the legs cost at least the two best levels each. */
  lemma LegsAtLeastTop(yes: Ladder, no: Ladder, yesFee: FeeTable, noFee: FeeTable, buffer: int, cap: int, n: nat)
    requires Ascending(yes) && Ascending(no)
    requires 0 < n <= |WalkOf(Shares(yes), Shares(no), yesFee, noFee, buffer, cap).yes|
    ensures yes != [] && no != []
    ensures Legs(WalkOf(Shares(yes), Shares(no), yesFee, noFee, buffer, cap), n) >= (yes[0].price + no[0].price) * n
  {
    var k := Reach(Shares(yes), Shares(no), cap);
    TopIsFloor(yes, k);
    TopIsFloor(no, k);
    LegsAtLeast(WalkOf(Shares(yes), Shares(no), yesFee, noFee, buffer, cap), n, yes[0].price, no[0].price);
  }

  /** A venue's rounded taker fee at every tick price. */
  function TakerTable(c: real): (t: FeeTable)
    requires 0.0 <= c < 1.0
  {
    seq(10001, p requires 0 <= p <= 10000 => QuadraticFee(c, p as real).value)
  }

  /** Taker fees keep both walk conditions, whatever the coefficients below one. */
  lemma TakersNeverRebate(ys: seq<Price>, ns: seq<Price>, c: real, d: real, buffer: int, cap: int)
    requires 0.0 <= c < 1.0 && 0.0 <= d < 1.0
    ensures NoRebates(WalkOf(ys, ns, TakerTable(c), TakerTable(d), buffer, cap))
  {
    var w := WalkOf(ys, ns, TakerTable(c), TakerTable(d), buffer, cap);
    forall i | 0 <= i < |w.yes| ensures w.yesFee[i] >= 0 && w.noFee[i] >= 0 {
      TakerFeeRange(c, ys[i] as real);
      TakerFeeRange(d, ns[i] as real);
    }
  }

  lemma TakerLegRises(s: seq<Price>, c: real, i: nat, j: nat)
    requires 0.0 <= c < 1.0 && Rising(s) && i < j < |s|
    ensures s[i] + Charged(s, TakerTable(c))[i] <= s[j] + Charged(s, TakerTable(c))[j]
  {
    CostWithFeeRises(c, s[i], s[j]);
  }

  lemma TakerCostsRise(ys: seq<Price>, ns: seq<Price>, c: real, d: real, buffer: int, cap: int)
    requires 0.0 <= c < 1.0 && 0.0 <= d < 1.0 && Rising(ys) && Rising(ns)
    ensures CostsRise(WalkOf(ys, ns, TakerTable(c), TakerTable(d), buffer, cap))
  {
    var n := Reach(ys, ns, cap);
    forall i, j | 0 <= i < j < n
      ensures ys[i] + Charged(ys[..n], TakerTable(c))[i] <= ys[j] + Charged(ys[..n], TakerTable(c))[j]
    {
      TakerLegRises(ys[..n], c, i, j);
    }
    forall i, j | 0 <= i < j < n
      ensures ns[i] + Charged(ns[..n], TakerTable(d))[i] <= ns[j] + Charged(ns[..n], TakerTable(d))[j]
    {
      TakerLegRises(ns[..n], d, i, j);
    }
  }

  // ---- fees level by level against the fee on the average price ----

  function Total(xs: seq<real>, n: nat): real
    requires n <= |xs|
  {
    if n == 0 then 0.0 else Total(xs, n - 1) + xs[n - 1]
  }

  function Curves(s: seq<Price>, c: real): seq<real> {
    seq(|s|, i requires 0 <= i < |s| => Curve(c, s[i] as real))
  }

  function Slope(c: real, a: real): real {
    c * (ONE - 2.0 * a) / ONE
  }

  lemma ScaledSquare(c: real, d: real)
    requires 0.0 <= c
    ensures c * (d * d) >= 0.0
  {
    var sq := d * d;
    Product(c, sq);
  }

  /** The curve lies below each of its tangents. */
  lemma BelowTangent(c: real, p: real, a: real)
    requires 0.0 <= c
    ensures Curve(c, p) <= Curve(c, a) + Slope(c, a) * (p - a)
  {
    var d := p - a;
    var lean := ONE - 2.0 * a;
    assert p * (ONE - p) == a * (ONE - a) + lean * d - d * d;
    ScaledSquare(c, d);
    assert c * (p * (ONE - p)) == c * (a * (ONE - a)) + c * (lean * d) - c * (d * d);
    assert Slope(c, a) * d == c * (lean * d) / ONE by {
      assert (c * lean) * d == c * (lean * d);
    }
  }

  lemma TangentStep(k: real, top: real, m: real, before: real, sum: real, curve: real, p: real, a: real)
    requires before <= m * top + k * (sum - m * a) && curve <= top + k * (p - a)
    ensures before + curve <= (m + 1.0) * top + k * (sum + p - (m + 1.0) * a)
  {
    assert k * (sum - m * a + (p - a)) == k * (sum - m * a) + k * (p - a);
    assert sum + p - (m + 1.0) * a == sum - m * a + (p - a);
  }

  lemma {:induction false} TotalBelowTangent(xs: seq<real>, s: seq<Price>, n: nat, top: real, k: real, a: real)
    requires n <= |s| == |xs| && forall i :: 0 <= i < n ==> xs[i] <= top + k * (s[i] as real - a)
    ensures Total(xs, n) <= n as real * top + k * (Sum(s, n) as real - n as real * a)
  {
    if n > 0 {
      TotalBelowTangent(xs, s, n - 1, top, k, a);
      TangentStep(k, top, (n - 1) as real, Total(xs, n - 1), Sum(s, n - 1) as real, xs[n - 1], s[n - 1] as real, a);
    }
  }

  /** Every value lies under the line of slope `k` through `top` at `a`. */
  ghost predicate Under(xs: seq<real>, s: seq<Price>, top: real, k: real, a: real) {
    |xs| == |s| && forall i :: 0 <= i < |s| ==> xs[i] <= top + k * (s[i] as real - a)
  }

  lemma UnderTangents(s: seq<Price>, c: real, a: real)
    requires 0.0 <= c
    ensures Under(Curves(s, c), s, Curve(c, a), Slope(c, a), a)
  {
    forall i | 0 <= i < |s| ensures Curves(s, c)[i] <= Curve(c, a) + Slope(c, a) * (s[i] as real - a) {
      BelowTangent(c, s[i] as real, a);
    }
  }

  /** At the average itself the tangents' slopes cancel. */
  lemma TotalAtAverage(xs: seq<real>, s: seq<Price>, n: nat, top: real, k: real, a: real)
    requires n <= |s| && Under(xs, s, top, k, a)
    requires a * n as real == Sum(s, n) as real
    ensures Total(xs, n) <= n as real * top
  {
    TotalBelowTangent(xs, s, n, top, k, a);
    var off := Sum(s, n) as real - n as real * a;
    assert off == 0.0 && k * off == 0.0;
  }

  /** Unrounded, the fee charged level by level never exceeds the fee on the average fill price. */
  lemma PerLevelFeeIsCheaper(s: seq<Price>, c: real, n: nat, average: real)
    requires 0.0 <= c && n <= |s| && average * n as real == Sum(s, n) as real
    ensures Total(Curves(s, c), n) <= n as real * Curve(c, average)
  {
    UnderTangents(s, c, average);
    TotalAtAverage(Curves(s, c), s, n, Curve(c, average), Slope(c, average), average);
  }

  ghost predicate Rounds(fees: seq<int>, xs: seq<real>) {
    |xs| == |fees| && forall i :: 0 <= i < |xs| ==> fees[i] as real <= xs[i] + 0.5
  }

  lemma {:induction false} TotalRounded(xs: seq<real>, fees: seq<int>, n: nat)
    requires n <= |xs| && Rounds(fees, xs)
    ensures 2.0 * Sum(fees, n) as real <= 2.0 * Total(xs, n) + n as real
  {
    if n > 0 { TotalRounded(xs, fees, n - 1); }
  }

  lemma ChargedRounds(s: seq<Price>, c: real)
    requires 0.0 <= c < 1.0
    ensures Rounds(Charged(s, TakerTable(c)), Curves(s, c))
  {
    forall i | 0 <= i < |s| ensures Charged(s, TakerTable(c))[i] as real <= Curves(s, c)[i] + 0.5 {
      assert Charged(s, TakerTable(c))[i] == Round(Curve(c, s[i] as real));
    }
  }

  lemma {:induction false} SumInRange(s: seq<Price>, n: nat)
    requires n <= |s|
    ensures 0 <= Sum(s, n) <= 10000 * n
  {
    if n > 0 { SumInRange(s, n - 1); }
  }

  lemma OneTickOver(fees: int, n: nat, total: real, curve: real, rounded: int)
    requires 2.0 * fees as real <= 2.0 * total + n as real && total <= n as real * curve
    requires curve - rounded as real <= 0.5
    ensures fees <= n * (rounded + 1)
  {
    var m, r := n as real, rounded as real;
    ScaledOrder(m, curve, r + 0.5);
    assert m * (r + 0.5) == m * r + 0.5 * m;
    assert (n * (rounded + 1)) as real == m * r + m;
  }

  lemma RoundedAtAverage(xs: seq<real>, s: seq<Price>, fees: seq<int>, n: nat, top: real, k: real, a: real,
                         rounded: int)
    requires n <= |s| && Under(xs, s, top, k, a) && Rounds(fees, xs)
    requires a * n as real == Sum(s, n) as real && top - rounded as real <= 0.5
    ensures Sum(fees, n) <= n * (rounded + 1)
  {
    TotalAtAverage(xs, s, n, top, k, a);
    TotalRounded(xs, fees, n);
    OneTickOver(Sum(fees, n), n, Total(xs, n), top, rounded);
  }

  lemma AverageIsPrice(total: int, n: nat, average: real)
    requires 0 < n && 0 <= total <= 10000 * n && average * n as real == total as real
    ensures 0.0 <= average <= ONE
  {
    assert average < 0.0 ==> average * n as real < 0.0;
    assert average > ONE ==> average * n as real > ONE * n as real;
  }

  /**
   * With every fee rounded to a tick, level by level costs at most one
   * tick a share more than the fee on the average price.
   */
  lemma RoundedPerLevelFee(s: seq<Price>, c: real, n: nat, average: real)
    requires 0.0 <= c < 1.0 && 0 < n <= |s| && average * n as real == Sum(s, n) as real
    ensures QuadraticFee(c, average).Some?
    ensures Sum(Charged(s, TakerTable(c)), n) <= n * (QuadraticFee(c, average).value + 1)
  {
    SumInRange(s, n);
    AverageIsPrice(Sum(s, n), n, average);
    UnderTangents(s, c, average);
    ChargedRounds(s, c);
    RoundedAtAverage(Curves(s, c), s, Charged(s, TakerTable(c)), n, Curve(c, average), Slope(c, average), average,
                     Round(Curve(c, average)));
  }

  lemma NoTickOver(fees: int, n: nat, total: real, curve: real, rounded: int)
    requires 2.0 * fees as real <= 2.0 * total + n as real && total + n as real <= n as real * curve
    requires curve - rounded as real <= 0.5
    ensures fees <= n * rounded
  {
    var m, r := n as real, rounded as real;
    ScaledOrder(m, curve, r + 0.5);
    assert m * (r + 0.5) == m * r + 0.5 * m;
    assert (n * rounded) as real == m * r;
  }

  /**
   * Where the levels are far enough apart to save a tick a share unrounded, rounding cannot turn the comparison round.
   */
  lemma SlackSurvivesRounding(s: seq<Price>, c: real, n: nat, average: real)
    requires 0.0 <= c < 1.0 && 0 < n <= |s| && average * n as real == Sum(s, n) as real
    requires Total(Curves(s, c), n) + n as real <= n as real * Curve(c, average)
    ensures QuadraticFee(c, average).Some?
    ensures Sum(Charged(s, TakerTable(c)), n) <= n * QuadraticFee(c, average).value
  {
    SumInRange(s, n);
    AverageIsPrice(Sum(s, n), n, average);
    ChargedRounds(s, c);
    TotalRounded(Curves(s, c), Charged(s, TakerTable(c)), n);
    NoTickOver(Sum(Charged(s, TakerTable(c)), n), n, Total(Curves(s, c), n), Curve(c, average),
               Round(Curve(c, average)));
  }

  /**
   * Rounding can turn the comparison round: 6 and 8 ticks pay a fee on the second share only, their average pays none.
   */
  lemma AverageMayUnderstate()
    ensures Sum(Charged([6, 8], TakerTable(KALSHI_COEFFICIENT)), 2) == 1
    ensures QuadraticFee(KALSHI_COEFFICIENT, 7.0) == Some(0)
  {
    var s: seq<Price> := [6, 8];
    var f := Charged(s, TakerTable(KALSHI_COEFFICIENT));
    assert Curve(KALSHI_COEFFICIENT, 6.0) == 0.419748;
    assert Curve(KALSHI_COEFFICIENT, 8.0) == 0.559552;
    assert Curve(KALSHI_COEFFICIENT, 7.0) == 0.489657;
    assert f[0] == 0 && f[1] == 1;
    assert Sum(f, 1) == f[0];
  }
}
