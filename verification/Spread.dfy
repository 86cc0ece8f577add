/** The depth walk of the detector (pmarb/detection/spread.py). Money is in ticks of 1e-4 dollars. */
module DepthWalk {
  const PAYOUT: int := 10000

  /** One ask level: a price in [0, 1] dollars and the shares on offer, which need not be whole. */
  type Price = p: int | 0 <= p <= 10000

  /** A per-share fee for every tick price. */
  type FeeTable = f: seq<int> | |f| == 10001 witness seq(10001, i => 0)

  datatype Level = Level(price: Price, size: real)

  type Ladder = seq<Level>

  ghost predicate Ascending(l: Ladder) {
    forall i, j :: 0 <= i < j < |l| ==> l[i].price <= l[j].price
  }

  ghost predicate Rising(s: seq<int>) {
    forall i, j :: 0 <= i < j < |s| ==> s[i] <= s[j]
  }

  function Repeat(p: Price, n: nat): seq<Price> {
    if n == 0 then [] else [p] + Repeat(p, n - 1)
  }

  lemma {:induction false} RepeatIsFlat(p: Price, n: nat)
    ensures |Repeat(p, n)| == n && forall i :: 0 <= i < n ==> Repeat(p, n)[i] == p
  {
    if n > 0 { RepeatIsFlat(p, n - 1); }
  }

  function Whole(size: real): nat {
    if size < 1.0 then 0 else size.Floor
  }

  /** The ladder one whole share at a time. */
  function Shares(l: Ladder): seq<Price> {
    if l == [] then [] else Repeat(l[0].price, Whole(l[0].size)) + Shares(l[1..])
  }

  function Sum(s: seq<int>, n: nat): int
    requires n <= |s|
  {
    if n == 0 then 0 else Sum(s, n - 1) + s[n - 1]
  }

  /** Equal shares of both legs, as far as both books and the cap reach. */
  datatype RawWalk = Walk(yes: seq<int>, no: seq<int>, yesFee: seq<int>, noFee: seq<int>, buffer: int)

  type Walk = w: RawWalk | |w.yes| == |w.no| == |w.yesFee| == |w.noFee| witness Walk([], [], [], [], 0)

  function Charged(s: seq<Price>, fee: FeeTable): seq<int> {
    seq(|s|, i requires 0 <= i < |s| => fee[s[i]])
  }

  function Reach(ys: seq<Price>, ns: seq<Price>, cap: int): (n: nat)
    ensures n <= |ys| && n <= |ns| && (cap >= 0 ==> n <= cap) && (cap < 0 ==> n == 0)
    ensures n == |ys| || n == |ns| || n == cap || cap < 0
  {
    var thinner := if |ys| <= |ns| then |ys| else |ns|;
    if cap < 0 then 0 else if cap < thinner then cap else thinner
  }

  function WalkOf(ys: seq<Price>, ns: seq<Price>, yesFee: FeeTable, noFee: FeeTable, buffer: int, cap: int): Walk {
    var n := Reach(ys, ns, cap);
    Walk(ys[..n], ns[..n], Charged(ys[..n], yesFee), Charged(ns[..n], noFee), buffer)
  }

  /** What `n` hedges cost, before and after fees, and what they net when each pays out exactly once. */
  function Legs(w: Walk, n: nat): int
    requires n <= |w.yes|
  {
    Sum(w.yes, n) + Sum(w.no, n)
  }

  function Net(w: Walk, n: nat): int
    requires n <= |w.yes|
  {
    PAYOUT * n - Legs(w, n) - Sum(w.yesFee, n) - Sum(w.noFee, n)
  }

  /** The average edge of `n` hedges exceeds the buffer. */
  predicate Clears(w: Walk, n: nat)
    requires n <= |w.yes|
  {
    n > 0 && Net(w, n) > w.buffer * n
  }

  /** The legs alone cost too much on average. */
  predicate TooDear(w: Walk, n: nat)
    requires n <= |w.yes|
  {
    Legs(w, n) >= (PAYOUT - w.buffer) * n
  }

  /** How many sizes the walk gets past before its early exit. */
  function Horizon(w: Walk, n: nat): (h: nat)
    requires n <= |w.yes|
    ensures n <= h <= |w.yes|
    decreases |w.yes| - n
  {
    if n == |w.yes| || TooDear(w, n + 1) then n else Horizon(w, n + 1)
  }

  /** The largest size up to `m` that clears. */
  function Best(w: Walk, m: nat): (b: nat)
    requires m <= |w.yes|
    ensures b <= m
  {
    if m == 0 || Clears(w, m) then m else Best(w, m - 1)
  }

  function PlanSize(w: Walk): nat {
    Best(w, Horizon(w, 0))
  }

  /** A total over a number of shares: the per-share edge is their quotient. */
  datatype Edge = Edge(total: int, shares: nat)

  /** a's per-share edge is at least b's. */
  predicate AtLeast(a: Edge, b: Edge) {
    a.total * b.shares >= b.total * a.shares
  }

  function EdgeAt(w: Walk, n: nat): Edge
    requires n <= |w.yes|
  {
    Edge(Net(w, n), n)
  }

  /** The edge at every size walked. */
  function Edges(w: Walk, n: nat): (r: seq<Edge>)
    requires n <= |w.yes|
    ensures |r| == n
  {
    if n == 0 then [] else Edges(w, n - 1) + [EdgeAt(w, n)]
  }

  lemma {:induction false} EdgesAt(w: Walk, n: nat, k: nat)
    requires k < n <= |w.yes|
    ensures Edges(w, n)[k] == EdgeAt(w, k + 1)
  {
    if k < n - 1 { EdgesAt(w, n - 1, k); }
  }

  datatype FillPlan = FillPlan(size: nat, yesCost: int, noCost: int, yesFee: int, noFee: int, edge: Edge,
                               frontier: seq<Edge>)

  const NO_FILL: FillPlan := FillPlan(0, 0, 0, 0, 0, Edge(0, 0), [])

  function CeilPercent(size: nat, pct: nat): nat {
    (size * pct + 99) / 100
  }

  /** The edges at the quarter points of the walk, the end itself left out. */
  function Frontier(edges: seq<Edge>, size: nat): seq<Edge>
    requires size <= |edges|
  {
    if size == 0 then []
    else
      PercentInRange(size, 25); PercentInRange(size, 50); PercentInRange(size, 75);
      [edges[CeilPercent(size, 25) - 1], edges[CeilPercent(size, 50) - 1], edges[CeilPercent(size, 75) - 1]]
  }

  function PlanAt(w: Walk, n: nat): FillPlan
    requires n <= |w.yes|
  {
    if n == 0 then NO_FILL
    else FillPlan(n, Sum(w.yes, n), Sum(w.no, n), Sum(w.yesFee, n), Sum(w.noFee, n), EdgeAt(w, n), [])
  }

  function PlanOf(w: Walk): FillPlan {
    var n := PlanSize(w);
    PlanAt(w, n).(frontier := if n == 0 then [] else
      PercentInRange(n, 25); PercentInRange(n, 50); PercentInRange(n, 75);
      [EdgeAt(w, CeilPercent(n, 25)), EdgeAt(w, CeilPercent(n, 50)), EdgeAt(w, CeilPercent(n, 75))])
  }

  /** `w` is the walk over these shares, as far as it goes. */
  ghost predicate Walks(w: Walk, ys: seq<Price>, ns: seq<Price>, yesFee: FeeTable, noFee: FeeTable) {
    && |w.yes| <= |ys| && |w.yes| <= |ns|
    && forall i {:trigger w.yes[i]} {:trigger ys[i]} :: 0 <= i < |w.yes| ==>
         w.yes[i] == ys[i] && w.no[i] == ns[i] && w.yesFee[i] == yesFee[ys[i]] && w.noFee[i] == noFee[ns[i]]
  }

  /** What the loop holds after `n` shares: both legs' costs and fees, the best plan and every edge so far. */
  ghost predicate Accumulated(w: Walk, n: nat, yesCost: int, noCost: int, yesPaid: int, noPaid: int, best: FillPlan,
                              edges: seq<Edge>)
  {
    && n <= |w.yes|
    && yesCost == Sum(w.yes, n) && noCost == Sum(w.no, n)
    && yesPaid == Sum(w.yesFee, n) && noPaid == Sum(w.noFee, n)
    && Horizon(w, 0) == Horizon(w, n)
    && best == PlanAt(w, Best(w, n)) && edges == Edges(w, n)
  }

  /** One more share of each leg: either the early exit, or the next accumulation. */
  lemma StepWalk(w: Walk, n: nat, yesCost: int, noCost: int, yesPaid: int, noPaid: int, best: FillPlan,
                 edges: seq<Edge>)
    requires Accumulated(w, n, yesCost, noCost, yesPaid, noPaid, best, edges) && n < |w.yes|
    ensures var yc, nc, yf, nf := yesCost + w.yes[n], noCost + w.no[n], yesPaid + w.yesFee[n], noPaid + w.noFee[n];
            if yc + nc >= (PAYOUT - w.buffer) * (n + 1) then Horizon(w, 0) == n && best == PlanAt(w, PlanSize(w))
            else
              var edge := Edge(PAYOUT * (n + 1) - (yc + nc) - (yf + nf), n + 1);
              var next := if edge.total > w.buffer * (n + 1) then FillPlan(n + 1, yc, nc, yf, nf, edge, []) else best;
              Accumulated(w, n + 1, yc, nc, yf, nf, next, edges + [edge])
  {
  }

  /** Best is the largest clearing size up to `m`, or 0 when none clears. */
  lemma {:induction false} BestIsLargest(w: Walk, m: nat)
    requires m <= |w.yes|
    ensures Best(w, m) > 0 ==> Clears(w, Best(w, m))
    ensures forall n :: Best(w, m) < n <= m ==> !Clears(w, n)
  {
    if m > 0 && !Clears(w, m) { BestIsLargest(w, m - 1); }
  }

  /** The loop: accumulates both legs share by share and keeps the largest size that clears. */
  method WalkLadders(ys: seq<Price>, ns: seq<Price>, yesFee: FeeTable, noFee: FeeTable, buffer: int, cap: int,
                     ghost w: Walk)
    returns (best: FillPlan, edges: seq<Edge>)
    requires Walks(w, ys, ns, yesFee, noFee) && w.buffer == buffer && |w.yes| == Reach(ys, ns, cap)
    ensures best == PlanAt(w, PlanSize(w))
    ensures PlanSize(w) <= |edges| <= |w.yes| && edges == Edges(w, |edges|)
  {
    var filled := 0;
    var yesCost, noCost, yesPaid, noPaid := 0, 0, 0, 0;
    best, edges := NO_FILL, [];
    while filled < cap && filled < |ys| && filled < |ns|
      invariant 0 <= filled <= |w.yes| && Accumulated(w, filled, yesCost, noCost, yesPaid, noPaid, best, edges)
    {
      StepWalk(w, filled, yesCost, noCost, yesPaid, noPaid, best, edges);
      var yp, np := ys[filled], ns[filled];
      assert w.yes[filled] == yp && w.no[filled] == np && w.yesFee[filled] == yesFee[yp];
      assert w.noFee[filled] == noFee[np];
      var yesNext, noNext := yesCost + yp, noCost + np;
      yesPaid := yesPaid + yesFee[yp];
      noPaid := noPaid + noFee[np];
      if yesNext + noNext >= (PAYOUT - buffer) * (filled + 1) {
        return;
      }
      filled, yesCost, noCost := filled + 1, yesNext, noNext;
      var edge := Edge(PAYOUT * filled - (yesCost + noCost) - (yesPaid + noPaid), filled);
      edges := edges + [edge];
      if edge.total > buffer * filled {
        best := FillPlan(filled, yesCost, noCost, yesPaid, noPaid, edge, []);
      }
    }
  }

  lemma PercentInRange(size: nat, pct: nat)
    requires 0 < size && 0 < pct <= 100
    ensures 1 <= CeilPercent(size, pct) <= size
  {
    assert 0 < size * pct <= size * 100;
  }

  /** The largest hedge whose average per-share economics clear the buffer, with its frontier. */
  method MaxFillableSize(yesDepth: Ladder, noDepth: Ladder, yesFee: FeeTable, noFee: FeeTable, buffer: int, cap: int)
    returns (plan: FillPlan)
    ensures plan == PlanOf(WalkOf(Shares(yesDepth), Shares(noDepth), yesFee, noFee, buffer, cap))
  {
    var ys, ns := Shares(yesDepth), Shares(noDepth);
    ghost var w := WalkOf(ys, ns, yesFee, noFee, buffer, cap);
    var best, edges := WalkLadders(ys, ns, yesFee, noFee, buffer, cap, w);
    if best.size > 0 {
      PercentInRange(best.size, 25); PercentInRange(best.size, 50); PercentInRange(best.size, 75);
      EdgesAt(w, |edges|, CeilPercent(best.size, 25) - 1);
      EdgesAt(w, |edges|, CeilPercent(best.size, 50) - 1);
      EdgesAt(w, |edges|, CeilPercent(best.size, 75) - 1);
    }
    plan := best.(frontier := Frontier(edges, best.size));
  }
}
