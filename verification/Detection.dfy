/** The detector (pmarb/detection/spread.py:168-310): both directions of a pair, behind the staleness gate. */
module Detection {
  import opened Common
  import opened Fees
  import opened DepthWalk
  import opened WalkLaws

  datatype Venue = Kalshi | Polymarket

  datatype Market = Market(id: string, venue: Venue, yesDepth: Ladder, noDepth: Ladder, updatedAt: int)

  /** buffer in ticks a share, cap in shares, staleness in microseconds. */
  datatype Limits = Limits(buffer: int, cap: int, maxStaleness: int)

  function Coefficient(v: Venue): (c: real)
    ensures 0.0 <= c < 1.0
  {
    match v
    case Kalshi => KALSHI_COEFFICIENT
    case Polymarket => POLY_TAKER_THETA
  }

  function TakerFees(v: Venue): FeeTable {
    TakerTable(Coefficient(v))
  }

  predicate Stale(a: Market, b: Market, now: int, lim: Limits) {
    now - a.updatedAt > lim.maxStaleness || now - b.updatedAt > lim.maxStaleness
  }

  /** Buying YES on one market and NO on the other. */
  function PairWalk(yes: Market, no: Market, lim: Limits): Walk {
    WalkOf(Shares(yes.yesDepth), Shares(no.noDepth), TakerFees(yes.venue), TakerFees(no.venue), lim.buffer, lim.cap)
  }

  function Plan(yes: Market, no: Market, lim: Limits): FillPlan {
    PlanOf(PairWalk(yes, no, lim))
  }

  datatype Opportunity = Opportunity(yesVenue: Venue, noVenue: Venue, yesId: string, noId: string,
                                     size: nat, yesCost: int, noCost: int, yesFee: int, noFee: int, feeAdjusted: Edge)

  function OpportunityOf(yes: Market, no: Market, lim: Limits): seq<Opportunity> {
    var p := Plan(yes, no, lim);
    if p.size > 0
    then [Opportunity(yes.venue, no.venue, yes.id, no.id, p.size, p.yesCost, p.noCost, p.yesFee, p.noFee, p.edge)]
    else []
  }

  function Detected(a: Market, b: Market, now: int, lim: Limits): seq<Opportunity> {
    if Stale(a, b, now, lim) then [] else OpportunityOf(a, b, lim) + OpportunityOf(b, a, lim)
  }

  method DetectPair(a: Market, b: Market, now: int, lim: Limits) returns (found: seq<Opportunity>)
    ensures found == Detected(a, b, now, lim)
  {
    if now - a.updatedAt > lim.maxStaleness || now - b.updatedAt > lim.maxStaleness {
      return [];
    }
    found := [];
    for i := 0 to 2
      invariant found == if i == 0 then [] else if i == 1 then OpportunityOf(a, b, lim) else Detected(a, b, now, lim)
    {
      var (yes, no) := if i == 0 then (a, b) else (b, a);
      var p := MaxFillableSize(yes.yesDepth, no.noDepth, TakerFees(yes.venue), TakerFees(no.venue), lim.buffer,
                               lim.cap);
      if p.size > 0 {
        found := found
            + [Opportunity(yes.venue, no.venue, yes.id, no.id, p.size, p.yesCost, p.noCost, p.yesFee, p.noFee, p.edge)];
      }
    }
  }

  /** The funnel record. Totals are over `shares`, which is `size`, or one contract when no size clears. */
  datatype PairEvaluation = PairEvaluation(yesVenue: Venue, noVenue: Venue, yesAsk: int, noAsk: int, size: nat,
                                           shares: nat, yesCost: int, noCost: int, rawTop: int, depthAdjusted: Edge,
                                           yesFee: int, noFee: int, feeAdjusted: Edge, frontier: seq<Edge>)

  function FromPlan(yes: Market, no: Market, p: FillPlan): PairEvaluation
    requires yes.yesDepth != [] && no.noDepth != []
  {
    var ya, na := yes.yesDepth[0].price, no.noDepth[0].price;
    var top := PAYOUT - ya - na;
    if p.size > 0 then
      PairEvaluation(yes.venue, no.venue, ya, na, p.size, p.size, p.yesCost, p.noCost, top,
                     Edge(PAYOUT * p.size - p.yesCost - p.noCost, p.size), p.yesFee, p.noFee, p.edge, p.frontier)
    else
      var yf, nf := TakerFees(yes.venue)[ya], TakerFees(no.venue)[na];
      PairEvaluation(yes.venue, no.venue, ya, na, 0, 1, ya, na, top, Edge(top, 1), yf, nf, Edge(top - yf - nf, 1), [])
  }

  /** One direction's record, or none when a side of the book is empty. */
  function Direction(yes: Market, no: Market, lim: Limits): Option<PairEvaluation> {
    if yes.yesDepth == [] || no.noDepth == [] then None else Some(FromPlan(yes, no, Plan(yes, no, lim)))
  }

  /** The better of two records, the first on a tie. */
  function Better(a: Option<PairEvaluation>, b: Option<PairEvaluation>): Option<PairEvaluation> {
    if b.None? || (a.Some? && AtLeast(a.value.feeAdjusted, b.value.feeAdjusted)) then a else b
  }

  function Evaluated(a: Market, b: Market, now: int, lim: Limits, requireEdge: bool): Option<PairEvaluation> {
    if Stale(a, b, now, lim) then None
    else
      var best := Better(Direction(a, b, lim), Direction(b, a, lim));
      if requireEdge && best.Some? && best.value.rawTop <= 0 then None else best
  }

  method EvaluatePair(a: Market, b: Market, now: int, lim: Limits, requireEdge: bool)
    returns (r: Option<PairEvaluation>)
    ensures r == Evaluated(a, b, now, lim, requireEdge)
  {
    if now - a.updatedAt > lim.maxStaleness || now - b.updatedAt > lim.maxStaleness {
      return None;
    }
    var best := None;
    for i := 0 to 2
      invariant best == if i == 0 then None else if i == 1 then Direction(a, b, lim)
                else Better(Direction(a, b, lim), Direction(b, a, lim))
    {
      var (yes, no) := if i == 0 then (a, b) else (b, a);
      if yes.yesDepth != [] && no.noDepth != [] {
        var p := MaxFillableSize(yes.yesDepth, no.noDepth, TakerFees(yes.venue), TakerFees(no.venue), lim.buffer,
                                 lim.cap);
        var ev := FromPlan(yes, no, p);
        if best.None? || !AtLeast(best.value.feeAdjusted, ev.feeAdjusted) {
          best := Some(ev);
        }
      }
    }
    if best.None? { return None; }
    if requireEdge && best.value.rawTop <= 0 { return None; }
    return best;
  }

  // ---- what a record means ----

  ghost predicate Sorted(m: Market) {
    Ascending(m.yesDepth) && Ascending(m.noDepth)
  }

  lemma MarketWalk(yes: Market, no: Market, lim: Limits)
    requires Sorted(yes) && Sorted(no)
    ensures var w := PairWalk(yes, no, lim); Rising(w.yes) && Rising(w.no) && NoRebates(w) && CostsRise(w)
  {
    var ys, ns := Shares(yes.yesDepth), Shares(no.noDepth);
    SharesRise(yes.yesDepth);
    SharesRise(no.noDepth);
    LadderWalk(yes.yesDepth, no.noDepth, TakerFees(yes.venue), TakerFees(no.venue), lim.buffer, lim.cap);
    TakersNeverRebate(ys, ns, Coefficient(yes.venue), Coefficient(no.venue), lim.buffer, lim.cap);
    TakerCostsRise(ys, ns, Coefficient(yes.venue), Coefficient(no.venue), lim.buffer, lim.cap);
  }

  /** The size reported is the largest that clears: every larger one within the cap and both books fails. */
  lemma PlanIsLargest(yes: Market, no: Market, lim: Limits, n: nat)
    requires Sorted(yes) && Sorted(no)
    ensures var w := PairWalk(yes, no, lim); var k := Plan(yes, no, lim).size;
            && (k > 0 ==> k <= |w.yes| && Clears(w, k) && Plan(yes, no, lim).edge == EdgeAt(w, k))
            && (n <= |w.yes| ==> (Clears(w, n) <==> 0 < n <= k))
  {
    var w := PairWalk(yes, no, lim);
    MarketWalk(yes, no, lim);
    var k := PlanSize(w);
    BestIsLargest(w, Horizon(w, 0));
    if k < n <= |w.yes| {
      EarlyExitLosesNothing(w, n);
    } else if 0 < n <= k {
      ClearingSizesArePrefix(w, n, k);
    }
  }

  lemma TopIsBest(yes: Market, no: Market, lim: Limits, n: nat)
    requires Sorted(yes) && Sorted(no) && n <= |PairWalk(yes, no, lim).yes| && n > 0
    ensures yes.yesDepth != [] && no.noDepth != []
    ensures Legs(PairWalk(yes, no, lim), n) >= (yes.yesDepth[0].price + no.noDepth[0].price) * n
  {
    LegsAtLeastTop(yes.yesDepth, no.noDepth, TakerFees(yes.venue), TakerFees(no.venue), lim.buffer, lim.cap, n);
  }

  lemma WalkNarrows(w: Walk, k: nat, ya: int, na: int)
    requires k <= |w.yes| && NoRebates(w) && Legs(w, k) >= (ya + na) * k
    ensures Net(w, k) <= PAYOUT * k - Legs(w, k) <= (PAYOUT - ya - na) * k
  {
    SumRiseAtLeast(w.yesFee, 0, k, 0);
    SumRiseAtLeast(w.noFee, 0, k, 0);
    assert PAYOUT * k - (ya + na) * k == (PAYOUT - ya - na) * k;
  }

  /** Slippage and fees only take away: top of book >= depth-adjusted >= fee-adjusted, in every record. */
  ghost predicate FunnelNarrows(e: PairEvaluation) {
    && e.shares > 0 && e.depthAdjusted.shares == e.feeAdjusted.shares == e.shares
    && AtLeast(Edge(e.rawTop, 1), e.depthAdjusted) && AtLeast(e.depthAdjusted, e.feeAdjusted)
    && e.feeAdjusted.total == e.depthAdjusted.total - e.yesFee - e.noFee
  }

  lemma RecordNarrows(e: PairEvaluation, depth: int, fee: int, k: nat)
    requires e.depthAdjusted == Edge(depth, k) && e.feeAdjusted == Edge(fee, k) && e.shares == k > 0
    requires depth <= e.rawTop * k && fee <= depth && fee == depth - e.yesFee - e.noFee
    ensures FunnelNarrows(e)
  {
  }

  lemma FilledRecord(yes: Market, no: Market, w: Walk, k: nat)
    requires 0 < k <= |w.yes| && yes.yesDepth != [] && no.noDepth != []
    requires Net(w, k) <= PAYOUT * k - Legs(w, k) <= (PAYOUT - yes.yesDepth[0].price - no.noDepth[0].price) * k
    requires NoRebates(w)
    ensures FunnelNarrows(FromPlan(yes, no, PlanAt(w, k)))
  {
    RecordNarrows(FromPlan(yes, no, PlanAt(w, k)), PAYOUT * k - Sum(w.yes, k) - Sum(w.no, k), Net(w, k), k);
  }

  lemma FrontierAside(yes: Market, no: Market, p: FillPlan, f: seq<Edge>)
    requires yes.yesDepth != [] && no.noDepth != [] && p.size > 0
    ensures FunnelNarrows(FromPlan(yes, no, p)) == FunnelNarrows(FromPlan(yes, no, p.(frontier := f)))
  {
  }

  lemma FilledNarrows(yes: Market, no: Market, lim: Limits, w: Walk, k: nat)
    requires Sorted(yes) && Sorted(no) && w == PairWalk(yes, no, lim) && 0 < k <= |w.yes| && yes.yesDepth != []
    requires no.noDepth != []
    ensures FunnelNarrows(FromPlan(yes, no, PlanAt(w, k)))
  {
    MarketWalk(yes, no, lim);
    TopIsBest(yes, no, lim, k);
    WalkNarrows(w, k, yes.yesDepth[0].price, no.noDepth[0].price);
    FilledRecord(yes, no, w, k);
  }

  lemma UnfilledNarrows(yes: Market, no: Market)
    requires yes.yesDepth != [] && no.noDepth != []
    ensures FunnelNarrows(FromPlan(yes, no, NO_FILL))
  {
    var ya, na := yes.yesDepth[0].price, no.noDepth[0].price;
    TakerFeeRange(Coefficient(yes.venue), ya as real);
    TakerFeeRange(Coefficient(no.venue), na as real);
    RecordNarrows(FromPlan(yes, no, NO_FILL), PAYOUT - ya - na,
                  PAYOUT - ya - na - TakerFees(yes.venue)[ya] - TakerFees(no.venue)[na], 1);
  }

  lemma FunnelOnlyNarrows(yes: Market, no: Market, lim: Limits)
    requires Sorted(yes) && Sorted(no) && Direction(yes, no, lim).Some?
    ensures FunnelNarrows(Direction(yes, no, lim).value)
  {
    var w := PairWalk(yes, no, lim);
    var k := PlanSize(w);
    if k > 0 {
      FilledNarrows(yes, no, lim, w, k);
      FrontierAside(yes, no, PlanAt(w, k), PlanOf(w).frontier);
    } else {
      UnfilledNarrows(yes, no);
    }
  }

  /** The record kept is at least as good as both directions, and YES on the first market wins a tie. */
  lemma GreatestIsChosen(a: Market, b: Market, now: int, lim: Limits)
    ensures Evaluated(a, b, now, lim, false).Some? <==>
              !Stale(a, b, now, lim) && (Direction(a, b, lim).Some? || Direction(b, a, lim).Some?)
    ensures Evaluated(a, b, now, lim, false).Some? ==>
              var e := Evaluated(a, b, now, lim, false).value;
              && (Direction(a, b, lim) == Some(e) || Direction(b, a, lim) == Some(e))
              && (Direction(a, b, lim).Some? ==> AtLeast(e.feeAdjusted, Direction(a, b, lim).value.feeAdjusted))
              && (Direction(b, a, lim).Some? ==> AtLeast(e.feeAdjusted, Direction(b, a, lim).value.feeAdjusted))
              && (Direction(a, b, lim) != Some(e) ==>
                    Direction(a, b, lim).None? || !AtLeast(Direction(a, b, lim).value.feeAdjusted, e.feeAdjusted))
  {
  }

  /** The best levels of this direction hold a whole share. */
  ghost predicate WholeTop(yes: Market, no: Market) {
    (yes.yesDepth != [] ==> yes.yesDepth[0].size >= 1.0) && (no.noDepth != [] ==> no.noDepth[0].size >= 1.0)
  }

  /** When not even one contract clears, the record's edge does not exceed the buffer. */
  lemma OneContractFails(yes: Market, no: Market, lim: Limits)
    requires Sorted(yes) && Sorted(no) && WholeTop(yes, no) && lim.cap > 0 && Direction(yes, no, lim).Some?
    ensures var e := Direction(yes, no, lim).value;
            e.size == 0 ==> e.shares == 1 && e.feeAdjusted.total <= lim.buffer
  {
    var w := PairWalk(yes, no, lim);
    PlanIsLargest(yes, no, lim, 1);
    TopShare(yes.yesDepth);
    TopShare(no.noDepth);
    assert |w.yes| >= 1 && w.yes[0] == yes.yesDepth[0].price && w.no[0] == no.noDepth[0].price;
    assert Sum(w.yes, 1) == w.yes[0] && Sum(w.no, 1) == w.no[0];
    assert Sum(w.yesFee, 1) == w.yesFee[0] && Sum(w.noFee, 1) == w.noFee[0];
  }

  lemma TopShare(l: Ladder)
    requires l != [] && l[0].size >= 1.0
    ensures |Shares(l)| > 0 && Shares(l)[0] == l[0].price
  {
    RepeatIsFlat(l[0].price, Whole(l[0].size));
  }

  lemma SizeBeatsBuffer(yes: Market, no: Market, lim: Limits)
    requires Sorted(yes) && Sorted(no) && Direction(yes, no, lim).Some? && Direction(yes, no, lim).value.size > 0
    ensures var e := Direction(yes, no, lim).value; e.feeAdjusted.total > lim.buffer * e.feeAdjusted.shares
  {
    PlanIsLargest(yes, no, lim, 0);
  }

  /** A size is only ever reported with a positive spread, on any books. */
  lemma SizeMeansPositiveSpread(a: Market, b: Market, now: int, lim: Limits, requireEdge: bool)
    requires lim.buffer >= 0 && HasSize(Evaluated(a, b, now, lim, requireEdge))
    ensures Evaluated(a, b, now, lim, requireEdge).value.feeAdjusted.total > 0
  {
    ClearedIsPositive(a, b, lim);
    ClearedIsPositive(b, a, lim);
  }

  lemma ClearedIsPositive(yes: Market, no: Market, lim: Limits)
    requires lim.buffer >= 0
    ensures HasSize(Direction(yes, no, lim)) ==> Direction(yes, no, lim).value.feeAdjusted.total > 0
  {
    var w := PairWalk(yes, no, lim);
    BestIsLargest(w, Horizon(w, 0));
    if PlanSize(w) > 0 {
      NotNegative(lim.buffer, PlanSize(w));
    }
  }

  lemma NotNegative(x: int, n: nat)
    requires x >= 0
    ensures x * n >= 0
  {
  }

  lemma ClearedFailedOrder(x: int, buffer: int, n: nat, y: int)
    requires x > buffer * n && y <= buffer && n > 0
    ensures !(y * n >= x * 1)
  {
    assert y * n <= buffer * n;
  }

  /** A pair is detected exactly when its record reports a size, whether or not an apparent edge is asked for. */
  lemma SizeExactlyWhenDetected(a: Market, b: Market, now: int, lim: Limits, requireEdge: bool)
    requires Sorted(a) && Sorted(b) && WholeTop(a, b) && WholeTop(b, a) && lim.buffer >= 0
    ensures Detected(a, b, now, lim) != [] <==> HasSize(Evaluated(a, b, now, lim, requireEdge))
  {
    DirectionDetects(a, b, lim);
    DirectionDetects(b, a, lim);
    if Direction(a, b, lim).Some? && Direction(b, a, lim).Some? {
      BetterKeepsSize(a, b, lim);
    }
    EitherDetects(a, b, now, lim, requireEdge, Direction(a, b, lim), Direction(b, a, lim), OpportunityOf(a, b, lim),
                  OpportunityOf(b, a, lim));
  }

  predicate HasSize(d: Option<PairEvaluation>) {
    d.Some? && d.value.size > 0
  }

  lemma EitherDetects(a: Market, b: Market, now: int, lim: Limits, requireEdge: bool, d: Option<PairEvaluation>,
                      e: Option<PairEvaluation>, fd: seq<Opportunity>, fe: seq<Opportunity>)
    requires d == Direction(a, b, lim) && e == Direction(b, a, lim) && fd == OpportunityOf(a, b, lim)
    requires fe == OpportunityOf(b, a, lim)
    requires (fd != [] <==> HasSize(d)) && (HasSize(d) ==> d.value.rawTop > 0)
    requires (fe != [] <==> HasSize(e)) && (HasSize(e) ==> e.value.rawTop > 0)
    requires d.Some? && e.Some? ==> (HasSize(Better(d, e)) <==> HasSize(d) || HasSize(e))
    ensures Detected(a, b, now, lim) != [] <==> HasSize(Evaluated(a, b, now, lim, requireEdge))
  {
  }

  /**
   * One direction: its opportunity and its record agree, and a record with a size shows a positive top-of-book edge.
   */
  lemma DirectionDetects(yes: Market, no: Market, lim: Limits)
    requires Sorted(yes) && Sorted(no) && lim.buffer >= 0
    ensures OpportunityOf(yes, no, lim) != [] <==> HasSize(Direction(yes, no, lim))
    ensures HasSize(Direction(yes, no, lim)) ==> Direction(yes, no, lim).value.rawTop > 0
  {
    var w := PairWalk(yes, no, lim);
    var k := PlanSize(w);
    if k > 0 {
      TopIsBest(yes, no, lim, k);
      FunnelOnlyNarrows(yes, no, lim);
      SizeBeatsBuffer(yes, no, lim);
      var e := Direction(yes, no, lim).value;
      PositiveTop(e.rawTop, e.depthAdjusted.total, e.feeAdjusted.total, lim.buffer, k);
    }
  }

  lemma PositiveTop(top: int, depth: int, fee: int, buffer: int, k: nat)
    requires k > 0 && buffer >= 0 && fee > buffer * k && depth * k >= fee * k && top * k >= depth * 1
    ensures top > 0
  {
    assert buffer * k >= 0;
    assert depth < fee ==> depth * k < fee * k;
    assert top <= 0 ==> top * k <= 0;
  }

  lemma BetterKeepsSize(a: Market, b: Market, lim: Limits)
    requires Sorted(a) && Sorted(b) && WholeTop(a, b) && WholeTop(b, a)
    requires Direction(a, b, lim).Some? && Direction(b, a, lim).Some?
    ensures HasSize(Better(Direction(a, b, lim), Direction(b, a, lim)))
            <==> HasSize(Direction(a, b, lim)) || HasSize(Direction(b, a, lim))
  {
    var d, e := Direction(a, b, lim).value, Direction(b, a, lim).value;
    if lim.cap > 0 {
      OneContractFails(a, b, lim);
      OneContractFails(b, a, lim);
      if d.size > 0 && e.size == 0 {
        SizeBeatsBuffer(a, b, lim);
        ClearedFailedOrder(d.feeAdjusted.total, lim.buffer, d.shares, e.feeAdjusted.total);
      } else if d.size == 0 && e.size > 0 {
        SizeBeatsBuffer(b, a, lim);
        ClearedFailedOrder(e.feeAdjusted.total, lim.buffer, e.shares, d.feeAdjusted.total);
      }
    }
  }

  /** What one contract at the best levels nets after fees. */
  function OneContract(yes: Market, no: Market): Edge
    requires yes.yesDepth != [] && no.noDepth != []
  {
    var ya, na := yes.yesDepth[0].price, no.noDepth[0].price;
    Edge(PAYOUT - ya - na - TakerFees(yes.venue)[ya] - TakerFees(no.venue)[na], 1)
  }

  /** This direction clears no size, but both its best levels are there. */
  predicate Unfilled(yes: Market, no: Market, lim: Limits) {
    Plan(yes, no, lim).size == 0 && yes.yesDepth != [] && no.noDepth != []
  }

  /** The direction with a size is not the one recorded, because one contract of the other looks better. */
  predicate Outbid(a: Market, b: Market, lim: Limits) {
    || (Plan(a, b, lim).size > 0 && Unfilled(b, a, lim) && !AtLeast(Plan(a, b, lim).edge, OneContract(b, a)))
    || (Plan(b, a, lim).size > 0 && Unfilled(a, b, lim) && AtLeast(OneContract(a, b), Plan(b, a, lim).edge))
  }

  /**
   * The two entry points disagree on a fresh pair exactly when the direction that clears is outbid by one contract of
   * the direction that does not; and then a pair is detected whose record says size 0.
   */
  lemma DisagreeExactlyWhenOutbid(a: Market, b: Market, now: int, lim: Limits, requireEdge: bool)
    requires Sorted(a) && Sorted(b) && lim.buffer >= 0
    ensures (Detected(a, b, now, lim) != []) != HasSize(Evaluated(a, b, now, lim, requireEdge))
            <==> !Stale(a, b, now, lim) && Outbid(a, b, lim)
    ensures HasSize(Evaluated(a, b, now, lim, requireEdge)) ==> Detected(a, b, now, lim) != []
  {
    DirectionDetects(a, b, lim);
    DirectionDetects(b, a, lim);
    var d, e := Direction(a, b, lim), Direction(b, a, lim);
    assert Detected(a, b, now, lim) != [] <==> !Stale(a, b, now, lim) && (HasSize(d) || HasSize(e));
    assert HasSize(Evaluated(a, b, now, lim, requireEdge)) <==> !Stale(a, b, now, lim) && HasSize(Better(d, e));
  }

  const THIN_LIMITS: Limits := Limits(100, 1000, 2000000)

  const THIN_A: Market := Market("a", Kalshi, [Level(4000, 1.0)], [Level(1000, 0.5)], 0)

  const THIN_B: Market := Market("b", Polymarket, [Level(1000, 1.0)], [Level(5000, 1.0)], 0)

  lemma OneShareClears()
    ensures Plan(THIN_A, THIN_B, THIN_LIMITS).size == 1 && Plan(THIN_A, THIN_B, THIN_LIMITS).edge == Edge(707, 1)
  {
    OneShare(4000);
    OneShare(5000);
    assert Curve(0.07, 4000.0) == 168.0 && Curve(0.05, 5000.0) == 125.0;
    var w := PairWalk(THIN_A, THIN_B, THIN_LIMITS);
    assert w.yes == [4000] && w.no == [5000];
    assert w.yesFee[0] == 168 && w.noFee[0] == 125;
    assert Sum(w.yes, 1) == 4000 && Sum(w.no, 1) == 5000 && Sum(w.yesFee, 1) == 168 && Sum(w.noFee, 1) == 125;
    assert Horizon(w, 0) == 1 by { assert !TooDear(w, 1); }
    assert Clears(w, 1) && PlanSize(w) == 1;
  }

  lemma HalfAShareLooksBetter()
    ensures Plan(THIN_B, THIN_A, THIN_LIMITS).size == 0 && OneContract(THIN_B, THIN_A) == Edge(7892, 1)
  {
    NoShare(1000);
    var v := PairWalk(THIN_B, THIN_A, THIN_LIMITS);
    assert |v.yes| == 0 && PlanSize(v) == 0;
    assert Curve(0.05, 1000.0) == 45.0 && Curve(0.07, 1000.0) == 63.0;
  }

  /** It does happen, without a whole share at the top: half a share at a fine price outbids a direction that clears. */
  lemma ThinTopHidesOpportunity()
    ensures Sorted(THIN_A) && Sorted(THIN_B) && Outbid(THIN_A, THIN_B, THIN_LIMITS)
    ensures |Detected(THIN_A, THIN_B, 0, THIN_LIMITS)| == 1
    ensures Evaluated(THIN_A, THIN_B, 0, THIN_LIMITS, true).Some?
    ensures Evaluated(THIN_A, THIN_B, 0, THIN_LIMITS, true).value.size == 0
  {
    OneShareClears();
    HalfAShareLooksBetter();
  }

  lemma OneShare(p: Price)
    ensures Shares([Level(p, 1.0)]) == [p]
  {
    var l := [Level(p, 1.0)];
    assert l[1..] == [];
    assert Repeat(p, 1) == [p] + Repeat(p, 0);
  }

  lemma NoShare(p: Price)
    ensures Shares([Level(p, 0.5)]) == []
  {
    var l := [Level(p, 0.5)];
    assert l[1..] == [];
  }
}
