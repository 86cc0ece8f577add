/**
 * From a matched line to money: what the detector reports on an oriented
 * pair, it nets in every outcome (pmarb/main.py:98-116).
 */
module LineHedge {
  import opened Common
  import opened DepthWalk
  import opened Detection
  import opened LinePayoff
  import LineLaws
  import L = Lines

  /** The Poly leg with YES meaning what Kalshi's YES means: an inverted market has its ladders swapped. */
  function Oriented(poly: Market, inverted: bool): Market {
    if inverted then poly.(yesDepth := poly.noDepth, noDepth := poly.yesDepth) else poly
  }

  function Pays(wins: bool): int {
    if wins then PAYOUT else 0
  }

  /** What one hedge of this opportunity collects: the YES leg on its venue and the NO leg on the other. */
  function Collected(opp: Opportunity, k: L.LineEvent, p: L.LineEvent, inverted: bool, names: Names, s: FinalScore): int
    requires k.kind == L.SpreadKind ==> k.yesTeam in names
    requires p.kind == L.SpreadKind ==> p.yesTeam in names
  {
    if opp.yesVenue == Kalshi
    then Pays(KalshiYesWins(k, names, s)) + Pays(!OrientedYesWins(p, inverted, names, s))
    else Pays(OrientedYesWins(p, inverted, names, s)) + Pays(!KalshiYesWins(k, names, s))
  }

  function Paid(opp: Opportunity): int {
    opp.yesCost + opp.noCost + opp.yesFee + opp.noFee
  }

  /** Collecting this much a share, the opportunity earns more than the buffer on each share it takes. */
  predicate NetsTheBuffer(opp: Opportunity, collected: int, lim: Limits) {
    opp.size > 0 && collected * opp.size - Paid(opp) > lim.buffer * opp.size
  }

  lemma OpportunityClears(yes: Market, no: Market, lim: Limits)
    ensures forall opp :: opp in OpportunityOf(yes, no, lim) ==>
              opp.size > 0 && PAYOUT * opp.size - Paid(opp) > lim.buffer * opp.size && opp.yesVenue == yes.venue
                  && opp.noVenue == no.venue
  {
    var w := PairWalk(yes, no, lim);
    BestIsLargest(w, Horizon(w, 0));
  }

  /**
   * Both directions of an oriented pair that is direct or whose line no score can land on: any size reported nets more
   * than the buffer on each share, whatever the score.
   */
  lemma EveryOutcomeNetsTheBuffer(o: L.Oracle, k: L.LineEvent, p: L.LineEvent, names: Names, inverted: bool,
                                  kalshi: Market, poly: Market, now: int, lim: Limits, opp: Opportunity, s: FinalScore)
    requires NamesAgree(o, k, p, names) && L.SameContract(k, p) && (!inverted || k.line != k.line.Floor as real)
    requires L.Align(o, k, p).Some? && L.Orientation(o, k, p, L.Align(o, k, p).value.mapping) == Some(inverted)
    requires kalshi.venue == Kalshi && poly.venue == Polymarket
    requires opp in Detected(kalshi, Oriented(poly, inverted), now, lim)
    ensures NetsTheBuffer(opp, Collected(opp, k, p, inverted, names, s), lim)
  {
    var q := Oriented(poly, inverted);
    OpportunityClears(kalshi, q, lim);
    OpportunityClears(q, kalshi, lim);
    PayoffIdentity(o, k, p, names, inverted);
    assert OrientedYesWins(p, inverted, names, s) <==> KalshiYesWins(k, names, s);
    assert Collected(opp, k, p, inverted, names, s) == PAYOUT;
  }

  lemma LinkIsOriented(o: L.Oracle, k: L.LineEvent, poly: L.Listing, tolerance: int, l: L.Link)
    requires poly.line.Some? && L.LinkOf(o, k, poly, tolerance) == Some(l)
    ensures L.Align(o, k, poly.line.value).Some?
    ensures L.Orientation(o, k, poly.line.value, L.Align(o, k, poly.line.value).value.mapping) == Some(l.inverted)
  {
  }

  /** An emitted pair is on one contract, aligned, and oriented as it says. */
  lemma MatchedIsOriented(o: L.Oracle, kalshis: seq<L.Listing>, polys: seq<L.Listing>, tolerance: int, c: L.Claim)
    requires c in L.Matched(o, kalshis, polys, tolerance)
    ensures c.kalshi.line.Some? && c.poly.line.Some?
    ensures var k, p := c.kalshi.line.value, c.poly.line.value;
            L.SameContract(k, p) && L.Align(o, k, p).Some?
                && L.Orientation(o, k, p, L.Align(o, k, p).value.mapping) == Some(c.inverted)
  {
    LineLaws.KeptIsLinked(o, kalshis, polys, tolerance, c);
    LinkIsOriented(o, c.kalshi.line.value, c.poly, tolerance, L.Link(c.score, c.apart, c.poly, c.inverted));
  }

  /**
   * From the catalogs to the money: whatever the matcher emits, oriented as it says, the detector's every report nets
   * more than the buffer on each share at every final score, unless the pair is inverted on a whole-number line.
   */
  lemma MatchedPairsNetTheBuffer(o: L.Oracle, kalshis: seq<L.Listing>, polys: seq<L.Listing>, tolerance: int,
                                 c: L.Claim, k: L.LineEvent, p: L.LineEvent, names: Names, kalshi: Market, poly: Market,
                                     now: int, lim: Limits,
                                 opp: Opportunity, s: FinalScore)
    requires c in L.Matched(o, kalshis, polys, tolerance) && c.kalshi.line == Some(k) && c.poly.line == Some(p)
    requires NamesAgree(o, k, p, names) && (!c.inverted || k.line != k.line.Floor as real)
    requires kalshi.venue == Kalshi && poly.venue == Polymarket
    requires opp in Detected(kalshi, Oriented(poly, c.inverted), now, lim)
    ensures NetsTheBuffer(opp, Collected(opp, k, p, c.inverted, names, s), lim)
  {
    MatchedIsOriented(o, kalshis, polys, tolerance, c);
    EveryOutcomeNetsTheBuffer(o, k, p, names, c.inverted, kalshi, poly, now, lim, opp, s);
  }
}
