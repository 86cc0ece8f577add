/** What blocking costs: nothing, once the threshold is above one half and no token is too common. */
module LexicalLaws {
  import Fees
  import opened Lexical

  /** A best score above zero belongs to one of the texts, and is the first of the greatest. */
  lemma {:induction false} BestIsFirstGreatest(o: Texts, question: string, start: string, reps: seq<Rep>, n: nat)
    requires n <= |reps|
    ensures var b := Best(o, question, start, reps, n);
            && b.score >= 0.0 && (b.score == 0.0 ==> b.text == start)
            && (b.score > 0.0 ==>
                exists k :: 0 <= k < n && reps[k].text == b.text && ScoreOf(o, question, reps[k]) == b.score
                                               && forall m :: 0 <= m < k ==> ScoreOf(o, question, reps[m]) < b.score)
            && forall k :: 0 <= k < n ==> ScoreOf(o, question, reps[k]) <= b.score
  {
    if n > 0 {
      BestIsFirstGreatest(o, question, start, reps, n - 1);
      JaccardRange(Tokens(o, question), reps[n - 1].tokens);
      var before, now := Best(o, question, start, reps, n - 1), Best(o, question, start, reps, n);
      if ScoreOf(o, question, reps[n - 1]) > before.score {
        assert reps[n - 1].text == now.text;
      }
    }
  }

  function ScoreOf(o: Texts, question: string, rep: Rep): real {
    Similarity(o, Tokens(o, question), rep.tokens, question, rep.text)
  }

  /** A score above one half needs a token in common. */
  lemma HalfNeedsAToken(o: Texts, question: string, rep: Rep)
    requires ScoreOf(o, question, rep) > 0.5
    ensures exists t :: t in Tokens(o, question) && t in rep.tokens
  {
    JaccardRange(Tokens(o, question), rep.tokens);
    var shared := Tokens(o, question) * rep.tokens;
    assert (forall t :: t !in shared) ==> shared == {};
    var t :| t in shared;
  }

  ghost predicate NoneTooCommon(reps: seq<seq<Rep>>, maxBlockDf: int) {
    forall t :: |Holders(reps, t)| <= maxBlockDf
  }

  /** With a threshold above one half and no token cut, the block leaves no hit of the full cross product out. */
  lemma BlockingLosesNothing(o: Texts, kalshis: seq<Market>, polys: seq<Market>, st: Settings, h: Hit)
    requires st.threshold > 0.5 && NoneTooCommon(Reps(o, polys), st.maxBlockDf)
    ensures IsMatch(o, kalshis, polys, st, h) <==> BruteHit(o, kalshis, polys, st, h)
  {
    if BruteHit(o, kalshis, polys, st, h) {
      var question, reps := kalshis[h.kalshi].question, Reps(o, polys)[h.poly];
      var best := BestOf(o, question, polys[h.poly], reps);
      BestIsFirstGreatest(o, question, polys[h.poly].question, reps, |reps|);
      var k :| 0 <= k < |reps| && ScoreOf(o, question, reps[k]) == best.score;
      HalfNeedsAToken(o, question, reps[k]);
      var t :| t in Tokens(o, question) && t in reps[k].tokens;
      assert Mentions(reps, t);
      assert h.poly in Holders(Reps(o, polys), t);
    }
  }

  /**
   * The order is by the score written out: a hit listed before another falls short of it by at most a ten-thousandth.
   */
  lemma RoundingBlursTheOrder(first: Hit, second: Hit, x: real, y: real)
    requires first.score == FourPlaces(x) && second.score == FourPlaces(y) && HigherScore(first, second)
    ensures x >= y - 0.0001
    ensures x < y ==> first.score == second.score
  {
    if x <= y { Fees.RoundKeepsOrder(10000.0 * x, 10000.0 * y); }
  }

  /** A token in more texts than there are markets allowed is the only way a pair that shares words is passed over. */
  lemma PassedOverOnlyWhenCommon(o: Texts, kalshis: seq<Market>, polys: seq<Market>, st: Settings, h: Hit, t: string)
    requires BruteHit(o, kalshis, polys, st, h) && !IsMatch(o, kalshis, polys, st, h)
    requires t in Tokens(o, kalshis[h.kalshi].question) && Mentions(Reps(o, polys)[h.poly], t)
    ensures |Holders(Reps(o, polys), t)| > st.maxBlockDf
  {
    assert h.poly in Holders(Reps(o, polys), t);
  }

  /** Flooring before the sign is dropped makes the distance in days depend on who comes first. */
  lemma DeltaIsNotSymmetric(a: Market, b: Market)
    requires a.resolves.Some? && b.resolves.Some?
    ensures DeltaDays(a, b) == DeltaDays(b, a) <==> (a.resolves.value - b.resolves.value) % DAY == 0
  {
    var d := a.resolves.value - b.resolves.value;
    FlooredOpposite(d);
  }

  lemma FlooredOpposite(d: int)
    ensures d % DAY == 0 ==> -d / DAY == -(d / DAY)
    ensures d % DAY != 0 ==> -d / DAY == -(d / DAY) - 1
  {
  }
}
