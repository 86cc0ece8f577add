/**
 * The lexical matcher (pmarb/matching/matcher.py:46-185): an inverted index with a frequency cut and a pruned score.
 */
module Lexical {
  import opened Common
  import Fees
  import Sorting

  type Share = r: real | 0.0 <= r <= 1.0

  /** What tokenising and character matching give: unknown texts have no tokens, unknown pairs nothing in common. */
  datatype Texts = Texts(tokens: map<string, set<string>>, ratios: map<(string, string), Share>)

  datatype Market = Market(id: string, question: string, aliases: seq<string>, resolves: Option<int>, structured: bool)

  /** Dates are in microseconds. */
  const DAY: int := 86400000000

  datatype Settings = Settings(threshold: real, toleranceDays: int, maxBlockDf: int)

  function Tokens(o: Texts, t: string): set<string> {
    if t in o.tokens then o.tokens[t] else {}
  }

  function Ratio(o: Texts, a: string, b: string): Share {
    if (a, b) in o.ratios then o.ratios[(a, b)] else 0.0
  }

  function Jaccard(a: set<string>, b: set<string>): real {
    if |a + b| == 0 then 0.0 else |a * b| as real / |a + b| as real
  }

  function Similarity(o: Texts, aTokens: set<string>, bTokens: set<string>, a: string, b: string): real {
    0.5 * Jaccard(aTokens, bTokens) + 0.5 * Ratio(o, a, b)
  }

  /** Whole days apart; the difference is floored before its sign is dropped. */
  function DeltaDays(a: Market, b: Market): Option<int> {
    if a.resolves.None? || b.resolves.None? then None
    else
      var d := (a.resolves.value - b.resolves.value) / DAY;
      Some(if d >= 0 then d else -d)
  }

  function MinJaccard(threshold: real): real {
    if 2.0 * threshold - 1.0 > 0.0 then 2.0 * threshold - 1.0 else 0.0
  }

  function Candidates(s: seq<Market>, skipStructured: bool): seq<Market> {
    if s == [] then []
    else
      var rest := Candidates(s[..|s| - 1], skipStructured);
      if skipStructured && s[|s| - 1].structured then rest else rest + [s[|s| - 1]]
  }

  datatype Rep = Rep(text: string, tokens: set<string>)

  /** The texts scored for a market: its question, then its aliases, empty ones left out. */
  function RepsOf(o: Texts, texts: seq<string>): seq<Rep> {
    if texts == [] then []
    else
      var rest := RepsOf(o, texts[..|texts| - 1]);
      var t := texts[|texts| - 1];
      if t == "" then rest else rest + [Rep(t, Tokens(o, t))]
  }

  function Reps(o: Texts, polys: seq<Market>): (r: seq<seq<Rep>>)
    ensures |r| == |polys|
  {
    seq(|polys|, i requires 0 <= i < |polys| => RepsOf(o, [polys[i].question] + polys[i].aliases))
  }

  ghost predicate Mentions(reps: seq<Rep>, t: string) {
    exists k :: 0 <= k < |reps| && t in reps[k].tokens
  }

  /** The markets some text of which has the token. */
  ghost function Holders(reps: seq<seq<Rep>>, t: string): set<int> {
    set j | 0 <= j < |reps| && Mentions(reps[j], t)
  }

  type Index = map<string, set<int>>

  function Lookup(index: Index, t: string): set<int> {
    if t in index then index[t] else {}
  }

  /** The market shares a token that is not too common with these. */
  ghost predicate SharesRare(reps: seq<seq<Rep>>, tokens: set<string>, maxBlockDf: int, j: int) {
    exists t :: t in tokens && |Holders(reps, t)| <= maxBlockDf && j in Holders(reps, t)
  }

  datatype Scored = Scored(score: real, text: string)

  /** The best of the first `n` texts, the earliest on a tie, every one of them scored. */
  function Best(o: Texts, question: string, start: string, reps: seq<Rep>, n: nat): Scored
    requires n <= |reps|
  {
    if n == 0 then Scored(0.0, start)
    else
      var before := Best(o, question, start, reps, n - 1);
      var score := Similarity(o, Tokens(o, question), reps[n - 1].tokens, question, reps[n - 1].text);
      if score > before.score then Scored(score, reps[n - 1].text) else before
  }

  /** A candidate pair, by its positions in the two lists; the score in ten-thousandths. */
  datatype Hit = Hit(kalshi: int, poly: int, score: int, text: string, deltaDays: int)

  function FourPlaces(score: real): int {
    Fees.Round(10000.0 * score)
  }

  /** The best of all the texts of one Poly market. */
  ghost function BestOf(o: Texts, question: string, pm: Market, reps: seq<Rep>): Scored {
    Best(o, question, pm.question, reps, |reps|)
  }

  /** What scoring every text of the pair, with no shortcut, would report. */
  ghost predicate BruteHit(o: Texts, kalshis: seq<Market>, polys: seq<Market>, st: Settings, h: Hit) {
    && 0 <= h.kalshi < |kalshis| && 0 <= h.poly < |polys|
    && var km, pm := kalshis[h.kalshi], polys[h.poly];
    && DeltaDays(km, pm) == Some(h.deltaDays) && h.deltaDays <= st.toleranceDays
    && var best := BestOf(o, km.question, pm, Reps(o, polys)[h.poly]);
    && best.score >= st.threshold && h.score == FourPlaces(best.score) && h.text == best.text
  }

  // ---- the Jaccard cut ----

  lemma JaccardRange(a: set<string>, b: set<string>)
    ensures 0.0 <= Jaccard(a, b) <= 1.0
    ensures Jaccard(a, b) > 0.0 ==> a * b != {}
  {
    Fewer(a * b, a + b);
    if |a + b| > 0 { Quotient(|a * b| as real, |a + b| as real); }
  }

  lemma Fewer(a: set<string>, b: set<string>)
    requires a <= b
    ensures |a| <= |b|
  {
    assert b == a + (b - a);
  }

  lemma Quotient(x: real, y: real)
    requires 0.0 <= x <= y && y > 0.0
    ensures 0.0 <= x / y <= 1.0
    ensures x == 0.0 ==> x / y == 0.0
  {
    var q := x / y;
    assert q * y == x;
    assert q > 1.0 ==> q * y > y;
    assert q < 0.0 ==> q * y < 0.0;
  }

  /** A pair below the Jaccard cut cannot reach the threshold, whatever its characters. */
  lemma CutIsSafe(o: Texts, a: set<string>, b: set<string>, x: string, y: string, threshold: real)
    requires Jaccard(a, b) < MinJaccard(threshold)
    ensures Similarity(o, a, b, x, y) < threshold
  {
    JaccardRange(a, b);
  }

  /** With the cut or without: the same best once it reaches the threshold, and never a better one with it. */
  ghost predicate CutAgrees(cut: Scored, full: Scored, threshold: real) {
    cut.score <= full.score && (full.score >= threshold ==> cut == full)
  }

  /** Scores one pair, skipping the character ratio where the tokens rule the threshold out. */
  method BestWithCut(o: Texts, question: string, start: string, reps: seq<Rep>, threshold: real) returns (best: Scored)
    ensures CutAgrees(best, Best(o, question, start, reps, |reps|), threshold)
  {
    var minJaccard := if 2.0 * threshold - 1.0 > 0.0 then 2.0 * threshold - 1.0 else 0.0;
    best := Scored(0.0, start);
    for n := 0 to |reps|
      invariant CutAgrees(best, Best(o, question, start, reps, n), threshold)
    {
      if Jaccard(Tokens(o, question), reps[n].tokens) < minJaccard {
        CutIsSafe(o, Tokens(o, question), reps[n].tokens, question, reps[n].text, threshold);
        continue;
      }
      var score := Similarity(o, Tokens(o, question), reps[n].tokens, question, reps[n].text);
      if score > best.score { best := Scored(score, reps[n].text); }
    }
  }

  // ---- the inverted index ----

  /** `r` is `index` with `i` added under each of these tokens. */
  ghost predicate Adds(r: Index, index: Index, tokens: set<string>, i: int) {
    forall t {:trigger Lookup(r, t)} :: Lookup(r, t) == if t in tokens then Lookup(index, t) + {i} else Lookup(index, t)
  }

  lemma AddsOneMore(r: Index, index: Index, tokens: set<string>, i: int, t: string)
    requires Adds(r, index, tokens, i) && t !in tokens
    ensures Adds(r[t := Lookup(r, t) + {i}], index, tokens + {t}, i)
  {
    var next := r[t := Lookup(r, t) + {i}];
    forall u ensures Lookup(next, u) == if u in tokens + {t} then Lookup(index, u) + {i} else Lookup(index, u) {
      assert Lookup(r, u) == if u in tokens then Lookup(index, u) + {i} else Lookup(index, u);
    }
  }

  method IndexTokens(index: Index, tokens: set<string>, i: int) returns (r: Index)
    ensures Adds(r, index, tokens, i)
  {
    r := index;
    var todo := tokens;
    while todo != {}
      invariant todo <= tokens
      invariant Adds(r, index, tokens - todo, i)
      decreases |todo|
    {
      var t :| t in todo;
      AddsOneMore(r, index, tokens - todo, i, t);
      r := r[t := Lookup(r, t) + {i}];
      assert tokens - (todo - {t}) == (tokens - todo) + {t};
      todo := todo - {t};
    }
  }

  method IndexMarket(index: Index, reps: seq<Rep>, i: int) returns (r: Index)
    ensures forall t :: Lookup(r, t) == Lookup(index, t) + if Mentions(reps, t) then {i} else {}
  {
    r := index;
    for k := 0 to |reps|
      invariant forall t :: Lookup(r, t) == Lookup(index, t) + if Mentions(reps[..k], t) then {i} else {}
    {
      var was := r;
      r := IndexTokens(r, reps[k].tokens, i);
      forall t ensures Mentions(reps[..k + 1], t) <==> Mentions(reps[..k], t) || t in reps[k].tokens {
        MentionsNext(reps, k, t);
      }
    }
    assert reps[..|reps|] == reps;
  }

  lemma MentionsNext(reps: seq<Rep>, k: nat, t: string)
    requires k < |reps|
    ensures Mentions(reps[..k + 1], t) <==> Mentions(reps[..k], t) || t in reps[k].tokens
  {
    assert reps[..k + 1][k] == reps[k];
    assert forall i :: 0 <= i < k ==> reps[..k + 1][i] == reps[..k][i];
  }

  method BuildIndex(reps: seq<seq<Rep>>) returns (index: Index)
    ensures forall t :: Lookup(index, t) == Holders(reps, t)
  {
    index := map[];
    for i := 0 to |reps|
      invariant forall t :: Lookup(index, t) == Holders(reps[..i], t)
    {
      index := IndexMarket(index, reps[i], i);
      forall t ensures Holders(reps[..i + 1], t) == Holders(reps[..i], t) + if Mentions(reps[i], t) then {i} else {} {
        assert forall j :: 0 <= j < i ==> reps[..i + 1][j] == reps[..i][j];
        assert reps[..i + 1][i] == reps[i];
      }
    }
    assert reps[..|reps|] == reps;
  }

  /** The markets worth scoring against one question. */
  method BlockFor(tokens: set<string>, index: Index, tooCommon: set<string>) returns (block: set<int>)
    ensures forall j :: j in block <==> exists t :: t in tokens && t !in tooCommon && j in Lookup(index, t)
  {
    block := {};
    var todo := tokens;
    while todo != {}
      invariant todo <= tokens
      invariant forall j ::
                  j in block <==> exists t :: t in tokens && t !in todo && t !in tooCommon && j in Lookup(index, t)
      decreases |todo|
    {
      var t :| t in todo;
      ghost var was, left := block, todo;
      if t !in tooCommon { block := block + Lookup(index, t); }
      todo := todo - {t};
      forall j
        ensures j in block <==> exists u :: u in tokens && u !in todo && u !in tooCommon && j in Lookup(index, u)
      {
        if j in was {
          var u :| u in tokens && u !in left && u !in tooCommon && j in Lookup(index, u);
          assert u !in todo;
        }
      }
    }
  }

  // ---- the whole match ----

  lemma SomeMember(s: set<int>)
    requires s != {}
    ensures exists j :: j in s
  {
    assert (forall j :: j !in s) ==> s == {};
  }

  /** The hits of one Kalshi market that the block allows. */
  method HitsFor(o: Texts, kalshis: seq<Market>, polys: seq<Market>, st: Settings, i: nat, block: set<int>)
    returns (hits: seq<Hit>)
    requires i < |kalshis| && forall j :: j in block ==> 0 <= j < |polys|
    ensures forall h :: h in hits <==> h.kalshi == i && h.poly in block && BruteHit(o, kalshis, polys, st, h)
    ensures forall a, b :: 0 <= a < b < |hits| ==> hits[a].poly != hits[b].poly
  {
    var reps := Reps(o, polys);
    var km := kalshis[i];
    hits := [];
    var todo := block;
    while todo != {}
      invariant todo <= block
      invariant forall h ::
                  h in hits <==>
                    h.kalshi == i && h.poly in block && h.poly !in todo && BruteHit(o, kalshis, polys, st, h)
      invariant forall a, b :: 0 <= a < b < |hits| ==> hits[a].poly != hits[b].poly
      decreases |todo|
    {
      SomeMember(todo);
      var j :| j in todo;
      todo := todo - {j};
      var pm := polys[j];
      var delta := DeltaDays(km, pm);
      if delta.None? || delta.value > st.toleranceDays { continue; }
      var best := BestWithCut(o, km.question, pm.question, reps[j], st.threshold);
      if best.score >= st.threshold {
        var hit := Hit(i, j, FourPlaces(best.score), best.text, delta.value);
        assert BruteHit(o, kalshis, polys, st, hit);
        assert forall a :: 0 <= a < |hits| ==> hits[a] in hits;
        hits := hits + [hit];
      }
    }
  }

  ghost predicate IsMatch(o: Texts, kalshis: seq<Market>, polys: seq<Market>, st: Settings, h: Hit) {
    BruteHit(o, kalshis, polys, st, h)
        && SharesRare(Reps(o, polys), Tokens(o, kalshis[h.kalshi].question), st.maxBlockDf, h.poly)
  }

  predicate HigherScore(a: Hit, b: Hit) {
    a.score >= b.score
  }

  /** The index and the cut list built from these texts. */
  ghost predicate Indexed(reps: seq<seq<Rep>>, index: Index, tooCommon: set<string>, maxBlockDf: int) {
    && (forall t :: Lookup(index, t) == Holders(reps, t))
    && tooCommon == set t | t in index && |index[t]| > maxBlockDf
  }

  method BlockedHits(o: Texts, ks: seq<Market>, ps: seq<Market>, st: Settings, index: Index, tooCommon: set<string>,
                     i: nat)
    returns (hits: seq<Hit>)
    requires i < |ks| && Indexed(Reps(o, ps), index, tooCommon, st.maxBlockDf)
    ensures forall h :: h in hits <==> h.kalshi == i && IsMatch(o, ks, ps, st, h)
    ensures forall a, b :: 0 <= a < b < |hits| ==> hits[a].poly != hits[b].poly
  {
    var tokens := Tokens(o, ks[i].question);
    var block := BlockFor(tokens, index, tooCommon);
    forall j
      ensures (j in block <==> SharesRare(Reps(o, ps), tokens, st.maxBlockDf, j)) && (j in block ==> 0 <= j < |ps|)
    {
      BlockIsRare(Reps(o, ps), index, tooCommon, tokens, st.maxBlockDf, j);
    }
    hits := HitsFor(o, ks, ps, st, i, block);
  }

  lemma SortKeepsHits(hits: seq<Hit>)
    requires NoDuplicates(hits)
    ensures (forall h :: h in SortHits(hits) <==> h in hits) && NoDuplicates(SortHits(hits))
    ensures forall a, b :: 0 <= a < b < |hits| ==> SortHits(hits)[a].score >= SortHits(hits)[b].score
  {
    var le := (a: Hit, b: Hit) => HigherScore(a, b);
    Sorting.SortMembers(hits, le);
    Sorting.SortSorted(hits, le);
    var s := SortHits(hits);
    forall a, b | 0 <= a < b < |s| ensures s[a] != s[b] && s[a].score >= s[b].score {
      assert le(s[a], s[b]);
      if s[a] == s[b] {
        TwiceIsTwo(s, a, b);
        OnceIsOne(hits, s[a]);
        assert false;
      }
    }
  }

  /** Each pair that shares a rare token, scored in full, appears exactly once, best rounded score first. */
  method Match(o: Texts, kalshiMarkets: seq<Market>, polyMarkets: seq<Market>, st: Settings, skipStructured: bool)
    returns (hits: seq<Hit>)
    ensures var ks, ps := Candidates(kalshiMarkets, skipStructured), Candidates(polyMarkets, skipStructured);
            forall h :: h in hits <==> IsMatch(o, ks, ps, st, h)
    ensures NoDuplicates(hits)
    ensures forall a, b :: 0 <= a < b < |hits| ==> hits[a].score >= hits[b].score
  {
    var ks, ps := Candidates(kalshiMarkets, skipStructured), Candidates(polyMarkets, skipStructured);
    var index := BuildIndex(Reps(o, ps));
    var tooCommon := set t | t in index && |index[t]| > st.maxBlockDf;
    hits := [];
    for i := 0 to |ks|
      invariant forall h :: h in hits <==> h.kalshi < i && IsMatch(o, ks, ps, st, h)
      invariant NoDuplicates(hits)
    {
      var more := BlockedHits(o, ks, ps, st, index, tooCommon, i);
      JoinHits(hits, more, i);
      hits := hits + more;
    }
    SortKeepsHits(hits);
    hits := SortHits(hits);
  }

  lemma BlockIsRare(reps: seq<seq<Rep>>, index: Index, tooCommon: set<string>, tokens: set<string>, maxBlockDf: int,
                    j: int)
    requires Indexed(reps, index, tooCommon, maxBlockDf)
    ensures (exists t :: t in tokens && t !in tooCommon && j in Lookup(index, t))
            <==> SharesRare(reps, tokens, maxBlockDf, j)
    ensures SharesRare(reps, tokens, maxBlockDf, j) ==> 0 <= j < |reps|
  {
    forall t | j in Lookup(index, t) ensures t !in tooCommon <==> |Holders(reps, t)| <= maxBlockDf {
      assert t in index && index[t] == Holders(reps, t);
    }
    if SharesRare(reps, tokens, maxBlockDf, j) {
      var t :| t in tokens && |Holders(reps, t)| <= maxBlockDf && j in Holders(reps, t);
      assert j in Lookup(index, t);
    }
  }

  lemma JoinHits(hits: seq<Hit>, more: seq<Hit>, i: int)
    requires NoDuplicates(hits) && forall h :: h in hits ==> h.kalshi < i
    requires (forall h :: h in more ==> h.kalshi == i)
    requires forall a, b :: 0 <= a < b < |more| ==> more[a].poly != more[b].poly
    ensures NoDuplicates(hits + more)
  {
    forall a, b | 0 <= a < b < |hits + more| ensures (hits + more)[a] != (hits + more)[b] {
      assert a < |hits| ==> hits[a] in hits;
      assert b >= |hits| ==> more[b - |hits|] in more;
    }
  }

  function SortHits(hits: seq<Hit>): seq<Hit> {
    Sorting.Sort(hits, (a: Hit, b: Hit) => HigherScore(a, b))
  }
}
