/** The strict 1:1 reduction of a layer's candidates (pmarb/matching/matcher.py:196-281). */
module Dedupe {
  import Sorting

  /** Scores in ten-thousandths, as the matchers round them; `text` stands for the fields the reduction never reads. */
  datatype Candidate = Candidate(kalshi: string, poly: string, score: int, delta: int, text: string)

  const UNKNOWN_DATE: int := 0x4000_0000

  /** A negative delta means the date is unknown, which loses to every real one. */
  function DeltaRank(c: Candidate): int {
    if c.delta >= 0 then c.delta else UNKNOWN_DATE
  }

  predicate SameRank(a: Candidate, b: Candidate) {
    a.score == b.score && DeltaRank(a) == DeltaRank(b)
  }

  predicate Outranks(a: Candidate, b: Candidate) {
    a.score > b.score || (a.score == b.score && DeltaRank(a) < DeltaRank(b))
  }

  predicate Share(a: Candidate, b: Candidate) {
    a.kalshi == b.kalshi || a.poly == b.poly
  }

  predicate TextLe(a: string, b: string) {
    a == [] || (b != [] && (a[0] < b[0] || (a[0] == b[0] && TextLe(a[1..], b[1..]))))
  }

  /** The sort key: score falling, date delta, then both ids. */
  predicate Before(a: Candidate, b: Candidate) {
    || Outranks(a, b)
    || (SameRank(a, b)
        && ((a.kalshi != b.kalshi && TextLe(a.kalshi, b.kalshi)) || (a.kalshi == b.kalshi && TextLe(a.poly, b.poly))))
  }

  function Order(s: seq<Candidate>): seq<Candidate> {
    Sorting.Sort(s, (a: Candidate, b: Candidate) => Before(a, b))
  }

  function ByScore(s: seq<Candidate>): seq<Candidate> {
    Sorting.Sort(s, (a: Candidate, b: Candidate) => a.score >= b.score)
  }

  /** How many candidates from the front share the first one's rank. */
  function BlockEnd(s: seq<Candidate>, j: nat): (e: nat)
    requires 0 < j <= |s|
    ensures j <= e <= |s|
    decreases |s| - j
  {
    if j < |s| && SameRank(s[j], s[0]) then BlockEnd(s, j + 1) else j
  }

  function Unclaimed(s: seq<Candidate>, ks: set<string>, ps: set<string>): seq<Candidate> {
    if s == [] then []
    else
      var rest := Unclaimed(s[..|s| - 1], ks, ps);
      var c := s[|s| - 1];
      if c.kalshi !in ks && c.poly !in ps then rest + [c] else rest
  }

  function CountKalshi(s: seq<Candidate>, id: string): nat {
    if s == [] then 0 else CountKalshi(s[..|s| - 1], id) + if s[|s| - 1].kalshi == id then 1 else 0
  }

  function CountPoly(s: seq<Candidate>, id: string): nat {
    if s == [] then 0 else CountPoly(s[..|s| - 1], id) + if s[|s| - 1].poly == id then 1 else 0
  }

  /** The first `n` of the block, without those whose market two of the block want. */
  function Uncontested(block: seq<Candidate>, n: nat): seq<Candidate>
    requires n <= |block|
  {
    if n == 0 then []
    else
      var rest := Uncontested(block, n - 1);
      var c := block[n - 1];
      if CountKalshi(block, c.kalshi) > 1 || CountPoly(block, c.poly) > 1 then rest else rest + [c]
  }

  function KalshiIds(s: seq<Candidate>): set<string> {
    set c | c in s :: c.kalshi
  }

  function PolyIds(s: seq<Candidate>): set<string> {
    set c | c in s :: c.poly
  }

  function BlockKeeps(s: seq<Candidate>, ks: set<string>, ps: set<string>): seq<Candidate>
    requires s != []
  {
    var block := Unclaimed(s[..BlockEnd(s, 1)], ks, ps);
    Uncontested(block, |block|)
  }

  /** Rank block by rank block, each keeping its uncontested pairs and claiming their markets. */
  function Walk(s: seq<Candidate>, ks: set<string>, ps: set<string>): seq<Candidate>
    decreases |s|
  {
    if s == [] then []
    else
      var kept := BlockKeeps(s, ks, ps);
      kept + Walk(s[BlockEnd(s, 1)..], ks + KalshiIds(kept), ps + PolyIds(kept))
  }

  function Deduped(candidates: seq<Candidate>, ks: set<string>, ps: set<string>): seq<Candidate> {
    ByScore(Walk(Order(candidates), ks, ps))
  }

  lemma IdsAppend(a: seq<Candidate>, b: seq<Candidate>)
    ensures KalshiIds(a + b) == KalshiIds(a) + KalshiIds(b) && PolyIds(a + b) == PolyIds(a) + PolyIds(b)
  {
    assert forall c :: c in a + b <==> c in a || c in b;
  }

  lemma ByScoreKeepsIds(s: seq<Candidate>)
    ensures KalshiIds(ByScore(s)) == KalshiIds(s) && PolyIds(ByScore(s)) == PolyIds(s)
  {
    Sorting.SortMembers(s, (a: Candidate, b: Candidate) => a.score >= b.score);
  }

  /** The walk has got to `i` of `s` keeping `kept`, with `ks` and `ps` claimed by then. */
  ghost predicate Reached(s: seq<Candidate>, ks0: set<string>, ps0: set<string>, i: nat, kept: seq<Candidate>,
                          ks: set<string>, ps: set<string>)
  {
    i <= |s| && Walk(s, ks0, ps0) == kept + Walk(s[i..], ks, ps)
  }

  /** The claim sets are the seeds and exactly the markets of the pairs kept. */
  ghost predicate Claimed(ks0: set<string>, ps0: set<string>, kept: seq<Candidate>, ks: set<string>, ps: set<string>) {
    ks == ks0 + KalshiIds(kept) && ps == ps0 + PolyIds(kept)
  }

  lemma WalkNext(s: seq<Candidate>, i: nat, ks: set<string>, ps: set<string>)
    requires i < |s|
    ensures var more := BlockKeeps(s[i..], ks, ps);
            i + BlockEnd(s[i..], 1) <= |s|
                && Walk(s[i..], ks, ps) == more
                   + Walk(s[i + BlockEnd(s[i..], 1)..], ks + KalshiIds(more), ps + PolyIds(more))
  {
    var end := BlockEnd(s[i..], 1);
    assert s[i..][end..] == s[i + end..];
  }

  lemma ReachedNext(s: seq<Candidate>, ks0: set<string>, ps0: set<string>, i: nat, kept: seq<Candidate>,
                    ks: set<string>, ps: set<string>)
    requires i < |s| && Reached(s, ks0, ps0, i, kept, ks, ps)
    ensures var more := BlockKeeps(s[i..], ks, ps);
            Reached(s, ks0, ps0, i + BlockEnd(s[i..], 1), kept + more, ks + KalshiIds(more), ps + PolyIds(more))
  {
    var end, more := BlockEnd(s[i..], 1), BlockKeeps(s[i..], ks, ps);
    WalkNext(s, i, ks, ps);
    JoinSeqs(kept, more, Walk(s[i + end..], ks + KalshiIds(more), ps + PolyIds(more)));
  }

  lemma ClaimedNext(ks0: set<string>, ps0: set<string>, kept: seq<Candidate>, ks: set<string>, ps: set<string>,
                    more: seq<Candidate>)
    requires Claimed(ks0, ps0, kept, ks, ps)
    ensures Claimed(ks0, ps0, kept + more, ks + KalshiIds(more), ps + PolyIds(more))
  {
    IdsAppend(kept, more);
  }

  lemma JoinSeqs(a: seq<Candidate>, b: seq<Candidate>, c: seq<Candidate>)
    ensures a + (b + c) == (a + b) + c
  {
  }

  // ---- the loops ----

  /** The claim sets, which callers pass from layer to layer and every layer extends in place. */
  class ClaimSets {
    var kalshi: set<string>
    var poly: set<string>

    constructor ()
      ensures kalshi == {} && poly == {}
    {
      kalshi, poly := {}, {};
    }

    /** One rank block's pairs, those with a market already claimed left out. */
    method CollectBlock(s: seq<Candidate>) returns (block: seq<Candidate>, end: nat)
      requires s != []
      ensures end == BlockEnd(s, 1) && block == Unclaimed(s[..end], kalshi, poly)
    {
      end := 1;
      while end < |s| && SameRank(s[end], s[0])
        invariant 0 < end <= |s| && BlockEnd(s, 1) == BlockEnd(s, end)
      {
        end := end + 1;
      }
      block := [];
      for i := 0 to end
        invariant block == Unclaimed(s[..i], kalshi, poly)
      {
        assert s[..i + 1][..i] == s[..i];
        if s[i].kalshi !in kalshi && s[i].poly !in poly {
          block := block + [s[i]];
        }
      }
    }

    /** The uncontested pairs of a block join `kept` and take their markets. */
    method KeepUncontested(block: seq<Candidate>, kept: seq<Candidate>, ghost s: seq<Candidate>)
      returns (more: seq<Candidate>)
      requires block == Unclaimed(s, kalshi, poly)
      modifies this
      ensures more == kept + Uncontested(block, |block|)
      ensures kalshi == old(kalshi) + KalshiIds(Uncontested(block, |block|))
      ensures poly == old(poly) + PolyIds(Uncontested(block, |block|))
    {
      more := kept;
      for i := 0 to |block|
        invariant more == kept + Uncontested(block, i)
        invariant kalshi == old(kalshi) + KalshiIds(Uncontested(block, i))
        invariant poly == old(poly) + PolyIds(Uncontested(block, i))
      {
        var c := block[i];
        if CountKalshi(block, c.kalshi) > 1 || CountPoly(block, c.poly) > 1 { continue; }
        NeverTakenInBlock(s, old(kalshi), old(poly), block, i);
        if c.kalshi in kalshi || c.poly in poly {
          assert false;
        }
        IdsAppend(Uncontested(block, i), [c]);
        kalshi := kalshi + {c.kalshi};
        poly := poly + {c.poly};
        more := more + [c];
      }
    }

    method KeepBlock(s: seq<Candidate>, kept: seq<Candidate>) returns (more: seq<Candidate>, end: nat)
      requires s != []
      modifies this
      ensures end == BlockEnd(s, 1) && 1 <= end <= |s|
      ensures more == kept + BlockKeeps(s, old(kalshi), old(poly))
      ensures kalshi == old(kalshi) + KalshiIds(BlockKeeps(s, old(kalshi), old(poly)))
      ensures poly == old(poly) + PolyIds(BlockKeeps(s, old(kalshi), old(poly)))
    {
      var block;
      block, end := CollectBlock(s);
      more := KeepUncontested(block, kept, s[..end]);
    }

    /** The block at `i`, and the walk told of it. */
    method NextBlock(ordered: seq<Candidate>, i: nat, kept: seq<Candidate>, ghost ks0: set<string>,
                     ghost ps0: set<string>)
      returns (more: seq<Candidate>, next: nat)
      requires i < |ordered| && Reached(ordered, ks0, ps0, i, kept, kalshi, poly)
      requires Claimed(ks0, ps0, kept, kalshi, poly)
      modifies this
      ensures i < next <= |ordered| && Reached(ordered, ks0, ps0, next, more, kalshi, poly)
      ensures Claimed(ks0, ps0, more, kalshi, poly)
    {
      ReachedNext(ordered, ks0, ps0, i, kept, kalshi, poly);
      ClaimedNext(ks0, ps0, kept, kalshi, poly, BlockKeeps(ordered[i..], kalshi, poly));
      var end;
      more, end := KeepBlock(ordered[i..], kept);
      next := i + end;
    }

    method WalkBlocks(ordered: seq<Candidate>) returns (kept: seq<Candidate>)
      modifies this
      ensures kept == Walk(ordered, old(kalshi), old(poly))
      ensures kalshi == old(kalshi) + KalshiIds(kept) && poly == old(poly) + PolyIds(kept)
    {
      kept := [];
      var i := 0;
      ghost var ks0, ps0 := kalshi, poly;
      assert ordered[0..] == ordered;
      while i < |ordered|
        invariant Reached(ordered, ks0, ps0, i, kept, kalshi, poly) && Claimed(ks0, ps0, kept, kalshi, poly)
        decreases |ordered| - i
      {
        kept, i := NextBlock(ordered, i, kept, ks0, ps0);
      }
    }

    method DedupeOneToOne(candidates: seq<Candidate>) returns (kept: seq<Candidate>)
      modifies this
      ensures kept == Deduped(candidates, old(kalshi), old(poly))
      ensures kalshi == old(kalshi) + KalshiIds(kept) && poly == old(poly) + PolyIds(kept)
    {
      kept := WalkBlocks(Order(candidates));
      ByScoreKeepsIds(kept);
      kept := ByScore(kept);
    }
  }

  lemma {:induction false} CountsAreCopies(s: seq<Candidate>, i: nat, j: nat)
    requires i < j < |s|
    ensures s[i].kalshi == s[j].kalshi ==> CountKalshi(s, s[i].kalshi) > 1
    ensures s[i].poly == s[j].poly ==> CountPoly(s, s[i].poly) > 1
  {
    var front := s[..|s| - 1];
    if j < |s| - 1 {
      CountsAreCopies(front, i, j);
    } else {
      CountedOnce(front, i);
    }
  }

  lemma {:induction false} CountedOnce(s: seq<Candidate>, i: nat)
    requires i < |s|
    ensures CountKalshi(s, s[i].kalshi) > 0 && CountPoly(s, s[i].poly) > 0
  {
    if i < |s| - 1 { CountedOnce(s[..|s| - 1], i); }
  }

  /** More than one only when there really are two. */
  lemma {:induction false} CountedTwice(s: seq<Candidate>, i: nat)
    requires i < |s|
    ensures CountKalshi(s, s[i].kalshi) > 1 ==> exists j :: 0 <= j < |s| && j != i && s[j].kalshi == s[i].kalshi
    ensures CountPoly(s, s[i].poly) > 1 ==> exists j :: 0 <= j < |s| && j != i && s[j].poly == s[i].poly
  {
    var front := s[..|s| - 1];
    if i < |s| - 1 {
      CountedTwice(front, i);
      assert s[i].kalshi != s[|s| - 1].kalshi ==> CountKalshi(front, s[i].kalshi) == CountKalshi(s, s[i].kalshi);
      assert s[i].poly != s[|s| - 1].poly ==> CountPoly(front, s[i].poly) == CountPoly(s, s[i].poly);
      assert forall j :: 0 <= j < |front| ==> front[j] == s[j];
    } else {
      CountedAtAll(front, s[i]);
      assert forall j :: 0 <= j < |front| ==> front[j] == s[j];
    }
  }

  lemma {:induction false} CountedAtAll(s: seq<Candidate>, c: Candidate)
    ensures CountKalshi(s, c.kalshi) > 0 ==> exists j :: 0 <= j < |s| && s[j].kalshi == c.kalshi
    ensures CountPoly(s, c.poly) > 0 ==> exists j :: 0 <= j < |s| && s[j].poly == c.poly
  {
    if s != [] {
      CountedAtAll(s[..|s| - 1], c);
      assert forall j :: 0 <= j < |s| - 1 ==> s[..|s| - 1][j] == s[j];
      assert s[|s| - 1] == s[|s| - 1];
    }
  }

  lemma {:induction false} UncontestedMembers(block: seq<Candidate>, n: nat, c: Candidate)
    requires n <= |block|
    ensures c in Uncontested(block, n) <==>
              (exists i :: 0 <= i < n && block[i] == c) && CountKalshi(block, c.kalshi) <= 1
                  && CountPoly(block, c.poly) <= 1
  {
    if n > 0 {
      UncontestedMembers(block, n - 1, c);
      assert block[n - 1] == block[n - 1];
    }
  }

  lemma {:induction false} UnclaimedMembers(s: seq<Candidate>, ks: set<string>, ps: set<string>, c: Candidate)
    ensures c in Unclaimed(s, ks, ps) <==> c in s && c.kalshi !in ks && c.poly !in ps
  {
    if s != [] {
      UnclaimedMembers(s[..|s| - 1], ks, ps, c);
      assert s == s[..|s| - 1] + [s[|s| - 1]];
    }
  }

  /**
   * Inside one block no kept pair can have taken another uncontested pair's market: the second claim check never fires.
   */
  lemma NeverTakenInBlock(s: seq<Candidate>, ks: set<string>, ps: set<string>, block: seq<Candidate>, i: nat)
    requires block == Unclaimed(s, ks, ps) && i < |block|
    requires CountKalshi(block, block[i].kalshi) <= 1 && CountPoly(block, block[i].poly) <= 1
    ensures block[i].kalshi !in ks + KalshiIds(Uncontested(block, i))
    ensures block[i].poly !in ps + PolyIds(Uncontested(block, i))
  {
    UnclaimedMembers(s, ks, ps, block[i]);
    forall c | c in Uncontested(block, i) ensures c.kalshi != block[i].kalshi && c.poly != block[i].poly {
      UncontestedMembers(block, i, c);
      var j :| 0 <= j < i && block[j] == c;
      CountsAreCopies(block, j, i);
    }
  }
}
