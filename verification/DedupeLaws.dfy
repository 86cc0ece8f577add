/** The reduction characterised without its loops, and what follows: one to one, order-free, chainable. */
module DedupeLaws {
  import opened Common
  import opened Dedupe
  import Sorting

  /** No seed and no kept, better-ranked pair holds either of the candidate's markets. */
  ghost predicate Free(c: Candidate, kept: set<Candidate>, ks: set<string>, ps: set<string>) {
    && c.kalshi !in ks && c.poly !in ps
    && forall d {:trigger Outranks(d, c)} :: d in kept && Outranks(d, c) ==> !Share(d, c)
  }

  /** The candidate is listed once, is free, and no free rival of its own rank wants either market. */
  ghost predicate Chosen(c: Candidate, all: multiset<Candidate>, kept: set<Candidate>, ks: set<string>, ps: set<string>)
  {
    && all[c] == 1 && Free(c, kept, ks, ps)
    && forall d {:trigger SameRank(d, c)} :: d in all && d != c && SameRank(d, c) && Free(d, kept, ks, ps) ==>
       !Share(d, c)
  }

  /** `kept` is exactly the candidates chosen, given `kept` itself. */
  ghost predicate IsAssignment(all: multiset<Candidate>, kept: set<Candidate>, ks: set<string>, ps: set<string>) {
    forall c {:trigger Chosen(c, all, kept, ks, ps)} :: c in kept <==> Chosen(c, all, kept, ks, ps)
  }

  // ---- the sort key ----

  lemma {:induction false} TextTotal(a: string, b: string)
    ensures TextLe(a, b) || TextLe(b, a)
    ensures TextLe(a, b) && TextLe(b, a) ==> a == b
  {
    if a != [] && b != [] {
      TextTotal(a[1..], b[1..]);
      assert a == [a[0]] + a[1..] && b == [b[0]] + b[1..];
    }
  }

  lemma {:induction false} TextTransitive(a: string, b: string, c: string)
    requires TextLe(a, b) && TextLe(b, c)
    ensures TextLe(a, c)
  {
    if a != [] && a[0] == b[0] == c[0] { TextTransitive(a[1..], b[1..], c[1..]); }
  }

  lemma BeforeTransitive(a: Candidate, b: Candidate, c: Candidate)
    requires Before(a, b) && Before(b, c)
    ensures Before(a, c)
  {
    if SameRank(a, b) && SameRank(b, c) {
      if TextLe(a.kalshi, b.kalshi) && TextLe(b.kalshi, c.kalshi) { TextTransitive(a.kalshi, b.kalshi, c.kalshi); }
      if TextLe(a.poly, b.poly) && TextLe(b.poly, c.poly) { TextTransitive(a.poly, b.poly, c.poly); }
      TextTotal(a.kalshi, b.kalshi);
    }
  }

  lemma BeforeTotal(a: Candidate, b: Candidate)
    ensures Before(a, b) || Before(b, a)
    ensures Before(a, b) && Before(b, a) ==> a.kalshi == b.kalshi
  {
    TextTotal(a.kalshi, b.kalshi);
    TextTotal(a.poly, b.poly);
  }

  /** A list in the order of the sort key. */
  ghost predicate Ordered(s: seq<Candidate>) {
    forall i, j :: 0 <= i < j < |s| ==> Before(s[i], s[j])
  }

  lemma OrderIsOrdered(s: seq<Candidate>)
    ensures Ordered(Order(s)) && multiset(Order(s)) == multiset(s)
  {
    var le := (a: Candidate, b: Candidate) => Before(a, b);
    forall x, y ensures le(x, y) || le(y, x) { BeforeTotal(x, y); }
    forall x, y, z | le(x, y) && le(y, z) ensures le(x, z) { BeforeTransitive(x, y, z); }
    Sorting.SortSorted(s, le);
    forall i, j | 0 <= i < j < |Order(s)| ensures Before(Order(s)[i], Order(s)[j]) {
      assert le(Order(s)[i], Order(s)[j]);
    }
  }

  // ---- one block ----

  lemma {:induction false} BlockMeans(s: seq<Candidate>, j: nat)
    requires Ordered(s) && 0 < j <= |s| && forall i :: 0 <= i < j ==> SameRank(s[i], s[0])
    ensures forall i :: 0 <= i < BlockEnd(s, j) ==> SameRank(s[i], s[0])
    ensures forall i :: BlockEnd(s, j) <= i < |s| ==> Outranks(s[0], s[i])
    decreases |s| - j
  {
    if j < |s| && SameRank(s[j], s[0]) {
      BlockMeans(s, j + 1);
    } else {
      forall i | j <= i < |s| ensures Outranks(s[0], s[i]) {
        assert Before(s[0], s[j]);
        assert j < i ==> Before(s[j], s[i]);
      }
    }
  }

  lemma {:induction false} CopiesUnclaimed(s: seq<Candidate>, ks: set<string>, ps: set<string>, c: Candidate)
    ensures multiset(Unclaimed(s, ks, ps))[c] == if c.kalshi !in ks && c.poly !in ps then multiset(s)[c] else 0
  {
    if s != [] {
      CopiesUnclaimed(s[..|s| - 1], ks, ps, c);
      assert s == s[..|s| - 1] + [s[|s| - 1]];
    }
  }

  lemma {:induction false} TwoCopies(s: seq<Candidate>, c: Candidate)
    ensures multiset(s)[c] > 1 ==> exists i, j :: 0 <= i < j < |s| && s[i] == c && s[j] == c
  {
    if s != [] {
      var front := s[..|s| - 1];
      assert s == front + [s[|s| - 1]];
      TwoCopies(front, c);
      assert forall i :: 0 <= i < |front| ==> front[i] == s[i];
      if s[|s| - 1] == c && multiset(front)[c] > 0 {
        assert c in front;
        var i :| 0 <= i < |front| && front[i] == c;
        assert s[i] == c && s[|s| - 1] == c;
      }
    }
  }

  /** In this block the candidate is listed once and no unclaimed other wants its markets. */
  ghost predicate Alone(c: Candidate, block: seq<Candidate>, ks: set<string>, ps: set<string>) {
    && multiset(block)[c] == 1 && c.kalshi !in ks && c.poly !in ps
    && forall d :: d in block && d != c && d.kalshi !in ks && d.poly !in ps ==> !Share(d, c)
  }

  lemma CountedMeansAlone(front: seq<Candidate>, ks: set<string>, ps: set<string>, c: Candidate, i: nat)
    requires var block := Unclaimed(front, ks, ps); i < |block| && block[i] == c
    ensures var block := Unclaimed(front, ks, ps);
            CountKalshi(block, c.kalshi) <= 1 && CountPoly(block, c.poly) <= 1 <==> Alone(c, front, ks, ps)
  {
    var block := Unclaimed(front, ks, ps);
    UnclaimedMembers(front, ks, ps, c);
    CopiesUnclaimed(front, ks, ps, c);
    assert c in front && multiset(front)[c] > 0;
    if Alone(c, front, ks, ps) {
      CountedTwice(block, i);
      forall j | 0 <= j < |block| && j != i ensures !Share(block[j], c) {
        UnclaimedMembers(front, ks, ps, block[j]);
        if block[j] == c { TwiceIsTwo(block, if i < j then i else j, if i < j then j else i); }
      }
    } else {
      NotAlone(front, ks, ps, c, i);
    }
  }

  lemma NotAlone(front: seq<Candidate>, ks: set<string>, ps: set<string>, c: Candidate, i: nat)
    requires var block := Unclaimed(front, ks, ps); i < |block| && block[i] == c && c.kalshi !in ks && c.poly !in ps
    requires multiset(Unclaimed(front, ks, ps))[c] == multiset(front)[c] > 0 && !Alone(c, front, ks, ps)
    ensures var block := Unclaimed(front, ks, ps); CountKalshi(block, c.kalshi) > 1 || CountPoly(block, c.poly) > 1
  {
    var block := Unclaimed(front, ks, ps);
    if multiset(block)[c] > 1 {
      TwoCopies(block, c);
      var j, k :| 0 <= j < k < |block| && block[j] == c && block[k] == c;
      CountsAreCopies(block, j, k);
    } else {
      var d :| d in front && d != c && d.kalshi !in ks && d.poly !in ps && Share(d, c);
      UnclaimedMembers(front, ks, ps, d);
      var j :| 0 <= j < |block| && block[j] == d;
      CountsAreCopies(block, if i < j then i else j, if i < j then j else i);
    }
  }

  lemma BlockKeepsAlone(s: seq<Candidate>, ks: set<string>, ps: set<string>, c: Candidate)
    requires s != []
    ensures c in BlockKeeps(s, ks, ps) <==> Alone(c, s[..BlockEnd(s, 1)], ks, ps)
  {
    var front := s[..BlockEnd(s, 1)];
    var block := Unclaimed(front, ks, ps);
    UncontestedMembers(block, |block|, c);
    UnclaimedMembers(front, ks, ps, c);
    if c in block {
      var i :| 0 <= i < |block| && block[i] == c;
      CountedMeansAlone(front, ks, ps, c, i);
    } else {
      assert multiset(front)[c] == 1 ==> c in front;
    }
  }

  // ---- the walk ----

  lemma {:induction false} WalkMembers(s: seq<Candidate>, ks: set<string>, ps: set<string>, c: Candidate)
    requires c in Walk(s, ks, ps)
    ensures c in s
    decreases |s|
  {
    var e, kept := BlockEnd(s, 1), BlockKeeps(s, ks, ps);
    if c in kept {
      BlockKeepsAlone(s, ks, ps, c);
      assert c in s[..e];
    } else {
      WalkMembers(s[e..], ks + KalshiIds(kept), ps + PolyIds(kept), c);
    }
  }

  /** `top` is one rank block and everything in `rest` ranks below it. */
  ghost predicate Splits(s: seq<Candidate>, top: seq<Candidate>, rest: seq<Candidate>) {
    && s == top + rest && Ordered(rest)
    && (forall a, b :: a in top && b in top ==> SameRank(a, b))
    && (forall a, b :: a in top && b in rest ==> Outranks(a, b))
  }

  lemma FirstBlockSplits(s: seq<Candidate>)
    requires Ordered(s) && s != []
    ensures Splits(s, s[..BlockEnd(s, 1)], s[BlockEnd(s, 1)..])
  {
    BlockMeans(s, 1);
    var e := BlockEnd(s, 1);
    var top, rest := s[..e], s[e..];
    forall i | 0 <= i < e ensures SameRank(top[i], s[0]) { assert top[i] == s[i]; }
    forall i | 0 <= i < |rest| ensures Outranks(s[0], rest[i]) { assert rest[i] == s[e + i]; }
    forall i, j | 0 <= i < j < |rest| ensures Before(rest[i], rest[j]) {
      assert rest[i] == s[e + i] && rest[j] == s[e + j];
    }
    assert s == top + rest;
  }

  /** One block and the assignment below it make the assignment of the whole. */
  lemma AssignmentJoins(s: seq<Candidate>, top: seq<Candidate>, rest: seq<Candidate>, kept: set<Candidate>,
                        below: set<Candidate>, ks: set<string>, ps: set<string>, ks1: set<string>, ps1: set<string>)
    requires Splits(s, top, rest)
    requires forall c {:trigger Alone(c, top, ks, ps)} :: c in kept <==> Alone(c, top, ks, ps)
    requires (forall c :: c in kept ==> c in top) && (forall c :: c in below ==> c in rest)
    requires ks1 == ks + (set c | c in kept :: c.kalshi) && ps1 == ps + (set c | c in kept :: c.poly)
    requires IsAssignment(multiset(rest), below, ks1, ps1)
    ensures IsAssignment(multiset(s), kept + below, ks, ps)
  {
    var all := kept + below;
    forall c ensures c in all <==> Chosen(c, multiset(s), all, ks, ps) {
      if c in top {
        ChosenInBlock(s, top, rest, all, ks, ps, c);
        assert c in kept <==> Alone(c, top, ks, ps);
        assert c in rest ==> Outranks(c, c);
      } else if c in rest {
        ChosenBelow(s, top, rest, kept, below, ks, ps, ks1, ps1, c);
        assert c in below <==> Chosen(c, multiset(rest), below, ks1, ps1);
      } else {
        assert c !in s;
      }
    }
  }

  lemma FreeInBlock(top: seq<Candidate>, rest: seq<Candidate>, all: set<Candidate>, ks: set<string>, ps: set<string>,
                    d: Candidate)
    requires (forall a, b :: a in top && b in top ==> SameRank(a, b))
    requires (forall a, b :: a in top && b in rest ==> Outranks(a, b))
    requires (forall e :: e in all ==> e in top || e in rest) && d in top
    ensures Free(d, all, ks, ps) <==> d.kalshi !in ks && d.poly !in ps
  {
    forall e | e in all ensures !Outranks(e, d) {
      assert e in top ==> SameRank(e, d);
      assert e in rest ==> Outranks(d, e);
    }
  }

  lemma CopiesSplit(s: seq<Candidate>, top: seq<Candidate>, rest: seq<Candidate>, c: Candidate)
    requires Splits(s, top, rest)
    ensures c in top ==> multiset(s)[c] == multiset(top)[c]
    ensures c in rest ==> multiset(s)[c] == multiset(rest)[c]
  {
    assert multiset(s) == multiset(top) + multiset(rest);
    assert c in top && c in rest ==> Outranks(c, c);
  }

  lemma ChosenInBlock(s: seq<Candidate>, top: seq<Candidate>, rest: seq<Candidate>, all: set<Candidate>,
                      ks: set<string>, ps: set<string>, c: Candidate)
    requires Splits(s, top, rest) && (forall e :: e in all ==> e in top || e in rest) && c in top
    ensures Chosen(c, multiset(s), all, ks, ps) <==> Alone(c, top, ks, ps)
  {
    CopiesSplit(s, top, rest, c);
    FreeInBlock(top, rest, all, ks, ps, c);
    forall d | d in s && d in top
      ensures SameRank(d, c) && (Free(d, all, ks, ps) <==> d.kalshi !in ks && d.poly !in ps)
    {
      FreeInBlock(top, rest, all, ks, ps, d);
    }
    forall d | d in s && d !in top ensures !SameRank(d, c) {
      assert d in rest && Outranks(c, d);
    }
    forall d | d in top ensures d in multiset(s) {
      assert d in s;
    }
  }

  lemma FreeBelow(top: seq<Candidate>, rest: seq<Candidate>, kept: set<Candidate>, below: set<Candidate>,
                  ks: set<string>, ps: set<string>, ks1: set<string>, ps1: set<string>, d: Candidate)
    requires forall a, b :: a in top && b in rest ==> Outranks(a, b)
    requires (forall c :: c in kept ==> c in top) && d in rest
    requires ks1 == ks + (set c | c in kept :: c.kalshi) && ps1 == ps + (set c | c in kept :: c.poly)
    ensures Free(d, kept + below, ks, ps) <==> Free(d, below, ks1, ps1)
  {
    forall e | e in kept ensures Outranks(e, d) && e.kalshi in ks1 && e.poly in ps1 {
      assert e in top;
    }
  }

  lemma ChosenBelow(s: seq<Candidate>, top: seq<Candidate>, rest: seq<Candidate>, kept: set<Candidate>,
                    below: set<Candidate>, ks: set<string>, ps: set<string>, ks1: set<string>, ps1: set<string>,
                        c: Candidate)
    requires Splits(s, top, rest) && (forall c :: c in kept ==> c in top) && c in rest
    requires ks1 == ks + (set c | c in kept :: c.kalshi) && ps1 == ps + (set c | c in kept :: c.poly)
    ensures Chosen(c, multiset(s), kept + below, ks, ps) <==> Chosen(c, multiset(rest), below, ks1, ps1)
  {
    CopiesSplit(s, top, rest, c);
    FreeBelow(top, rest, kept, below, ks, ps, ks1, ps1, c);
    forall d | d in rest ensures d in multiset(s) && (Free(d, kept + below, ks, ps) <==> Free(d, below, ks1, ps1)) {
      assert d in s;
      FreeBelow(top, rest, kept, below, ks, ps, ks1, ps1, d);
    }
    forall d | d in s && d !in rest ensures !SameRank(d, c) {
      assert d in top && Outranks(d, c);
    }
  }

  /** The loops compute an assignment. */
  lemma {:induction false} WalkIsAssignment(s: seq<Candidate>, ks: set<string>, ps: set<string>)
    requires Ordered(s)
    ensures IsAssignment(multiset(s), Elements(Walk(s, ks, ps)), ks, ps)
    decreases |s|
  {
    var all := Elements(Walk(s, ks, ps));
    if s == [] {
      assert forall c :: c !in all && multiset(s)[c] == 0;
    } else {
      var e, kept := BlockEnd(s, 1), BlockKeeps(s, ks, ps);
      var ks1, ps1 := ks + KalshiIds(kept), ps + PolyIds(kept);
      var below := Walk(s[e..], ks1, ps1);
      FirstBlockSplits(s);
      WalkIsAssignment(s[e..], ks1, ps1);
      forall c ensures c in Elements(kept) <==> Alone(c, s[..e], ks, ps) { BlockKeepsAlone(s, ks, ps, c); }
      forall c | c in Elements(kept) ensures c in s[..e] { BlockKeepsAlone(s, ks, ps, c); }
      forall c | c in Elements(below) ensures c in s[e..] { WalkMembers(s[e..], ks1, ps1, c); }
      assert all == Elements(kept) + Elements(below);
      assert KalshiIds(kept) == (set c | c in Elements(kept) :: c.kalshi);
      assert PolyIds(kept) == (set c | c in Elements(kept) :: c.poly);
      AssignmentJoins(s, s[..e], s[e..], Elements(kept), Elements(below), ks, ps, ks1, ps1);
    }
  }

  lemma DedupedIsAssignment(candidates: seq<Candidate>, ks: set<string>, ps: set<string>)
    ensures IsAssignment(multiset(candidates), Elements(Deduped(candidates, ks, ps)), ks, ps)
  {
    OrderIsOrdered(candidates);
    WalkIsAssignment(Order(candidates), ks, ps);
    DedupedElements(candidates, ks, ps);
  }

  lemma DedupedElements(candidates: seq<Candidate>, ks: set<string>, ps: set<string>)
    ensures Elements(Deduped(candidates, ks, ps)) == Elements(Walk(Order(candidates), ks, ps))
  {
    Sorting.SortMembers(Walk(Order(candidates), ks, ps), (a: Candidate, b: Candidate) => a.score >= b.score);
  }

  // ---- what an assignment is ----

  /** How many listed candidates rank above this one. */
  function Above(all: multiset<Candidate>, c: Candidate): set<Candidate> {
    set d | d in all && Outranks(d, c)
  }

  /** Two assignments of the same candidates agree on every candidate: rank by rank there is no choice. */
  lemma {:induction false} AssignmentsAgree(all: multiset<Candidate>, one: set<Candidate>, two: set<Candidate>,
                                            ks: set<string>, ps: set<string>, c: Candidate)
    requires IsAssignment(all, one, ks, ps) && IsAssignment(all, two, ks, ps)
    ensures c in one <==> c in two
    decreases |Above(all, c)|
  {
    forall e | Outranks(e, c) ensures e in one <==> e in two {
      assert (e in one <==> Chosen(e, all, one, ks, ps)) && (e in two <==> Chosen(e, all, two, ks, ps));
      if e in all {
        FewerAbove(all, e, c);
        AssignmentsAgree(all, one, two, ks, ps, e);
      }
    }
    SameAboveSameChoice(all, one, two, ks, ps, c);
    assert (c in one <==> Chosen(c, all, one, ks, ps)) && (c in two <==> Chosen(c, all, two, ks, ps));
  }

  lemma FewerAbove(all: multiset<Candidate>, e: Candidate, c: Candidate)
    requires e in all && Outranks(e, c)
    ensures |Above(all, e)| < |Above(all, c)|
  {
    assert Above(all, e) <= Above(all, c);
    assert e in Above(all, c) && e !in Above(all, e);
    CountStrict(Above(all, e), Above(all, c), e);
  }

  lemma CountStrict(small: set<Candidate>, large: set<Candidate>, e: Candidate)
    requires small <= large && e in large && e !in small
    ensures |small| < |large|
  {
    assert large == small + {e} + (large - small - {e});
  }

  lemma SameAboveSameChoice(all: multiset<Candidate>, one: set<Candidate>, two: set<Candidate>, ks: set<string>,
                            ps: set<string>, c: Candidate)
    requires forall e :: Outranks(e, c) ==> (e in one <==> e in two)
    ensures Chosen(c, all, one, ks, ps) <==> Chosen(c, all, two, ks, ps)
  {
    forall d | SameRank(d, c) ensures Free(d, one, ks, ps) <==> Free(d, two, ks, ps) {
      assert forall e :: Outranks(e, d) ==> Outranks(e, c);
    }
    assert SameRank(c, c);
  }

  /** The result is one to one and avoids the markets already claimed. */
  lemma AssignmentIsOneToOne(all: multiset<Candidate>, kept: set<Candidate>, ks: set<string>, ps: set<string>)
    requires IsAssignment(all, kept, ks, ps)
    ensures forall c :: c in kept ==> c in all && c.kalshi !in ks && c.poly !in ps
    ensures forall c, d :: c in kept && d in kept && c != d ==> !Share(c, d)
  {
    forall c | c in kept ensures c in all && c.kalshi !in ks && c.poly !in ps {
      assert Chosen(c, all, kept, ks, ps);
    }
    forall c, d | c in kept && d in kept && c != d ensures !Share(c, d) {
      assert Chosen(c, all, kept, ks, ps) && Chosen(d, all, kept, ks, ps);
      assert SameRank(d, c) || Outranks(c, d) || Outranks(d, c);
    }
  }

  /** The same candidates in any order give the same result, order included. */
  lemma InputOrderIsIrrelevant(a: seq<Candidate>, b: seq<Candidate>, ks: set<string>, ps: set<string>)
    requires multiset(a) == multiset(b)
    ensures Deduped(a, ks, ps) == Deduped(b, ks, ps)
  {
    var x, y := Walk(Order(a), ks, ps), Walk(Order(b), ks, ps);
    DedupedIsAssignment(a, ks, ps);
    DedupedIsAssignment(b, ks, ps);
    DedupedElements(a, ks, ps);
    DedupedElements(b, ks, ps);
    forall c ensures c in x <==> c in y {
      AssignmentsAgree(multiset(a), Elements(x), Elements(y), ks, ps, c);
      assert (c in Elements(x) <==> c in x) && (c in Elements(y) <==> c in y);
    }
    OrderIsOrdered(a);
    OrderIsOrdered(b);
    WalkIsOrdered(Order(a), ks, ps);
    WalkIsOrdered(Order(b), ks, ps);
    OneOrderOnly(x, y);
  }

  /** Strictly ordered: no earlier element also comes after a later one. */
  ghost predicate Strict(s: seq<Candidate>) {
    forall i, j :: 0 <= i < j < |s| ==> Before(s[i], s[j]) && !Before(s[j], s[i])
  }

  lemma {:induction false} OneOrderOnly(x: seq<Candidate>, y: seq<Candidate>)
    requires Strict(x) && Strict(y) && forall c :: c in x <==> c in y
    ensures x == y
  {
    assert y != [] ==> y[0] in y;
    if x != [] {
      assert x[0] in x && x[0] in y && y[0] in x;
      FirstIsLeast(x, y[0]);
      FirstIsLeast(y, x[0]);
      assert x == [x[0]] + x[1..] && y == [y[0]] + y[1..];
      forall c ensures c in x[1..] <==> c in y[1..] {
        NotInTail(x, c);
        NotInTail(y, c);
      }
      OneOrderOnly(x[1..], y[1..]);
    }
  }

  lemma FirstIsLeast(s: seq<Candidate>, c: Candidate)
    requires Strict(s) && c in s
    ensures c == s[0] || (Before(s[0], c) && !Before(c, s[0]))
  {
    var i :| 0 <= i < |s| && s[i] == c;
  }

  lemma NotInTail(x: seq<Candidate>, c: Candidate)
    requires Strict(x) && x != []
    ensures c in x[1..] <==> c in x && c != x[0]
  {
    assert x == [x[0]] + x[1..];
    assert forall i :: 0 <= i < |x[1..]| ==> x[1..][i] == x[i + 1] && x[i + 1] != x[0];
  }

  lemma {:induction false} UnclaimedStaysOrdered(s: seq<Candidate>, ks: set<string>, ps: set<string>)
    requires Ordered(s)
    ensures Ordered(Unclaimed(s, ks, ps))
  {
    if s != [] {
      var front := s[..|s| - 1];
      UnclaimedStaysOrdered(front, ks, ps);
      forall c | c in Unclaimed(front, ks, ps) ensures Before(c, s[|s| - 1]) {
        UnclaimedMembers(front, ks, ps, c);
        var i :| 0 <= i < |front| && front[i] == c;
        assert s[i] == c;
      }
      OrderedAppend(Unclaimed(front, ks, ps), s[|s| - 1]);
    }
  }

  lemma OrderedAppend(s: seq<Candidate>, c: Candidate)
    requires Ordered(s) && forall d :: d in s ==> Before(d, c)
    ensures Ordered(s + [c])
  {
  }

  lemma {:induction false} UncontestedIsStrict(block: seq<Candidate>, n: nat)
    requires Ordered(block) && n <= |block|
    ensures Strict(Uncontested(block, n))
  {
    if n > 0 {
      UncontestedIsStrict(block, n - 1);
      var last := block[n - 1];
      if CountKalshi(block, last.kalshi) <= 1 {
        forall c | c in Uncontested(block, n - 1) ensures Before(c, last) && !Before(last, c) {
          UncontestedMembers(block, n - 1, c);
          var i :| 0 <= i < n - 1 && block[i] == c;
          CountsAreCopies(block, i, n - 1);
          BeforeTotal(c, last);
        }
      }
    }
  }

  lemma {:induction false} WalkIsOrdered(s: seq<Candidate>, ks: set<string>, ps: set<string>)
    requires Ordered(s)
    ensures Strict(Walk(s, ks, ps))
    decreases |s|
  {
    if s != [] {
      var e, kept := BlockEnd(s, 1), BlockKeeps(s, ks, ps);
      var below := Walk(s[e..], ks + KalshiIds(kept), ps + PolyIds(kept));
      FirstBlockSplits(s);
      UnclaimedStaysOrdered(s[..e], ks, ps);
      UncontestedIsStrict(Unclaimed(s[..e], ks, ps), |Unclaimed(s[..e], ks, ps)|);
      WalkIsOrdered(s[e..], ks + KalshiIds(kept), ps + PolyIds(kept));
      forall c, d | c in kept && d in below ensures Outranks(c, d) {
        BlockKeepsAlone(s, ks, ps, c);
        WalkMembers(s[e..], ks + KalshiIds(kept), ps + PolyIds(kept), d);
      }
      StrictJoins(kept, below);
    }
  }

  lemma StrictJoins(x: seq<Candidate>, y: seq<Candidate>)
    requires Strict(x) && Strict(y) && forall c, d :: c in x && d in y ==> Outranks(c, d)
    ensures Strict(x + y)
  {
    forall i, j | 0 <= i < j < |x + y| ensures Before((x + y)[i], (x + y)[j]) && !Before((x + y)[j], (x + y)[i]) {
      if i < |x| <= j { assert Outranks(x[i], y[j - |x|]); }
    }
  }

  /** What a layer keeps was listed and unclaimed, and no two of it share a market. */
  lemma LayerIsOneToOne(candidates: seq<Candidate>, ks: set<string>, ps: set<string>)
    ensures forall c :: c in Deduped(candidates, ks, ps) ==> c in candidates && c.kalshi !in ks && c.poly !in ps
    ensures forall c, d :: c in Deduped(candidates, ks, ps) && d in Deduped(candidates, ks, ps) && c != d ==>
            !Share(c, d)
  {
    var kept := Deduped(candidates, ks, ps);
    DedupedIsAssignment(candidates, ks, ps);
    AssignmentIsOneToOne(multiset(candidates), Elements(kept), ks, ps);
    assert forall c :: c in kept ==> c in Elements(kept);
  }

  lemma SharesNone(a: seq<Candidate>, b: seq<Candidate>, ks: set<string>, ps: set<string>)
    requires forall c :: c in b ==> c.kalshi !in ks + KalshiIds(a) && c.poly !in ps + PolyIds(a)
    ensures forall c, d :: c in a && d in b ==> !Share(c, d) && !Share(d, c)
  {
    forall c, d | c in a && d in b ensures !Share(c, d) && !Share(d, c) {
      assert c.kalshi in KalshiIds(a) && c.poly in PolyIds(a);
    }
  }

  /** Layers chained through the claim sets stay one to one across all of them. */
  lemma LayersStayOneToOne(first: seq<Candidate>, second: seq<Candidate>, ks: set<string>, ps: set<string>,
                           a: seq<Candidate>, b: seq<Candidate>)
    requires a == Deduped(first, ks, ps) && b == Deduped(second, ks + KalshiIds(a), ps + PolyIds(a))
    ensures forall c :: c in a + b ==> c.kalshi !in ks && c.poly !in ps
    ensures forall c, d :: c in a + b && d in a + b && c != d ==> !Share(c, d)
  {
    LayerIsOneToOne(first, ks, ps);
    LayerIsOneToOne(second, ks + KalshiIds(a), ps + PolyIds(a));
    SharesNone(a, b, ks, ps);
  }

  lemma LowerPairIsChosen(a: Candidate, b: Candidate, c: Candidate, all: multiset<Candidate>)
    requires all == multiset{a, b, c} && SameRank(a, b) && Outranks(a, c) && Outranks(b, c)
    requires a.kalshi == b.kalshi == c.kalshi && a.poly != b.poly && b.poly != c.poly && a.poly != c.poly
    ensures IsAssignment(all, {c}, {}, {})
  {
    var kept: set<Candidate> := {c};
    forall d ensures d in kept <==> Chosen(d, all, kept, {}, {}) {
      assert SameRank(b, a);
      assert Free(a, kept, {}, {}) && Free(b, kept, {}, {}) && Free(c, kept, {}, {});
      assert all[d] > 0 ==> d == a || d == b || d == c;
    }
  }

  /** A market two pairs contest at one rank is refused to both, yet a lower-ranked pair may still take it. */
  lemma ContestedMarketMayGoLower(a: Candidate, b: Candidate, c: Candidate)
    requires SameRank(a, b) && Outranks(a, c) && Outranks(b, c)
    requires a.kalshi == b.kalshi == c.kalshi && a.poly != b.poly && b.poly != c.poly && a.poly != c.poly
    ensures Elements(Deduped([a, b, c], {}, {})) == {c}
  {
    var kept: set<Candidate> := {c};
    var all := multiset([a, b, c]);
    assert all == multiset{a, b, c};
    LowerPairIsChosen(a, b, c, all);
    DedupedIsAssignment([a, b, c], {}, {});
    forall d ensures d in Elements(Deduped([a, b, c], {}, {})) <==> d in kept {
      AssignmentsAgree(all, Elements(Deduped([a, b, c], {}, {})), kept, {}, {}, d);
    }
  }
}
