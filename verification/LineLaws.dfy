/** What a line pair is worth: the two legs pay exactly one dollar between them, whatever the final score. */
module LinePayoff {
  import opened Common
  import opened Lines

  datatype Side = Home | Away

  datatype FinalScore = FinalScore(home: int, away: int)

  function Margin(s: FinalScore, t: Side): int {
    if t == Home then s.home - s.away else s.away - s.home
  }

  /** Which side each competitor name stands for, on both venues together. */
  type Names = map<string, Side>

  /** Kalshi writes "over N points" and "X wins by over N". */
  predicate KalshiYesWins(k: LineEvent, names: Names, s: FinalScore)
    requires k.kind == SpreadKind ==> k.yesTeam in names
  {
    if k.kind == TotalKind then (s.home + s.away) as real > k.line
    else Margin(s, names[k.yesTeam]) as real > k.line
  }

  /** Poly's long side is Over, or its team laying (-N) or receiving (+N) the points. */
  predicate PolyYesWins(p: LineEvent, names: Names, s: FinalScore)
    requires p.kind == SpreadKind ==> p.yesTeam in names
  {
    if p.kind == TotalKind then (s.home + s.away) as real > p.line
    else if p.yesFavored then Margin(s, names[p.yesTeam]) as real > p.line
    else Margin(s, names[p.yesTeam]) as real > -p.line
  }

  /** What the oriented Poly leg's YES means: its own side, or the other one of the same book. */
  predicate OrientedYesWins(p: LineEvent, inverted: bool, names: Names, s: FinalScore)
    requires p.kind == SpreadKind ==> p.yesTeam in names
  {
    PolyYesWins(p, names, s) != inverted
  }

  /** The names on both listings are of the two sides of one game, and likeness tells them apart. */
  ghost predicate NamesAgree(o: Oracle, k: LineEvent, p: LineEvent, names: Names) {
    && k.first in names && k.second in names && names[k.first] != names[k.second]
    && p.first in names && p.second in names && names[p.first] != names[p.second]
    && (k.kind == SpreadKind ==> k.yesTeam in names) && (p.kind == SpreadKind ==> p.yesTeam in {p.first, p.second})
    && (forall a, b :: a in {k.first, k.second} && b in {p.first, p.second, k.yesTeam} && b in names ==>
          (Likeness(o, a, b) >= MIN_SIDE_SCORE <==> names[a] == names[b]))
  }

  lemma AlignmentKeepsSides(o: Oracle, k: LineEvent, p: LineEvent, names: Names, b: string)
    requires NamesAgree(o, k, p, names) && Align(o, k, p).Some? && b in {p.first, p.second}
    ensures var m := Align(o, k, p).value.mapping;
            b in m && m[b] in {k.first, k.second} && names[m[b]] == names[b]
  {
    var a := Align(o, k, p).value;
    assert a.one >= MIN_SIDE_SCORE && a.two >= MIN_SIDE_SCORE;
    assert p.first != p.second;
  }

  /** No final score lands on the line. */
  predicate HalfPoint(line: real) {
    line == line.Floor as real + 0.5
  }

  /** Direct pairs name one event; inverted pairs name complements exactly when no score can land on the line. */
  lemma OrientationMeans(o: Oracle, k: LineEvent, p: LineEvent, names: Names, inverted: bool)
    requires NamesAgree(o, k, p, names) && SameContract(k, p) && Align(o, k, p).Some?
    requires Orientation(o, k, p, Align(o, k, p).value.mapping) == Some(inverted)
    ensures !inverted ==> forall s :: OrientedYesWins(p, inverted, names, s) <==> KalshiYesWins(k, names, s)
    ensures inverted ==> forall s ::
              (OrientedYesWins(p, inverted, names, s) <==> KalshiYesWins(k, names, s))
                  <==> Margin(s, names[k.yesTeam]) as real != k.line
  {
    if k.kind == SpreadKind {
      var m := Align(o, k, p).value.mapping;
      AlignmentKeepsSides(o, k, p, names, p.yesTeam);
      assert names[m[p.yesTeam]] == names[p.yesTeam];
      assert inverted <==> names[p.yesTeam] != names[k.yesTeam];
    }
  }

  ghost predicate AlwaysHedged(k: LineEvent, p: LineEvent, inverted: bool, names: Names)
    requires k.kind == SpreadKind ==> k.yesTeam in names
    requires p.kind == SpreadKind ==> p.yesTeam in names
  {
    forall s: FinalScore :: OrientedYesWins(p, inverted, names, s) <==> KalshiYesWins(k, names, s)
  }

  lemma WholeLineIsReached(t: Side, line: real)
    ensures !(line == line.Floor as real) <==> forall s: FinalScore :: Margin(s, t) as real != line
  {
    if line == line.Floor as real {
      var s := if t == Home then FinalScore(line.Floor, 0) else FinalScore(0, line.Floor);
      assert Margin(s, t) as real == line;
    }
  }

  /**
   * The payoff identity holds at every integer score exactly when the pair is direct or its line is not a whole number.
   */
  lemma PayoffIdentity(o: Oracle, k: LineEvent, p: LineEvent, names: Names, inverted: bool)
    requires NamesAgree(o, k, p, names) && SameContract(k, p) && Align(o, k, p).Some?
    requires Orientation(o, k, p, Align(o, k, p).value.mapping) == Some(inverted)
    ensures AlwaysHedged(k, p, inverted, names) <==> !inverted || k.line != k.line.Floor as real
  {
    OrientationMeans(o, k, p, names, inverted);
    if inverted {
      WholeLineIsReached(names[k.yesTeam], k.line);
      if k.line == k.line.Floor as real {
        var s :| Margin(s, names[k.yesTeam]) as real == k.line;
        assert !(OrientedYesWins(p, inverted, names, s) <==> KalshiYesWins(k, names, s));
      }
    }
  }

  lemma HalfPointsAlwaysHedge(o: Oracle, k: LineEvent, p: LineEvent, names: Names, inverted: bool)
    requires NamesAgree(o, k, p, names) && SameContract(k, p) && Align(o, k, p).Some? && HalfPoint(k.line)
    requires Orientation(o, k, p, Align(o, k, p).value.mapping) == Some(inverted)
    ensures AlwaysHedged(k, p, inverted, names)
  {
    PayoffIdentity(o, k, p, names, inverted);
    assert k.line != k.line.Floor as real;
  }

  lemma MapOrder(a: string, x: string, b: string, y: string)
    requires a != b
    ensures map[a := x, b := y] == map[b := y, a := x]
  {
  }

  /** The order in which either venue lists the competitors does not matter. */
  lemma KalshiOrderIsIrrelevant(o: Oracle, k: LineEvent, p: LineEvent)
    ensures var a, b := Align(o, k, p), Align(o, k.(first := k.second, second := k.first), p);
            a.Some? == b.Some? && (a.Some? ==> a.value.mapping == b.value.mapping)
  {
    Commutes(Likeness(o, k.first, p.first), Likeness(o, k.second, p.second));
    Commutes(Likeness(o, k.first, p.second), Likeness(o, k.second, p.first));
    if p.first != p.second {
      MapOrder(p.first, k.first, p.second, k.second);
      MapOrder(p.second, k.first, p.first, k.second);
    }
  }

  lemma PolyOrderIsIrrelevant(o: Oracle, k: LineEvent, p: LineEvent)
    ensures var a, b := Align(o, k, p), Align(o, k, p.(first := p.second, second := p.first));
            a.Some? == b.Some? && (a.Some? ==> a.value.mapping == b.value.mapping)
  {
  }

  lemma Commutes(x: real, y: real)
    ensures x * y == y * x
  {
  }
}

/** What the layer's 1:1 pass keeps. */
module LineLaws {
  import opened Common
  import opened Lines
  import Sorting

  /** Claim `c` pairs two listed markets on one contract, aligned, oriented and close enough in time. */
  ghost predicate Linked(o: Oracle, c: Claim, kalshis: seq<Listing>, polys: seq<Listing>, tolerance: int) {
    && c.kalshi in kalshis && c.poly in polys && c.kalshi.line.Some? && c.poly.line.Some?
    && SameContract(c.kalshi.line.value, c.poly.line.value)
    && LinkOf(o, c.kalshi.line.value, c.poly, tolerance) == Some(Link(c.score, c.apart, c.poly, c.inverted))
  }

  lemma {:induction false} LinksAreLinks(o: Oracle, k: LineEvent, block: seq<Listing>, tolerance: int, l: Link)
    requires (forall p :: p in block ==> p.line.Some?) && l in Links(o, k, block, tolerance)
    ensures l.poly in block && LinkOf(o, k, l.poly, tolerance) == Some(l)
  {
    var front := block[..|block| - 1];
    if l in Links(o, k, front, tolerance) { LinksAreLinks(o, k, front, tolerance, l); }
  }

  lemma ClaimIsLinked(o: Oracle, kalshis: seq<Listing>, polys: seq<Listing>, tolerance: int, km: Listing)
    requires km in kalshis && km.line.Some?
    ensures var c := ClaimOf(km, Links(o, km.line.value, Block(polys, km.line.value), tolerance));
            c.Some? ==> Linked(o, c.value, kalshis, polys, tolerance)
  {
    var links := Links(o, km.line.value, Block(polys, km.line.value), tolerance);
    Sorting.SortMembers(links, (x: Link, y: Link) => LinkBefore(x, y));
    var s := SortLinks(links);
    if s != [] {
      assert s[0] in links;
      LinksAreLinks(o, km.line.value, Block(polys, km.line.value), tolerance, s[0]);
    }
  }

  lemma {:induction false} ClaimsAreLinked(o: Oracle, kalshis: seq<Listing>, polys: seq<Listing>, tolerance: int,
                                           c: Claim)
    requires c in Claims(o, kalshis, polys, tolerance)
    ensures Linked(o, c, kalshis, polys, tolerance)
  {
    var front, km := kalshis[..|kalshis| - 1], kalshis[|kalshis| - 1];
    if c in Claims(o, front, polys, tolerance) {
      ClaimsAreLinked(o, front, polys, tolerance, c);
    } else {
      ClaimIsLinked(o, kalshis, polys, tolerance, km);
    }
  }

  lemma {:induction false} ResolveIsOneToOne(claims: seq<Claim>, kalshis: set<string>, polys: set<string>)
    ensures var kept := Resolve(claims, kalshis, polys);
            && (forall c :: c in kept ==> c in claims && c.kalshi.id !in kalshis && c.poly.id !in polys)
            && (forall i, j :: 0 <= i < j < |kept| ==>
                kept[i].kalshi.id != kept[j].kalshi.id && kept[i].poly.id != kept[j].poly.id)
  {
    if claims != [] {
      var c := claims[0];
      if c.kalshi.id in kalshis || c.poly.id in polys {
        ResolveIsOneToOne(claims[1..], kalshis, polys);
      } else {
        ResolveIsOneToOne(claims[1..], kalshis + {c.kalshi.id}, polys + {c.poly.id});
      }
    }
  }

  predicate Shares(x: Claim, y: Claim) {
    x.kalshi.id == y.kalshi.id || x.poly.id == y.poly.id
  }

  /** A claim is passed over only for a market already taken, at the start or by a claim before it. */
  lemma {:induction false} PassedOverMeans(claims: seq<Claim>, kalshis: set<string>, polys: set<string>, i: nat)
    requires i < |claims|
    ensures || claims[i] in Resolve(claims, kalshis, polys)
            || claims[i].kalshi.id in kalshis || claims[i].poly.id in polys
            || exists j :: 0 <= j < i && claims[j] in Resolve(claims, kalshis, polys) && Shares(claims[j], claims[i])
  {
    var c, rest := claims[0], claims[1..];
    var taken := c.kalshi.id in kalshis || c.poly.id in polys;
    var ks, ps := if taken then kalshis else kalshis + {c.kalshi.id}, if taken then polys else polys + {c.poly.id};
    var later := Resolve(rest, ks, ps);
    assert Resolve(claims, kalshis, polys) == if taken then later else [c] + later;
    assert !taken ==> claims[0] in Resolve(claims, kalshis, polys);
    assert forall x :: x in later ==> x in Resolve(claims, kalshis, polys);
    if i > 0 {
      PassedOverMeans(rest, ks, ps, i - 1);
      assert rest[i - 1] == claims[i];
      assert forall j :: 0 <= j < i - 1 ==> rest[j] == claims[j + 1];
      if rest[i - 1] !in later && claims[i].kalshi.id !in ks && claims[i].poly.id !in ps {
        var j :| 0 <= j < i - 1 && rest[j] in later && Shares(rest[j], rest[i - 1]);
        assert claims[j + 1] in Resolve(claims, kalshis, polys) && Shares(claims[j + 1], claims[i]);
      } else {
        assert claims[i] !in later && claims[i].kalshi.id !in kalshis && claims[i].poly.id !in polys ==>
               Shares(claims[0], claims[i]);
      }
    }
  }

  lemma KeptAreResolved(o: Oracle, kalshis: seq<Listing>, polys: seq<Listing>, tolerance: int, c: Claim)
    ensures c in Matched(o, kalshis, polys, tolerance)
            <==> c in Resolve(SortClaims(Claims(o, kalshis, polys, tolerance)), {}, {})
    ensures c in SortClaims(Claims(o, kalshis, polys, tolerance)) <==> c in Claims(o, kalshis, polys, tolerance)
  {
    Sorting.SortMembers(Resolve(SortClaims(Claims(o, kalshis, polys, tolerance)), {}, {}),
                        (x: Claim, y: Claim) => x.score >= y.score);
    Sorting.SortMembers(Claims(o, kalshis, polys, tolerance), (x: Claim, y: Claim) => ClaimBefore(x, y));
  }

  /** Every pair emitted joins two listed markets on one contract, aligned, oriented and close enough in time. */
  lemma KeptIsLinked(o: Oracle, kalshis: seq<Listing>, polys: seq<Listing>, tolerance: int, c: Claim)
    requires c in Matched(o, kalshis, polys, tolerance)
    ensures Linked(o, c, kalshis, polys, tolerance)
  {
    KeptAreResolved(o, kalshis, polys, tolerance, c);
    ResolveIsOneToOne(SortClaims(Claims(o, kalshis, polys, tolerance)), {}, {});
    ClaimsAreLinked(o, kalshis, polys, tolerance, c);
  }

  /** No market is used twice. */
  lemma KeptAreOneToOne(o: Oracle, kalshis: seq<Listing>, polys: seq<Listing>, tolerance: int, x: Claim, y: Claim)
    requires x in Matched(o, kalshis, polys, tolerance) && y in Matched(o, kalshis, polys, tolerance) && x != y
    ensures !Shares(x, y)
  {
    KeptAreResolved(o, kalshis, polys, tolerance, x);
    KeptAreResolved(o, kalshis, polys, tolerance, y);
    ResolveIsOneToOne(SortClaims(Claims(o, kalshis, polys, tolerance)), {}, {});
  }

  /** A claim is lost only to a kept one that shares a market and is at least as good. */
  lemma LostToABetterClaim(o: Oracle, kalshis: seq<Listing>, polys: seq<Listing>, tolerance: int, c: Claim)
    requires c in Claims(o, kalshis, polys, tolerance) && c !in Matched(o, kalshis, polys, tolerance)
    ensures exists w :: w in Matched(o, kalshis, polys, tolerance) && Shares(w, c) && ClaimBefore(w, c)
  {
    var claims := Claims(o, kalshis, polys, tolerance);
    KeptAreResolved(o, kalshis, polys, tolerance, c);
    Sorting.SortSorted(claims, (x: Claim, y: Claim) => ClaimBefore(x, y));
    var w := BestClaimWins(SortClaims(claims), Resolve(SortClaims(claims), {}, {}), c);
    KeptAreResolved(o, kalshis, polys, tolerance, w);
  }

  lemma BestClaimWins(sorted: seq<Claim>, resolved: seq<Claim>, c: Claim) returns (w: Claim)
    requires Sorting.Sorted(sorted, (x: Claim, y: Claim) => ClaimBefore(x, y)) && resolved == Resolve(sorted, {}, {})
    requires c in sorted && c !in resolved
    ensures w in resolved && Shares(w, c) && ClaimBefore(w, c)
  {
    var i :| 0 <= i < |sorted| && sorted[i] == c;
    PassedOverMeans(sorted, {}, {}, i);
    var j :| 0 <= j < i && sorted[j] in resolved && Shares(sorted[j], sorted[i]);
    w := sorted[j];
  }

  /** A Kalshi market claims its best link: no other has a better score, nor the same score and a closer start. */
  lemma ClaimIsBest(km: Listing, links: seq<Link>)
    ensures var c := ClaimOf(km, links);
            c.Some? ==> var l := Link(c.value.score, c.value.apart, c.value.poly, c.value.inverted);
                        c.value.kalshi == km && l in links && forall z :: z in links ==> LinkBefore(l, z)
  {
    var le := (a: Link, b: Link) => LinkBefore(a, b);
    var s := SortLinks(links);
    Sorting.SortSorted(links, le);
    Sorting.SortMembers(links, le);
    forall z | z in links && s != [] ensures LinkBefore(s[0], z) {
      assert z in s;
      var i :| 0 <= i < |s| && s[i] == z;
      assert i > 0 ==> le(s[0], s[i]);
    }
    assert s != [] ==> s[0] in links by {
      if s != [] { assert s[0] in s; }
    }
  }

  /** Two Poly listings that nothing tells apart at the top: the Kalshi market makes no claim at all. */
  lemma TieIsRefused(km: Listing, links: seq<Link>, x: Link, y: Link)
    requires x in links && y in links && x != y && Indistinct(x, y)
    requires forall z :: z in links ==> LinkBefore(x, z) && (z != x ==> LinkBefore(y, z))
    ensures ClaimOf(km, links).None?
  {
    var le := (a: Link, b: Link) => LinkBefore(a, b);
    var s := SortLinks(links);
    Sorting.SortSorted(links, le);
    Sorting.SortMembers(links, le);
    assert x in s && y in s;
    var i :| 0 <= i < |s| && s[i] == x;
    var j :| 0 <= j < |s| && s[j] == y;
    assert i != j && |s| > 1;
    assert s[0] in links && s[1] in links;
    TopTwoTie(s, x, y, i, j);
  }

  lemma TopTwoTie(s: seq<Link>, x: Link, y: Link, i: nat, j: nat)
    requires i < |s| && j < |s| && i != j && s[i] == x && s[j] == y && Indistinct(x, y)
    requires Sorting.Sorted(s, (a: Link, b: Link) => LinkBefore(a, b))
    requires forall z :: z in s ==> LinkBefore(x, z) && (z != x ==> LinkBefore(y, z))
    ensures |s| > 1 && Indistinct(s[1], s[0])
  {
    var le := (a: Link, b: Link) => LinkBefore(a, b);
    assert i > 0 ==> le(s[0], s[i]);
    assert j > 0 ==> le(s[0], s[j]);
    assert i > 1 ==> le(s[1], s[i]);
    assert j > 1 ==> le(s[1], s[j]);
    assert LinkBefore(x, s[0]) && LinkBefore(x, s[1]) && LinkBefore(x, y);
  }
}
