/** The spread and total matcher (pmarb/matching/lines.py). Starts are in microseconds, lines in points. */
module Lines {
  import opened Common
  import Sorting

  datatype Kind = SpreadKind | TotalKind

  datatype LineEvent = LineEvent(league: string, start: Option<int>, first: string, second: string,
                                 kind: Kind, line: real, yesTeam: string, yesFavored: bool)

  datatype Listing = Listing(id: string, line: Option<LineEvent>)

  /** How well two competitor names agree; a pair not in the table scores zero. */
  datatype Oracle = Oracle(scores: map<(string, string), real>)

  function Likeness(o: Oracle, a: string, b: string): real {
    if (a, b) in o.scores then o.scores[(a, b)] else 0.0
  }

  const MIN_PAIR_SCORE: real := 0.5
  const MIN_SIDE_SCORE: real := 0.6
  const HOUR: int := 3600000000

  /** Which Kalshi name each Poly name stands for, and how well the two sides agree. */
  datatype Alignment = Alignment(mapping: map<string, string>, one: real, two: real)

  function Lesser(x: real, y: real): real {
    if x <= y then x else y
  }

  /** The better of the straight and the swapped assignment; a tie is refused. */
  function Align(o: Oracle, k: LineEvent, p: LineEvent): Option<Alignment> {
    var straight := Likeness(o, k.first, p.first) * Likeness(o, k.second, p.second);
    var swapped := Likeness(o, k.first, p.second) * Likeness(o, k.second, p.first);
    if straight == swapped then None
    else
      var a := if straight > swapped
               then Alignment(map[p.first := k.first, p.second := k.second], Likeness(o, k.first, p.first),
                              Likeness(o, k.second, p.second))
               else Alignment(map[p.second := k.first, p.first := k.second], Likeness(o, k.first, p.second),
                              Likeness(o, k.second, p.first));
      if (if straight > swapped then straight else swapped) < MIN_PAIR_SCORE || Lesser(a.one, a.two) < MIN_SIDE_SCORE
      then None else Some(a)
  }

  /** Is Poly's YES the complement of Kalshi's? None when the two are neither equal nor complementary. */
  function Orientation(o: Oracle, k: LineEvent, p: LineEvent, mapping: map<string, string>): Option<bool> {
    if k.kind == TotalKind then Some(false)
    else if p.yesTeam !in mapping then None
    else
      var sameTeam := Likeness(o, mapping[p.yesTeam], k.yesTeam) >= MIN_SIDE_SCORE;
      if p.yesFavored then (if sameTeam then Some(false) else None)
      else if sameTeam then None else Some(true)
  }

  datatype Link = Link(score: real, apart: int, poly: Listing, inverted: bool)

  function Apart(x: int, y: int): int {
    if x <= y then y - x else x - y
  }

  predicate SameContract(k: LineEvent, p: LineEvent) {
    k.league == p.league && k.kind == p.kind && k.line == p.line
  }

  /** How the Poly listing could pair with this Kalshi line, if at all. */
  function LinkOf(o: Oracle, k: LineEvent, poly: Listing, tolerance: int): Option<Link>
    requires poly.line.Some?
  {
    var p := poly.line.value;
    if k.start.None? || p.start.None? || Apart(k.start.value, p.start.value) > tolerance then None
    else
      var a := Align(o, k, p);
      if a.None? then None
      else
        var inverted := Orientation(o, k, p, a.value.mapping);
        if inverted.None? then None
        else Some(Link(Lesser(a.value.one, a.value.two), Apart(k.start.value, p.start.value), poly, inverted.value))
  }

  /** Listings with a line on this exact contract, in order. */
  function Block(polys: seq<Listing>, k: LineEvent): (b: seq<Listing>)
    ensures forall p :: p in b ==> p in polys && p.line.Some? && SameContract(k, p.line.value)
  {
    if polys == [] then []
    else
      var rest := Block(polys[..|polys| - 1], k);
      var p := polys[|polys| - 1];
      if p.line.Some? && SameContract(k, p.line.value) then rest + [p] else rest
  }

  function Links(o: Oracle, k: LineEvent, block: seq<Listing>, tolerance: int): seq<Link>
    requires forall p :: p in block ==> p.line.Some?
  {
    if block == [] then []
    else
      var rest := Links(o, k, block[..|block| - 1], tolerance);
      var l := LinkOf(o, k, block[|block| - 1], tolerance);
      if l.Some? then rest + [l.value] else rest
  }

  /** Best alignment first, closest start next. */
  predicate LinkBefore(x: Link, y: Link) {
    x.score > y.score || (x.score == y.score && x.apart <= y.apart)
  }

  function SortLinks(s: seq<Link>): seq<Link> {
    Sorting.Sort(s, (x: Link, y: Link) => LinkBefore(x, y))
  }

  datatype Claim = Claim(score: real, apart: int, kalshi: Listing, poly: Listing, inverted: bool)

  predicate ClaimBefore(x: Claim, y: Claim) {
    x.score > y.score || (x.score == y.score && x.apart <= y.apart)
  }

  function SortClaims(s: seq<Claim>): seq<Claim> {
    Sorting.Sort(s, (x: Claim, y: Claim) => ClaimBefore(x, y))
  }

  function ByScore(s: seq<Claim>): seq<Claim> {
    Sorting.Sort(s, (x: Claim, y: Claim) => x.score >= y.score)
  }

  /** Two links nothing tells apart: the same score and starts within an hour of each other's distance. */
  predicate Indistinct(x: Link, y: Link) {
    x.score == y.score && Apart(x.apart, y.apart) <= HOUR
  }

  function ClaimOf(km: Listing, links: seq<Link>): Option<Claim> {
    var s := SortLinks(links);
    if s == [] || (|s| > 1 && Indistinct(s[1], s[0])) then None
    else Some(Claim(s[0].score, s[0].apart, km, s[0].poly, s[0].inverted))
  }

  function Claims(o: Oracle, kalshis: seq<Listing>, polys: seq<Listing>, tolerance: int): seq<Claim> {
    if kalshis == [] then []
    else
      var rest := Claims(o, kalshis[..|kalshis| - 1], polys, tolerance);
      var km := kalshis[|kalshis| - 1];
      if km.line.None? then rest
      else
        var c := ClaimOf(km, Links(o, km.line.value, Block(polys, km.line.value), tolerance));
        if c.Some? then rest + [c.value] else rest
  }

  /** The claims kept, best first, each taking both its markets. */
  function Resolve(claims: seq<Claim>, kalshis: set<string>, polys: set<string>): seq<Claim> {
    if claims == [] then []
    else
      var c := claims[0];
      if c.kalshi.id in kalshis || c.poly.id in polys then Resolve(claims[1..], kalshis, polys)
      else [c] + Resolve(claims[1..], kalshis + {c.kalshi.id}, polys + {c.poly.id})
  }

  function Matched(o: Oracle, kalshis: seq<Listing>, polys: seq<Listing>, tolerance: int): seq<Claim> {
    ByScore(Resolve(SortClaims(Claims(o, kalshis, polys, tolerance)), {}, {}))
  }

  type Key = (string, Kind, real)

  function KeyOf(l: LineEvent): Key {
    (l.league, l.kind, l.line)
  }

  function BlockAt(blocks: map<Key, seq<Listing>>, key: Key): seq<Listing> {
    if key in blocks then blocks[key] else []
  }

  /** Blocks every Poly line market by its exact contract. */
  method BuildBlocks(polys: seq<Listing>) returns (blocks: map<Key, seq<Listing>>)
    ensures forall k: LineEvent :: BlockAt(blocks, KeyOf(k)) == Block(polys, k)
  {
    blocks := map[];
    for i := 0 to |polys|
      invariant forall k: LineEvent :: BlockAt(blocks, KeyOf(k)) == Block(polys[..i], k)
    {
      var pm := polys[i];
      assert polys[..i + 1][..i] == polys[..i];
      if pm.line.Some? {
        var key := KeyOf(pm.line.value);
        var before := blocks;
        blocks := blocks[key := BlockAt(blocks, key) + [pm]];
        forall k: LineEvent ensures BlockAt(blocks, KeyOf(k)) == Block(polys[..i + 1], k) {
          assert BlockAt(before, KeyOf(k)) == Block(polys[..i], k);
          assert SameContract(k, pm.line.value) <==> KeyOf(k) == key;
        }
      }
    }
    assert polys[..|polys|] == polys;
  }

  method LinksInBlock(o: Oracle, k: LineEvent, block: seq<Listing>, tolerance: int) returns (links: seq<Link>)
    requires forall p :: p in block ==> p.line.Some?
    ensures links == Links(o, k, block, tolerance)
  {
    links := [];
    for i := 0 to |block|
      invariant links == Links(o, k, block[..i], tolerance)
    {
      assert block[..i + 1][..i] == block[..i];
      var p := block[i].line.value;
      if k.start.None? || p.start.None? || Apart(k.start.value, p.start.value) > tolerance { continue; }
      var a := Align(o, k, p);
      if a.None? { continue; }
      var inverted := Orientation(o, k, p, a.value.mapping);
      if inverted.None? { continue; }
      links := links
          + [Link(Lesser(a.value.one, a.value.two), Apart(k.start.value, p.start.value), block[i], inverted.value)];
    }
    assert block[..|block|] == block;
  }

  method CollectClaims(o: Oracle, kalshis: seq<Listing>, polys: seq<Listing>, tolerance: int)
    returns (claims: seq<Claim>)
    ensures claims == Claims(o, kalshis, polys, tolerance)
  {
    var blocks := BuildBlocks(polys);
    claims := [];
    for i := 0 to |kalshis|
      invariant claims == Claims(o, kalshis[..i], polys, tolerance)
    {
      assert kalshis[..i + 1][..i] == kalshis[..i];
      var km := kalshis[i];
      if km.line.None? { continue; }
      assert BlockAt(blocks, KeyOf(km.line.value)) == Block(polys, km.line.value);
      var links := LinksInBlock(o, km.line.value, BlockAt(blocks, KeyOf(km.line.value)), tolerance);
      var scored := SortLinks(links);
      if scored == [] { continue; }
      if |scored| > 1 && Indistinct(scored[1], scored[0]) { continue; }
      claims := claims + [Claim(scored[0].score, scored[0].apart, km, scored[0].poly, scored[0].inverted)];
    }
    assert kalshis[..|kalshis|] == kalshis;
  }

  /** One strict 1:1 pairing across the whole layer, best claim first. */
  method Match(o: Oracle, kalshis: seq<Listing>, polys: seq<Listing>, tolerance: int) returns (kept: seq<Claim>)
    ensures kept == Matched(o, kalshis, polys, tolerance)
  {
    var claims := CollectClaims(o, kalshis, polys, tolerance);
    claims := SortClaims(claims);
    var takenK, takenP: set<string> := {}, {};
    kept := [];
    assert claims[0..] == claims;
    for i := 0 to |claims|
      invariant Resolve(claims, {}, {}) == kept + Resolve(claims[i..], takenK, takenP)
    {
      var c := claims[i];
      assert claims[i..][1..] == claims[i + 1..];
      if c.kalshi.id in takenK || c.poly.id in takenP { continue; }
      takenK, takenP := takenK + {c.kalshi.id}, takenP + {c.poly.id};
      kept := kept + [c];
    }
    assert kept == Resolve(claims, {}, {});
    kept := ByScore(kept);
  }
}
