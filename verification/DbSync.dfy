/** The slow-changing tables, upserted and retracted in place (pmarb/db/sync.py, pmarb/refresh.py:277-294). */
module DbSync {
  import opened Common
  import opened Samples
  import opened MatchSets

  /** A market as fetched; the structured records are kept as text. */
  datatype Listing = Listing(id: string, venue: string, question: string, resolutionDate: Option<int>, category: string,
                             event: Option<string>, futures: Option<string>)

  datatype StructuredId = EventId(record: string) | FuturesId(record: string)

  /** What a listing says of its market; `venue` is written once, the rest is refreshed. */
  datatype Details = Details(question: string, resolutionDate: Option<int>, category: Option<string>,
                             structured: Option<StructuredId>)

  datatype MarketRow = MarketRow(venue: string, details: Details, firstSeen: int, lastSeen: int)

  datatype Verdict = Verdict(resolutionMatch: Option<bool>, cohort: Option<string>, standard: Option<string>,
                             notes: Option<string>, reviewer: Option<string>)

  datatype Review = Review(key: PairKey, verdict: Verdict)

  datatype Produced = Produced(key: PairKey, matchMethod: string, score: int, dateDelta: Option<int>,
                               hazards: seq<string>)

  datatype Retraction = Retraction(at: int, reason: Option<string>)

  datatype PairRow = PairRow(id: int, matchMethod: string, score: int, dateDelta: Option<int>, verdict: Verdict,
                             hazards: seq<string>, firstSeen: int, retracted: Option<Retraction>)

  const NO_VERDICT: Verdict := Verdict(None, None, None, None, None)

  /** An empty text is stored as none. */
  function OrNone(s: string): Option<string> {
    if s == "" then None else Some(s)
  }

  /** An event wins over futures. */
  function Structured(m: Listing): Option<StructuredId> {
    match (m.event, m.futures)
    case (Some(e), _) => Some(EventId(e))
    case (None, Some(f)) => Some(FuturesId(f))
    case (None, None) => None
  }

  function DetailsOf(m: Listing): Details {
    Details(m.question, m.resolutionDate, OrNone(m.category), Structured(m))
  }

  /**
   * The last review of the pair, verbatim but for empty notes, an
   * explicit withdrawal included; no review is no verdict.
   */
  function VerdictOn(reviews: seq<Review>, k: PairKey): Verdict {
    if reviews == [] then NO_VERDICT
    else
      var last := reviews[|reviews| - 1];
      if last.key == k
      then last.verdict.(notes := if last.verdict.notes == Some("") then None else last.verdict.notes)
      else VerdictOn(reviews[..|reviews| - 1], k)
  }

  function NewRow(m: Listing, was: map<string, MarketRow>, now: int): MarketRow {
    if m.id in was then MarketRow(was[m.id].venue, DetailsOf(m), was[m.id].firstSeen, now)
    else MarketRow(m.venue, DetailsOf(m), now, now)
  }

  predicate Usable(p: Produced, known: set<string>) {
    p.key.kalshi in known && p.key.poly in known
  }

  function UsableOf(matches: seq<Produced>, known: set<string>): (r: seq<Produced>)
    ensures forall p :: p in r <==> p in matches && Usable(p, known)
    ensures |r| <= |matches|
  {
    if matches == [] then []
    else
      var front, last := matches[..|matches| - 1], matches[|matches| - 1];
      assert matches == front + [last];
      UsableOf(front, known) + if Usable(last, known) then [last] else []
  }

  function KeysOf(matches: seq<Produced>): set<PairKey> {
    set p | p in matches :: p.key
  }

  /** The last produced candidate of the pair: later rows overwrite earlier ones. */
  function LastOf(matches: seq<Produced>, k: PairKey): Option<Produced> {
    if matches == [] then None
    else if matches[|matches| - 1].key == k then Some(matches[|matches| - 1])
    else LastOf(matches[..|matches| - 1], k)
  }

  function LastListing(markets: seq<Listing>, id: string): Option<Listing> {
    if markets == [] then None
    else if markets[|markets| - 1].id == id then Some(markets[|markets| - 1])
    else LastListing(markets[..|markets| - 1], id)
  }

  /** Two listings of a new market: the first one's venue is the one inserted. */
  function FirstListing(markets: seq<Listing>, id: string): Listing
    requires LastListing(markets, id).Some?
  {
    var front, last := markets[..|markets| - 1], markets[|markets| - 1];
    if LastListing(front, id).Some? then FirstListing(front, id) else last
  }

  lemma {:induction false} LastListed(markets: seq<Listing>, m: Listing)
    requires m in markets
    ensures LastListing(markets, m.id).Some?
  {
    var front, last := markets[..|markets| - 1], markets[|markets| - 1];
    assert markets == front + [last];
    if last.id != m.id { LastListed(front, m); }
  }

  /** The market rows after these listings: each row shows its last listing, an absent market keeps its row. */
  ghost predicate Listed(was: map<string, MarketRow>, rows: map<string, MarketRow>, markets: seq<Listing>, now: int) {
    && (forall id :: id in rows <==> id in was || LastListing(markets, id).Some?)
    && forall id :: id in rows ==>
         match LastListing(markets, id)
         case None => rows[id] == was[id]
         case Some(l) =>
           && rows[id].details == DetailsOf(l) && rows[id].lastSeen == now
           && rows[id].firstSeen == (if id in was then was[id].firstSeen else now)
           && rows[id].venue == (if id in was then was[id].venue else FirstListing(markets, id).venue)
  }

  lemma ListedNext(was: map<string, MarketRow>, rows: map<string, MarketRow>, markets: seq<Listing>, m: Listing,
                   now: int)
    requires Listed(was, rows, markets, now)
    ensures Listed(was, rows[m.id := NewRow(m, rows, now)], markets + [m], now)
  {
    assert (markets + [m])[..|markets|] == markets;
  }

  /**
   * The pair rows after these candidates: usable again, showing the
   * last candidate and the last review, the rest untouched.
   */
  ghost predicate Rewritten(was: map<PairKey, PairRow>, rows: map<PairKey, PairRow>, usable: seq<Produced>,
                            reviews: seq<Review>, now: int)
  {
    && (forall k :: k in rows <==> k in was || LastOf(usable, k).Some?)
    && forall k :: k in rows ==>
         match LastOf(usable, k)
         case None => rows[k] == was[k]
         case Some(p) => Shows(rows[k], p, reviews) && rows[k].firstSeen == (if k in was then was[k].firstSeen else now)
                         && (k in was ==> rows[k].id == was[k].id)
  }

  predicate Shows(r: PairRow, p: Produced, reviews: seq<Review>) {
    && r.matchMethod == p.matchMethod && r.score == p.score && r.dateDelta == p.dateDelta && r.hazards == p.hazards
    && r.verdict == VerdictOn(reviews, p.key) && r.retracted == None
  }

  lemma RewrittenNext(was: map<PairKey, PairRow>, rows: map<PairKey, PairRow>, usable: seq<Produced>,
                      reviews: seq<Review>, now: int, p: Produced, r: PairRow)
    requires Rewritten(was, rows, usable, reviews, now) && Shows(r, p, reviews)
    requires if p.key in rows then r.id == rows[p.key].id && r.firstSeen == rows[p.key].firstSeen
             else r.firstSeen == now
    ensures Rewritten(was, rows[p.key := r], usable + [p], reviews, now)
  {
    assert (usable + [p])[..|usable|] == usable;
  }

  lemma {:induction false} LastOfKeys(matches: seq<Produced>, k: PairKey)
    ensures LastOf(matches, k).Some? <==> k in KeysOf(matches)
  {
    if matches != [] {
      var front, last := matches[..|matches| - 1], matches[|matches| - 1];
      LastOfKeys(front, k);
      assert forall p :: p in matches <==> p in front || p == last by { assert matches == front + [last]; }
    }
  }

  /** The pairs to retract: neither retracted already nor still produced. */
  function Gone(pairs: map<PairKey, PairRow>, live: set<PairKey>): set<PairKey> {
    set k | k in pairs && k !in live && pairs[k].retracted == None
  }

  /** The un-retracted pairs are the usable ones among `matches`, each showing its last candidate and its review. */
  ghost predicate Mirrors(pairs: map<PairKey, PairRow>, matches: seq<Produced>, known: set<string>,
                          reviews: seq<Review>) {
    var usable := UsableOf(matches, known);
    && (forall k :: k in pairs ==> (pairs[k].retracted == None <==> k in KeysOf(usable)))
    && (forall k :: k in KeysOf(usable) ==>
          k in pairs && LastOf(usable, k).Some? && Shows(pairs[k], LastOf(usable, k).value, reviews))
  }

  class Database {
    var market: map<string, MarketRow>
    var pairs: map<PairKey, PairRow>
    var nextId: int

    /** Ids are unique and were handed out in order. */
    ghost predicate Valid()
      reads this
    {
      && (forall k :: k in pairs ==> pairs[k].id < nextId)
      && (forall j, k :: j in pairs && k in pairs && pairs[j].id == pairs[k].id ==> j == k)
    }

    /** No row is ever deleted, and no pair ever changes its id or its first sighting. */
    twostate predicate Preserved()
      reads this
    {
      forall k :: k in old(pairs) ==> k in pairs && pairs[k].id == old(pairs)[k].id
                                      && pairs[k].firstSeen == old(pairs)[k].firstSeen
    }

    method UpsertMarkets(markets: seq<Listing>, now: int)
      modifies this`market
      ensures Listed(old(market), market, markets, now)
    {
      for i := 0 to |markets|
        invariant Listed(old(market), market, markets[..i], now)
      {
        var m := markets[i];
        ListedNext(old(market), market, markets[..i], m, now);
        assert markets[..i + 1] == markets[..i] + [m];
        if m.id in market {
          market := market[m.id := market[m.id].(details := DetailsOf(m), lastSeen := now)];
        } else {
          market := market[m.id := MarketRow(m.venue, DetailsOf(m), now, now)];
        }
      }
      assert markets[..|markets|] == markets;
    }

    method UpsertRow(p: Produced, verdict: Verdict, now: int)
      requires Valid()
      modifies this`pairs, this`nextId
      ensures Valid() && Preserved()
      ensures p.key in pairs && pairs == old(pairs)[p.key := pairs[p.key]]
      ensures var r := pairs[p.key];
              && r.matchMethod == p.matchMethod && r.score == p.score && r.dateDelta == p.dateDelta
              && r.hazards == p.hazards
              && r.verdict == verdict && r.retracted == None
      ensures if p.key in old(pairs)
              then pairs[p.key].id == old(pairs)[p.key].id && pairs[p.key].firstSeen == old(pairs)[p.key].firstSeen
              else pairs[p.key].id == old(nextId) && pairs[p.key].firstSeen == now
    {
      var id := nextId;
      nextId := nextId + 1;
      if p.key in pairs {
        var r := pairs[p.key];
        pairs := pairs[p.key :=
                       PairRow(r.id, p.matchMethod, p.score, p.dateDelta, verdict, p.hazards, r.firstSeen, None)];
      } else {
        pairs := pairs[p.key := PairRow(id, p.matchMethod, p.score, p.dateDelta, verdict, p.hazards, now, None)];
      }
    }

    /** Insert or refresh every usable pair, un-retracting it. */
    method UpsertRows(usable: seq<Produced>, reviews: seq<Review>, now: int)
      requires Valid()
      modifies this`pairs, this`nextId
      ensures Valid() && Rewritten(old(pairs), pairs, usable, reviews, now)
    {
      for i := 0 to |usable|
        invariant Valid() && Rewritten(old(pairs), pairs, usable[..i], reviews, now)
      {
        ghost var before := pairs;
        UpsertRow(usable[i], VerdictOn(reviews, usable[i].key), now);
        RewrittenNext(old(pairs), before, usable[..i], reviews, now, usable[i], pairs[usable[i].key]);
        assert usable[..i + 1] == usable[..i] + [usable[i]];
      }
      assert usable[..|usable|] == usable;
    }

    /** Retract every un-retracted pair outside `live`. */
    method RetractOthers(live: set<PairKey>, now: int) returns (retracted: nat)
      requires Valid()
      modifies this`pairs
      ensures Valid() && Preserved() && pairs.Keys == old(pairs.Keys)
      ensures forall k :: k in pairs ==>
                pairs[k] == if k !in live && old(pairs)[k].retracted == None
                            then old(pairs)[k].(retracted := Some(Retraction(now, None))) else old(pairs)[k]
      ensures retracted == |Gone(old(pairs), live)|
    {
      var gone := Gone(pairs, live);
      pairs := map k | k in pairs :: if k in gone then pairs[k].(retracted := Some(Retraction(now, None)))
          else pairs[k];
      retracted := |gone|;
    }

    method UpsertMatchPairs(matches: seq<Produced>, reviews: seq<Review>, now: int)
      returns (upserted: nat, retracted: nat, skipped: nat)
      requires Valid()
      modifies this`pairs, this`nextId
      ensures Valid() && Preserved()
      ensures pairs.Keys == old(pairs.Keys) + KeysOf(UsableOf(matches, market.Keys))
      ensures forall k :: k in pairs ==>
                (pairs[k].retracted == None <==> k in KeysOf(UsableOf(matches, market.Keys)))
      ensures forall k :: k in KeysOf(UsableOf(matches, market.Keys)) ==>
                LastOf(UsableOf(matches, market.Keys), k).Some?
                    && Shows(pairs[k], LastOf(UsableOf(matches, market.Keys), k).value, reviews)
      ensures forall k ::
                k in old(pairs) && old(pairs)[k].retracted.Some? && k !in KeysOf(UsableOf(matches, market.Keys)) ==>
                  pairs[k] == old(pairs)[k]
      ensures upserted == |UsableOf(matches, market.Keys)| && upserted + skipped == |matches|
      ensures retracted == |Gone(old(pairs), KeysOf(UsableOf(matches, market.Keys)))|
    {
      var usable := UsableOf(matches, market.Keys);
      upserted, skipped := |usable|, |matches| - |usable|;
      UpsertRows(usable, reviews, now);
      forall k ensures LastOf(usable, k).Some? <==> k in KeysOf(usable) { LastOfKeys(usable, k); }
      assert Gone(pairs, KeysOf(usable)) == Gone(old(pairs), KeysOf(usable));
      retracted := RetractOthers(KeysOf(usable), now);
    }

    method PairIds() returns (ids: map<PairKey, int>)
      ensures ids == map k | k in pairs :: pairs[k].id
    {
      ids := map k | k in pairs :: pairs[k].id;
    }

    /**
     * The refresh's sync, on the markets that back the live pairs: afterwards every live pair has an id, no pair
     * lost or changed the id it had, and the un-retracted pairs are the produced ones with both legs known.
     */
    method Sync(live: map<PairKey, Match>, markets: seq<Listing>, matches: seq<Produced>, reviews: seq<Review>,
                now: int)
      returns (ids: map<PairKey, int>)
      requires Valid()
      requires forall k :: k in live ==> k in KeysOf(matches)
      requires forall k :: k in live ==>
               (exists m :: m in markets && m.id == k.kalshi) && exists m :: m in markets && m.id == k.poly
      modifies this
      ensures Valid() && Preserved()
      ensures live.Keys <= ids.Keys == pairs.Keys
      ensures forall k :: k in ids ==> ids[k] == pairs[k].id
      ensures forall k :: k in old(pairs) ==> k in ids && ids[k] == old(pairs)[k].id
      ensures Listed(old(market), market, markets, now) && Mirrors(pairs, matches, market.Keys, reviews)
      ensures forall k :: k in pairs ==> (pairs[k].retracted == None <==> k in KeysOf(UsableOf(matches, market.Keys)))
      ensures forall k :: k in live ==> pairs[k].retracted == None
    {
      UpsertMarkets(markets, now);
      forall m | m in markets ensures m.id in market { LastListed(markets, m); }
      var upserted, retracted, skipped := UpsertMatchPairs(matches, reviews, now);
      ids := PairIds();
      forall k | k in live ensures k in KeysOf(UsableOf(matches, market.Keys)) {
        var p :| p in matches && p.key == k;
        assert Usable(p, market.Keys);
      }
    }
  }
}
