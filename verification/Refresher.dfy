/** One whole refresh over the collector's live state and the database (pmarb/refresh.py:219-294). */
module Refresher {
  import opened Common
  import opened Samples
  import opened MatchSets
  import opened Machine
  import opened DbSync
  import C = CollectorState

  /** An entry of the match file: the candidate for the database, and what the collector keeps of it. */
  datatype FileMatch = FileMatch(produced: Produced, structured: bool, inverted: bool) {
    function Tracked(): Match {
      Match(produced.key.kalshi, produced.key.poly, structured, inverted)
    }
  }

  /** How the database behaves: the transaction is undone, or it lands and the ids are lost with the connection. */
  datatype Fault = NoFault | BeforeCommit | AfterCommit

  function Trusted(file: seq<FileMatch>, methods: set<string>): seq<Match> {
    if file == [] then []
    else
      var rest, f := Trusted(file[..|file| - 1], methods), file[|file| - 1];
      if f.produced.matchMethod in methods then rest + [f.Tracked()] else rest
  }

  function AllProduced(file: seq<FileMatch>): seq<Produced> {
    if file == [] then [] else AllProduced(file[..|file| - 1]) + [file[|file| - 1].produced]
  }

  /** The trusted pairs are produced ones. */
  lemma {:induction false} TrustedIsProduced(file: seq<FileMatch>, methods: set<string>, m: Match)
    requires m in Trusted(file, methods) && Separate(file)
    ensures m.kalshi != m.poly && m.Key() in KeysOf(AllProduced(file))
  {
    var front, f := file[..|file| - 1], file[|file| - 1];
    assert file == front + [f];
    assert f in file && f.produced in AllProduced(file);
    if m in Trusted(front, methods) {
      assert Separate(front);
      TrustedIsProduced(front, methods, m);
      var p :| p in AllProduced(front) && p.key == m.Key();
      assert p in AllProduced(file);
    }
  }

  function IdsOf(listings: seq<Listing>): set<string> {
    set l | l in listings :: l.id
  }

  function Backing(listings: seq<Listing>, ids: set<string>): (r: seq<Listing>)
    ensures forall l :: l in r <==> l in listings && l.id in ids
  {
    if listings == [] then []
    else
      var front, l := listings[..|listings| - 1], listings[|listings| - 1];
      assert listings == front + [l];
      Backing(front, ids) + if l.id in ids then [l] else []
  }

  function IdList(listings: seq<Listing>): seq<string> {
    seq(|listings|, i requires 0 <= i < |listings| => listings[i].id)
  }

  /** Every id the collector writes under is the database's own. */
  ghost predicate InStep(c: C.Collector, db: Database)
    reads c, db
  {
    forall k :: k in c.pairId ==> k in db.pairs && c.pairId[k] == db.pairs[k].id
  }

  ghost predicate Separate(file: seq<FileMatch>) {
    forall f :: f in file ==> f.produced.key.kalshi != f.produced.key.poly
  }

  lemma BackedBy(kAll: seq<Listing>, pAll: seq<Listing>, ids: set<string>, id: string)
    requires id in IdsOf(kAll) + IdsOf(pAll) && id in ids
    ensures exists m :: m in Backing(kAll, ids) + Backing(pAll, ids) && m.id == id
  {
    if id in IdsOf(kAll) {
      var m :| m in kAll && m.id == id;
      assert m in Backing(kAll, ids);
    } else {
      var m :| m in pAll && m.id == id;
      assert m in Backing(pAll, ids);
    }
  }

  lemma LegsInMarketIds(d: Diff, k: PairKey)
    requires ByKey(d.Live()) && k in d.Live()
    ensures k.kalshi in d.MarketIds() && k.poly in d.MarketIds()
  {
    assert d.Live()[k].Key() == k;
  }

  lemma FreshIsProduced(file: seq<FileMatch>, methods: set<string>, listed: set<string>, k: PairKey)
    requires Separate(file) && k in Fresh(Trusted(file, methods), listed)
    ensures k.kalshi != k.poly && k in KeysOf(AllProduced(file)) && k.kalshi in listed && k.poly in listed
  {
    var m :| m in Trusted(file, methods) && m.Key() == k;
    TrustedIsProduced(file, methods, m);
  }

  /** What a refresh's diff needs of the database: each live pair is produced and backed by listings. */
  lemma LiveIsBacked(d: Diff, file: seq<FileMatch>, methods: set<string>, kAll: seq<Listing>, pAll: seq<Listing>,
                     k: PairKey)
    requires ByKey(d.Live()) && d.Live() == Fresh(Trusted(file, methods), IdsOf(kAll) + IdsOf(pAll)) && Separate(file)
    requires k in d.Live()
    ensures k.kalshi != k.poly && k in KeysOf(AllProduced(file))
    ensures var markets := Backing(kAll, d.MarketIds()) + Backing(pAll, d.MarketIds());
            (exists m :: m in markets && m.id == k.kalshi) && exists m :: m in markets && m.id == k.poly
  {
    LegsInMarketIds(d, k);
    FreshIsProduced(file, methods, IdsOf(kAll) + IdsOf(pAll), k);
    BackedBy(kAll, pAll, d.MarketIds(), k.kalshi);
    BackedBy(kAll, pAll, d.MarketIds(), k.poly);
  }

  /** The sync, which a failing database may undo or cut short. */
  method SyncDatabase(db: Database, live: map<PairKey, Match>, markets: seq<Listing>, matches: seq<Produced>,
                      reviews: seq<Review>, now: int, fault: Fault)
    returns (ids: Option<map<PairKey, int>>)
    requires db.Valid() && forall k :: k in live ==> k in KeysOf(matches)
    requires forall k :: k in live ==>
             (exists m :: m in markets && m.id == k.kalshi) && exists m :: m in markets && m.id == k.poly
    modifies db
    ensures db.Valid() && db.Preserved()
    ensures ids.Some? <==> fault == NoFault
    ensures ids.Some? ==> live.Keys <= ids.value.Keys == db.pairs.Keys && forall k :: k in ids.value ==>
            ids.value[k] == db.pairs[k].id
    ensures fault == BeforeCommit ==> db.pairs == old(db.pairs) && db.market == old(db.market)
    ensures fault != BeforeCommit ==>
              && Listed(old(db.market), db.market, markets, now)
              && Mirrors(db.pairs, matches, db.market.Keys, reviews)
              && forall k :: k in live ==> k in db.pairs && db.pairs[k].retracted == None
  {
    if fault == BeforeCommit { return None; }
    var mapping := db.Sync(live, markets, matches, reviews, now);
    ids := if fault == NoFault then Some(mapping) else None;
  }

  /**
   * One refresh with no evaluation in between: three steps of the machine, whatever the database does. Afterwards
   * exactly the trusted pairs with both legs listed are tracked, every id in use is the database's own, and unless
   * the database failed every live pair has one.
   */
  method RefreshOnce(c: C.Collector, db: Database, file: seq<FileMatch>, methods: set<string>, kAll: seq<Listing>,
                     pAll: seq<Listing>, reviews: seq<Review>, fault: Fault, now: int)
    returns (closed: nat)
    requires c.Valid() && db.Valid() && InStep(c, db) && Separate(file)
    requires forall k :: k in c.live ==> After(c.all, k, now)
    modifies c, db
    ensures c.Valid() && db.Valid() && InStep(c, db) && db.Preserved()
    ensures c.live == Fresh(Trusted(file, methods), IdsOf(kAll) + IdsOf(pAll))
    ensures fault == NoFault ==> c.live.Keys <= c.pairId.Keys
    ensures fault != NoFault ==> c.pairId == old(c.pairId)
    ensures if fault == BeforeCommit then db.pairs == old(db.pairs) && db.market == old(db.market)
            else Mirrors(db.pairs, AllProduced(file), db.market.Keys, reviews)
                 && forall k :: k in c.live ==> k in db.pairs && db.pairs[k].retracted == None
    ensures c.cache == Restrict(old(c.cache), LegsOf(c.live)) && c.latest == Restrict(old(c.latest), c.live.Keys)
    ensures c.kMarkets == IdList(Backing(kAll, LegsOf(c.live))) && c.pMarkets == IdList(Backing(pAll, LegsOf(c.live)))
    ensures fault != BeforeCommit ==>
              Listed(old(db.market), db.market, Backing(kAll, LegsOf(c.live)) + Backing(pAll, LegsOf(c.live)), now)
    ensures var e1 := StartRefresh(Trusted(file, methods), IdsOf(kAll) + IdsOf(pAll));
            var e2, e3 := SyncDb(if fault == NoFault then Some(c.pairId) else None), CloseAndApply(now);
            var s := old(c.View(Idle));
            && Enabled(s, e1) && Enabled(Next(s, e1), e2) && Enabled(Next(Next(s, e1), e2), e3)
            && c.View(Idle) == Next(Next(Next(s, e1), e2), e3)
  {
    var tracked := c.Tracked();
    var diff := PairDiff(tracked, Trusted(file, methods), IdsOf(kAll) + IdsOf(pAll));
    DiffMeaning(tracked, Trusted(file, methods), IdsOf(kAll) + IdsOf(pAll));
    forall k | k in diff.Live()
      ensures k.kalshi != k.poly && k in KeysOf(AllProduced(file))
      ensures var markets := Backing(kAll, diff.MarketIds()) + Backing(pAll, diff.MarketIds());
              (exists m :: m in markets && m.id == k.kalshi) && exists m :: m in markets && m.id == k.poly
    {
      LiveIsBacked(diff, file, methods, kAll, pAll, k);
    }
    var kMkts, pMkts := Backing(kAll, diff.MarketIds()), Backing(pAll, diff.MarketIds());
    var ids := SyncDatabase(db, diff.Live(), kMkts + pMkts, AllProduced(file), reviews, now, fault);
    assert ids.Some? ==> c.pairId.Keys <= ids.value.Keys;
    closed := c.CloseAndApply(diff, ids, now, IdList(kMkts), IdList(pMkts));
  }
}
