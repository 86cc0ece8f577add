/** The pair set a daily refresh arrives at (pmarb/refresh.py). */
module MatchSets {
  import opened Samples

  datatype Match = Match(kalshi: string, poly: string, structured: bool, inverted: bool) {
    function Key(): PairKey {
      PairKey(kalshi, poly)
    }
  }

  /** A dictionary keyed by the pair of its match. */
  ghost predicate ByKey(m: map<PairKey, Match>) {
    forall k :: k in m ==> m[k].Key() == k
  }

  function LegsOf(live: map<PairKey, Match>): set<string> {
    (set k | k in live :: live[k].kalshi) + (set k | k in live :: live[k].poly)
  }

  datatype Diff = Diff(added: map<PairKey, Match>, dropped: map<PairKey, Match>, kept: map<PairKey, Match>) {
    function Live(): map<PairKey, Match> {
      kept + added
    }

    function MarketIds(): set<string> {
      LegsOf(Live())
    }
  }

  /** The trusted pairs both of whose legs are listed; the last of two entries for one pair wins. */
  function Fresh(trusted: seq<Match>, listed: set<string>): (r: map<PairKey, Match>)
    ensures ByKey(r)
    ensures forall k :: k in r <==> k.kalshi in listed && k.poly in listed && exists m :: m in trusted && m.Key() == k
  {
    if trusted == [] then map[]
    else
      var front, m := trusted[..|trusted| - 1], trusted[|trusted| - 1];
      assert forall x :: x in trusted <==> x in front || x == m;
      var r := Fresh(front, listed);
      if m.kalshi in listed && m.poly in listed then r[m.Key() := m] else r
  }

  function PairDiff(tracked: map<PairKey, Match>, trusted: seq<Match>, listed: set<string>): Diff {
    var wanted := Fresh(trusted, listed);
    Diff(map k | k in wanted && k !in tracked :: wanted[k],
         map k | k in tracked && k !in wanted :: tracked[k],
         map k | k in wanted && k in tracked :: wanted[k])
  }

  /**
   * A refresh tracks exactly the trusted pairs with both legs listed: the old set less the dropped pairs,
   * plus the added ones, and fresh metadata wins for the survivors.
   */
  lemma DiffMeaning(tracked: map<PairKey, Match>, trusted: seq<Match>, listed: set<string>)
    requires ByKey(tracked)
    ensures var d := PairDiff(tracked, trusted, listed);
            && ByKey(d.Live()) && ByKey(d.dropped)
            && d.Live() == Fresh(trusted, listed)
            && d.Live().Keys == tracked.Keys - d.dropped.Keys + d.added.Keys
            && d.added.Keys !! tracked.Keys && d.dropped.Keys <= tracked.Keys
            && d.kept.Keys == tracked.Keys - d.dropped.Keys
            && (forall k :: k in d.dropped ==> d.dropped[k] == tracked[k])
            && forall k :: k in d.dropped <==>
                 k in tracked && (k.kalshi !in listed || k.poly !in listed || forall m :: m in trusted ==> m.Key() != k)
  {
    var wanted := Fresh(trusted, listed);
    var d := PairDiff(tracked, trusted, listed);
    assert d.Live() == wanted;
    forall k | k in tracked
      ensures k !in wanted <==> (k.kalshi !in listed || k.poly !in listed || forall m :: m in trusted ==> m.Key() != k)
    {
    }
  }

  /** Refreshing again against the same catalog and match file changes nothing. */
  lemma DiffIsIdempotent(tracked: map<PairKey, Match>, trusted: seq<Match>, listed: set<string>)
    requires ByKey(tracked)
    ensures var again := PairDiff(PairDiff(tracked, trusted, listed).Live(), trusted, listed);
            again.added == map[] && again.dropped == map[] && again.kept == PairDiff(tracked, trusted, listed).Live()
  {
    DiffMeaning(tracked, trusted, listed);
  }
}
