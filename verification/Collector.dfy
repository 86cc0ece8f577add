/** The live state the hot loop and the refresh share and rewrite in place (pmarb/main.py, pmarb/refresh.py). */
module CollectorState {
  import opened Common
  import opened Samples
  import opened Sampling
  import opened MatchSets
  import opened Machine

  /** `index` lists every live pair once under each of its legs, and nothing else. */
  ghost predicate Indexes(index: map<string, seq<Match>>, live: map<PairKey, Match>) {
    ListsOnce(index) && ListsOnly(index, live) && ListsAll(index, live)
  }

  ghost predicate ListsOnce(index: map<string, seq<Match>>) {
    forall id :: id in index ==> index[id] != [] && NoDuplicates(index[id])
  }

  ghost predicate ListsOnly(index: map<string, seq<Match>>, live: map<PairKey, Match>) {
    forall id, m :: id in index && m in index[id] ==> m.Key() in live && live[m.Key()] == m && OnLeg(m, id)
  }

  ghost predicate ListsAll(index: map<string, seq<Match>>, live: map<PairKey, Match>) {
    forall k :: k in live ==>
        k.kalshi in index && live[k] in index[k.kalshi] && k.poly in index && live[k] in index[k.poly]
  }

  predicate OnLeg(m: Match, id: string) {
    m.kalshi == id || m.poly == id
  }

  function Listed(index: map<string, seq<Match>>, id: string): seq<Match> {
    if id in index then index[id] else []
  }

  ghost function MarkersFor(s: State, pairs: set<PairKey>, wall: int): set<Sample> {
    set k | k in pairs :: Marker(k, wall, Entry(s, k).yesVenue)
  }

  class Collector {
    var index: map<string, seq<Match>>
    var cache: map<string, int>
    var lastAppend: map<PairKey, Append>
    var pairId: map<PairKey, int>
    var latest: map<PairKey, Evaluation>
    var kMarkets: seq<string>
    var pMarkets: seq<string>
    var rows: seq<Sample>
    var windows: nat
    ghost var live: map<PairKey, Match>
    ghost var all: set<Sample>

    ghost predicate Valid()
      reads this
    {
      ByKey(live) && Indexes(index, live)
    }

    ghost function View(cycle: Cycle): State
      reads this
    {
      State(live, lastAppend, pairId, Elements(rows), all, windows, cycle)
    }

    /** The tracked pairs, derived from the index so that the two cannot disagree. */
    method Tracked() returns (tracked: map<PairKey, Match>)
      requires Valid()
      ensures tracked == live
    {
      tracked := map[];
      var ids := index.Keys;
      while ids != {}
        invariant ids <= index.Keys
        invariant forall k :: k in tracked ==> k in live && tracked[k] == live[k]
        invariant forall id, m :: id in index && id !in ids && m in index[id] ==> m.Key() in tracked
        decreases |ids|
      {
        var id :| id in ids;
        ghost var before := tracked;
        for j := 0 to |index[id]|
          invariant forall k :: k in tracked ==> k in live && tracked[k] == live[k]
          invariant forall k :: k in before ==> k in tracked
          invariant forall i :: 0 <= i < j ==> index[id][i].Key() in tracked
        {
          tracked := tracked[index[id][j].Key() := index[id][j]];
        }
        ids := ids - {id};
      }
      assert forall k :: k in live ==> live[k].Key() in tracked;
    }

    /** One evaluation of a tracked pair: decide, write, and remember. */
    method Record(m: Match, ev: Evaluation, wall: int, mono: int, ghost cycle: Cycle)
      requires m.Key() in live && live[m.Key()] == m
      modifies this`latest, this`rows, this`lastAppend, this`windows, this`all
      ensures View(cycle) == Evaluated(old(View(cycle)), Evaluate(m.Key(), ev, wall, mono))
      ensures latest == old(latest)[m.Key() := ev]
    {
      ghost var s, e := View(cycle), Evaluate(m.Key(), ev, wall, mono);
      var key := m.Key();
      latest := latest[key := ev];
      var isViable := ev.size > 0;
      var last := if key in lastAppend then lastAppend[key] else ABSENT;
      var reason := SampleReason(isViable, last.wasViable, m.structured, ev.edge, last.lastEdge, mono - last.lastT);
      var row := Sample(key, wall, reason, ev.size, ev.spread, ev.yesVenue);
      assert last == Entry(s, key) && row == RowOf(s, e);
      var entry := if reason.Some? then Append(mono, Some(ev.edge), isViable, ev.yesVenue)
                   else Append(last.lastT, last.lastEdge, isViable, ev.yesVenue);
      assert entry == Advance(last, ev, m.structured, mono);
      if reason.Some? {
        Write(key, row);
        if isViable && !last.wasViable {
          windows := windows + 1;
        }
      }
      lastAppend := lastAppend[key := entry];
      all := all + {row};
      assert Elements(rows) == Evaluated(s, e).written && windows == Evaluated(s, e).windows;
    }

    /** A row goes to the database when its pair has an id there. */
    method Write(key: PairKey, row: Sample)
      modifies this`rows
      ensures Elements(rows) == if key in pairId then old(Elements(rows)) + {row} else old(Elements(rows))
    {
      if key in pairId {
        ElementsAppend(rows, row);
        rows := rows + [row];
      }
    }

    /** A close marker for every dropped pair that was still viable. */
    method CloseOpenWindows(dropped: map<PairKey, Match>, wall: int, ghost cycle: Cycle) returns (closed: nat)
      modifies this`rows, this`all
      ensures Elements(rows) == old(Elements(rows)) + Markers(old(View(cycle)), dropped, wall)
      ensures all == old(all) + Markers(old(View(cycle)), dropped, wall)
      ensures closed == |ToClose(old(View(cycle)), dropped)|
    {
      closed := 0;
      var todo := dropped.Keys;
      ghost var done: set<PairKey> := {};
      ghost var s := View(cycle);
      while todo != {}
        invariant done == set k | k in ToClose(s, dropped) && k !in todo
        invariant todo <= dropped.Keys
        invariant Elements(rows) == old(Elements(rows)) + MarkersFor(s, done, wall)
        invariant closed == |done| && all == old(all)
        decreases |todo|
      {
        var k :| k in todo;
        if k in lastAppend && lastAppend[k].wasViable && k in pairId {
          ElementsAppend(rows, Marker(k, wall, lastAppend[k].yesVenue));
          rows := rows + [Marker(k, wall, lastAppend[k].yesVenue)];
          closed := closed + 1;
          assert MarkersFor(s, done + {k}, wall) == MarkersFor(s, done, wall) + {Marker(k, wall, Entry(s, k).yesVenue)};
          done := done + {k};
        }
        todo := todo - {k};
      }
      assert done == ToClose(s, dropped);
      all := all + Markers(s, dropped, wall);
    }

    method Prune(keys: set<PairKey>, ids: set<string>)
      modifies this`lastAppend, this`cache, this`latest
      ensures lastAppend == Restrict(old(lastAppend), keys)
      ensures cache == Restrict(old(cache), ids)
      ensures latest == Restrict(old(latest), keys)
    {
      lastAppend := Restrict(lastAppend, keys);
      cache := Restrict(cache, ids);
      latest := Restrict(latest, keys);
    }

    /** The in-memory state, rewritten to the new match set in one pass. */
    method Apply(diff: Diff, newIds: Option<map<PairKey, int>>, kMkts: seq<string>, pMkts: seq<string>)
      requires ByKey(diff.Live()) && forall k :: k in diff.Live() ==> k.kalshi != k.poly
      modifies this`index, this`lastAppend, this`cache, this`latest, this`pairId, this`kMarkets, this`pMarkets,
               this`live
      ensures Valid() && live == diff.Live()
      ensures lastAppend == Restrict(old(lastAppend), diff.Live().Keys)
      ensures cache == Restrict(old(cache), diff.MarketIds())
      ensures latest == Restrict(old(latest), diff.Live().Keys)
      ensures pairId == if newIds.Some? then newIds.value else old(pairId)
      ensures kMarkets == kMkts && pMarkets == pMkts
    {
      live := diff.Live();
      index := BuildIndex(diff.Live());
      Prune(diff.Live().Keys, diff.MarketIds());
      if newIds.Some? {
        pairId := newIds.value;
      }
      kMarkets, pMarkets := kMkts, pMkts;
    }

    /** Steps 4 and 5 of a cycle: nothing awaits between them. */
    method CloseAndApply(diff: Diff, newIds: Option<map<PairKey, int>>, wall: int, kMkts: seq<string>,
                         pMkts: seq<string>)
      returns (closed: nat)
      requires Valid()
      requires ByKey(diff.Live()) && forall k :: k in diff.Live() ==> k.kalshi != k.poly
      modifies this
      ensures Valid()
      ensures View(Idle) == Applied(old(View(Synced(diff, newIds))), diff, newIds, wall)
      ensures closed == |ToClose(old(View(Idle)), diff.dropped)|
      ensures cache == Restrict(old(cache), diff.MarketIds()) && latest == Restrict(old(latest), diff.Live().Keys)
      ensures lastAppend == Restrict(old(lastAppend), diff.Live().Keys)
      ensures kMarkets == kMkts && pMarkets == pMkts
    {
      closed := CloseOpenWindows(diff.dropped, wall, Synced(diff, newIds));
      Apply(diff, newIds, kMkts, pMkts);
    }
  }

  /** index[id].append(match), making the list first if there is none. */
  function Append1(index: map<string, seq<Match>>, id: string, m: Match): map<string, seq<Match>> {
    index[id := Listed(index, id) + [m]]
  }

  method BuildIndex(target: map<PairKey, Match>) returns (index: map<string, seq<Match>>)
    requires ByKey(target) && forall k :: k in target ==> k.kalshi != k.poly
    ensures Indexes(index, target)
  {
    index := map[];
    var todo := target.Keys;
    ghost var done: map<PairKey, Match> := map[];
    while todo != {}
      invariant done == map k | k in target && k !in todo :: target[k]
      invariant todo <= target.Keys
      invariant Indexes(index, done)
      decreases |todo|
    {
      var k :| k in todo;
      index := AddBothLegs(index, done, target[k]);
      todo := todo - {k};
      done := done[k := target[k]];
    }
    assert done == target;
  }

  method AddBothLegs(index: map<string, seq<Match>>, ghost done: map<PairKey, Match>, m: Match)
    returns (longer: map<string, seq<Match>>)
    requires Indexes(index, done) && m.Key() !in done && m.kalshi != m.poly
    ensures Indexes(longer, done[m.Key() := m])
  {
    longer := Append1(Append1(index, m.kalshi, m), m.poly, m);
    LegsIndexed(index, done, m, longer);
  }

  /** `longer` is the index with `m` appended to the lists of both its legs. */
  ghost predicate Appended(index: map<string, seq<Match>>, m: Match, longer: map<string, seq<Match>>) {
    && (forall id :: id in longer <==> id in index || OnLeg(m, id))
    && forall id :: id in longer ==> longer[id] == if OnLeg(m, id) then Listed(index, id) + [m] else index[id]
  }

  lemma OnceMore(index: map<string, seq<Match>>, live: map<PairKey, Match>, m: Match, longer: map<string, seq<Match>>)
    requires ListsOnce(index) && ListsOnly(index, live) && m.Key() !in live && Appended(index, m, longer)
    ensures ListsOnce(longer)
  {
    forall id | id in index ensures m !in index[id] {}
  }

  lemma OnlyMore(index: map<string, seq<Match>>, live: map<PairKey, Match>, m: Match, longer: map<string, seq<Match>>)
    requires ListsOnly(index, live) && m.Key() !in live && Appended(index, m, longer)
    ensures ListsOnly(longer, live[m.Key() := m])
  {
    forall id, x | id in longer && x in longer[id]
      ensures x.Key() in live[m.Key() := m] && live[m.Key() := m][x.Key()] == x && OnLeg(x, id)
    {
      if x != m {
        assert id in index && x in index[id];
        assert x.Key() in live && live[x.Key()] == x;
      }
    }
  }

  lemma AllMore(index: map<string, seq<Match>>, live: map<PairKey, Match>, m: Match, longer: map<string, seq<Match>>)
    requires ListsAll(index, live) && Appended(index, m, longer)
    ensures ListsAll(longer, live[m.Key() := m])
  {
    var more := live[m.Key() := m];
    forall k | k in more
      ensures k.kalshi in longer && more[k] in longer[k.kalshi] && k.poly in longer && more[k] in longer[k.poly]
    {
      if k == m.Key() {
        assert longer[k.kalshi][|longer[k.kalshi]| - 1] == m && longer[k.poly][|longer[k.poly]| - 1] == m;
      } else {
        assert live[k] in index[k.kalshi] && live[k] in index[k.poly];
      }
    }
  }

  lemma LegsIndexed(index: map<string, seq<Match>>, done: map<PairKey, Match>, m: Match,
                    longer: map<string, seq<Match>>)
    requires Indexes(index, done) && m.Key() !in done && Appended(index, m, longer)
    ensures Indexes(longer, done[m.Key() := m])
  {
    OnceMore(index, done, m, longer);
    OnlyMore(index, done, m, longer);
    AllMore(index, done, m, longer);
  }
}
