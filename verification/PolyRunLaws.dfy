/**
 * What every run of a stream keeps, crashes included: desired sets apart and within the cap, every desired slug placed
 * or reported, and no request id used twice.
 */
module PolyRunLaws {
  import opened Common
  import opened PolyShard
  import opened PolyShardLaws
  import opened PolyFeed
  import opened PolyFeedLaws
  import opened RequestIds
  import opened PolyRuns

  // ---- what every run keeps ----

  /** Duplicate-free desired sets within the cap, no slug on two shards. */
  ghost predicate Lists(z: State) {
    && Aligned(z) && Separate(z.shards)
    && forall i {:trigger z.shards[i]} :: 0 <= i < |z.shards| ==>
         NoDuplicates(z.shards[i].meta) && |z.shards[i].meta| <= MAX_SUBS
  }

  /** Every desired slug is on a shard or still pending, none is both, and nothing undesired is new. */
  ghost predicate PlacedWell(z: State) {
    z.cycle.Idle? ||
    var w := z.cycle.work;
    && Unplaced(w.pending, z.shards)
    && (forall x :: x in w.desired ==> x in Current(z.shards) || x in w.pending)
    && (forall x :: x in Current(z.shards) || x in w.pending ==> x in w.desired || x in w.before)
  }

  lemma ReplacedSlugs(shards: seq<Shard>, i: nat, t: Shard, x: Slug)
    requires i < |shards|
    ensures x in Current(shards[i := t]) ==> x in t.meta || x in Current(shards)
    ensures x in Current(shards) ==> x in shards[i].meta || x in Current(shards[i := t])
    ensures x in t.meta ==> x in Current(shards[i := t])
    ensures x in shards[i].meta ==> x in Current(shards)
  {
    var more := shards[i := t];
    CurrentMeans(shards, x);
    CurrentMeans(more, x);
    assert more[i] == t && forall j :: 0 <= j < |shards| && j != i ==> more[j] == shards[j];
  }

  /** A shard that only gives slugs up leaves the others apart. */
  lemma ShrinkKeepsApart(shards: seq<Shard>, i: nat, t: Shard)
    requires Separate(shards) && i < |shards| && t.index == shards[i].index
    requires forall x :: x in t.meta ==> x in shards[i].meta
    ensures Separate(shards[i := t])
  {
    var more := shards[i := t];
    forall j, k | 0 <= j < k < |more| ensures Compatible(more[j], more[k]) { assert Compatible(shards[j], shards[k]); }
  }

  /** The same slugs under the same index. */
  lemma SwapKeepsLists(shards: seq<Shard>, i: nat, t: Shard)
    requires Separate(shards) && i < |shards| && t.meta == shards[i].meta && t.index == shards[i].index
    ensures Separate(shards[i := t]) && Current(shards[i := t]) == Current(shards)
  {
    ShrinkKeepsApart(shards, i, t);
    forall x ensures x in Current(shards[i := t]) <==> x in Current(shards) { ReplacedSlugs(shards, i, t, x); }
  }

  lemma SubscribedLists(s: Shard, part: seq<Slug>, env: Env)
    ensures var t := Subscribed(s, part, env).0; t.meta == s.meta && t.index == s.index && t.up == s.up
  {
  }

  lemma TakeKeepsLists(z: State)
    requires Lists(z) && PlacedWell(z) && Enabled(z, Take)
    ensures Lists(Taken(z)) && PlacedWell(Taken(z))
  {
    var at, b, y := z.cycle.at, z.cycle.stale[0], Taken(z);
    var s, t := z.shards[at], y.shards[at];
    DropKeepsDistinct(s.meta, b.slugs, Wanted(z.cycle.work));
    ShrinkKeepsApart(z.shards, at, t);
    forall x
      ensures x in Current(y.shards) ==> x in Current(z.shards)
      ensures x in z.cycle.work.desired && x in Current(z.shards) ==> x in Current(y.shards)
    {
      ReplacedSlugs(z.shards, at, t, x);
    }
  }

  lemma PlaceKeepsLists(z: State)
    requires Lists(z) && PlacedWell(z) && Enabled(z, Place)
    ensures Lists(Placed(z)) && PlacedWell(Placed(z))
  {
    var w, at, y := z.cycle.work, z.cycle.at, Placed(z);
    if w.pending != [] && w.oks[at] {
      var s, n := z.shards[at], Least(Room(z.shards[at]), |w.pending|);
      SplitDistinct(w.pending, n);
      forall x | x in w.pending[..n] ensures x !in s.meta { ReplacedSlugs(z.shards, at, s, x); }
      JoinDistinct(s.meta, w.pending[..n]);
      PlaceKeeps(z.shards, at, y.shards[at], w.pending, n);
    }
  }

  lemma SpawnKeepsLists(z: State, streaming: bool)
    requires Lists(z) && PlacedWell(z) && Enabled(z, Spawn(streaming))
    ensures Lists(SpawnAll(z, streaming)) && PlacedWell(SpawnAll(z, streaming))
  {
    var w, y := z.cycle.work, SpawnAll(z, streaming);
    SpawnApart(z.shards, w.pending, streaming);
    if streaming { FreshMeans(NextIndex(z.shards), w.pending); } else { assert y.shards == z.shards; }
  }

  lemma JudgeKeepsLists(z: State, env: Env)
    requires Lists(z) && PlacedWell(z) && z.cycle.Watching?
    ensures Lists(Judged(z, env)) && PlacedWell(Judged(z, env))
  {
    var y := Judged(z, env);
    forall i, j | 0 <= i < j < |y.shards| ensures Compatible(y.shards[i], y.shards[j]) {
      assert Compatible(z.shards[i], z.shards[j]);
    }
    assert forall i :: 0 <= i < |z.shards| ==> y.shards[i].meta == z.shards[i].meta;
    forall x ensures x in Current(y.shards) <==> x in Current(z.shards) {
      CurrentMeans(y.shards, x);
      CurrentMeans(z.shards, x);
    }
  }

  /** The shard an event sends to or closes, where its slugs stay what they are. */
  function Touched(z: State, e: Event): Option<nat> {
    match e
    case Confirm | Unconfirmed(_) | Resubscribe(_) | SendAdd(_) | Close =>
      if z.cycle.Pruning? || z.cycle.Adding? || z.cycle.Closing? then Some(z.cycle.at) else None
    case Lose(i) => Some(i)
    case Open(i) => Some(i)
    case Send(i, _) => Some(i)
    case _ => None
  }

  lemma TouchSwaps(z: State, e: Event)
    requires Enabled(z, e) && Touched(z, e).Some?
    ensures var i, y := Touched(z, e).value, Next(z, e);
            && i < |z.shards| && |y.shards| == |z.shards| && y.shards == z.shards[i := y.shards[i]]
            && y.shards[i].meta == z.shards[i].meta && y.shards[i].index == z.shards[i].index
  {
  }

  lemma TouchKeepsWork(z: State, e: Event)
    requires Enabled(z, e) && Touched(z, e).Some?
    ensures var y := Next(z, e);
            && Aligned(y)
            && (y.cycle.Idle? || (!z.cycle.Idle? && y.cycle.work.desired == z.cycle.work.desired
                                  && y.cycle.work.before == z.cycle.work.before
                                  && y.cycle.work.pending == z.cycle.work.pending))
  {
  }

  lemma TouchKeepsLists(z: State, e: Event)
    requires Lists(z) && PlacedWell(z) && Enabled(z, e) && Touched(z, e).Some?
    ensures Lists(Next(z, e)) && PlacedWell(Next(z, e))
  {
    var i, y := Touched(z, e).value, Next(z, e);
    TouchSwaps(z, e);
    TouchKeepsWork(z, e);
    SwapKeepsLists(z.shards, i, y.shards[i]);
  }

  lemma StepKeepsLists(z: State, e: Event)
    requires Lists(z) && PlacedWell(z) && Enabled(z, e)
    ensures Lists(Next(z, e)) && PlacedWell(Next(z, e))
  {
    match e
    case Begin(desired) => AddedMeans(Current(z.shards), desired);
    case Take => TakeKeepsLists(z);
    case Pass =>
    case Place => PlaceKeepsLists(z);
    case Spawn(streaming) => SpawnKeepsLists(z, streaming);
    case Judge(env) => JudgeKeepsLists(z, env);
    case _ => TouchKeepsLists(z, e);
  }

  lemma {:induction false} ListsAlways(slugs: seq<Slug>, states: seq<State>, events: seq<Event>, k: nat)
    requires Run(slugs, states, events) && k < |states|
    ensures Lists(states[k]) && PlacedWell(states[k])
  {
    if k == 0 {
      FreshMeans(0, slugs);
    } else {
      ListsAlways(slugs, states, events, k - 1);
      StepKeepsLists(states[k - 1], events[k - 1]);
    }
  }

  /** When a resync closes, every desired slug is on a shard or reported unplaced, and nothing undesired is new. */
  lemma RunsPlaceTheDesired(slugs: seq<Slug>, states: seq<State>, events: seq<Event>, k: nat)
    requires Run(slugs, states, events) && k < |states| && states[k].cycle.Closing?
    ensures var w := states[k].cycle.work;
            && (forall x :: x in w.desired ==> x in Current(states[k].shards) || x in w.pending)
            && (forall x :: x in w.pending ==> x !in Current(states[k].shards))
            && (forall x :: x in Current(states[k].shards) ==> x in w.desired || x in w.before)
  {
    ListsAlways(slugs, states, events, k);
  }

  // ---- no request id twice ----

  /** The ids a shard has sent carry its index, go up, and stay at or below its counter. */
  ghost predicate Minting(s: Shard) {
    && (forall i :: 0 <= i < |s.sent| ==> s.sent[i].shard == s.index && s.sent[i].n <= s.ridSeq)
    && forall i, j :: 0 <= i < j < |s.sent| ==> s.sent[i].n < s.sent[j].n
  }

  /** At most one subscribe went out, under the id minted for it. */
  predicate SendsOne(s: Shard, t: Shard) {
    && t.index == s.index && s.ridSeq <= t.ridSeq
    && (t.sent == s.sent || (t.sent == s.sent + [Minted(s)] && t.ridSeq == s.ridSeq + 1))
  }

  lemma OneSendMints(s: Shard, t: Shard)
    requires SendsOne(s, t) && Minting(s)
    ensures Minting(t)
  {
  }

  ghost predicate AllMinting(shards: seq<Shard>) {
    forall i {:trigger shards[i]} :: 0 <= i < |shards| ==> Minting(shards[i])
  }

  lemma {:induction false} FreshMints(index: nat, pending: seq<Slug>)
    ensures AllMinting(FreshShards(index, pending))
    decreases |pending|
  {
    if pending != [] { FreshMints(index + 1, pending[Least(MAX_SUBS, |pending|)..]); }
  }

  /** Every step sends at most once for each shard there was. */
  lemma StepSendsOne(z: State, e: Event, i: nat)
    requires Enabled(z, e) && i < |z.shards|
    ensures i < |Next(z, e).shards| && SendsOne(z.shards[i], Next(z, e).shards[i])
  {
  }

  lemma StepMints(z: State, e: Event)
    requires AllMinting(z.shards) && Enabled(z, e)
    ensures AllMinting(Next(z, e).shards)
  {
    var y := Next(z, e);
    forall i | 0 <= i < |z.shards| ensures i < |y.shards| && Minting(y.shards[i]) {
      StepSendsOne(z, e, i);
      OneSendMints(z.shards[i], y.shards[i]);
    }
    if e.Spawn? { FreshMints(NextIndex(z.shards), z.cycle.work.pending); }
  }

  lemma {:induction false} MintingAlways(slugs: seq<Slug>, states: seq<State>, events: seq<Event>, k: nat)
    requires Run(slugs, states, events) && k < |states|
    ensures AllMinting(states[k].shards)
  {
    if k == 0 {
      FreshMints(0, slugs);
    } else {
      MintingAlways(slugs, states, events, k - 1);
      StepMints(states[k - 1], events[k - 1]);
    }
  }

  /** Every request id sent, by any shard. */
  function AllSent(shards: seq<Shard>): seq<Rid> {
    if shards == [] then [] else AllSent(shards[..|shards| - 1]) + shards[|shards| - 1].sent
  }

  lemma {:induction false} SentBySome(shards: seq<Shard>, rid: Rid)
    requires AllMinting(shards) && rid in AllSent(shards)
    ensures exists i :: 0 <= i < |shards| && shards[i].index == rid.shard
  {
    var front, last := shards[..|shards| - 1], shards[|shards| - 1];
    if rid in last.sent {
    } else {
      assert AllMinting(front) by { assert forall j :: 0 <= j < |front| ==> front[j] == shards[j]; }
      SentBySome(front, rid);
      var i :| 0 <= i < |front| && front[i].index == rid.shard;
      assert shards[i] == front[i];
    }
  }

  lemma {:induction false} SentOnce(shards: seq<Shard>)
    requires AllMinting(shards) && Separate(shards)
    ensures NoDuplicates(AllSent(shards))
  {
    if shards != [] {
      var front, last := shards[..|shards| - 1], shards[|shards| - 1];
      assert forall j :: 0 <= j < |front| ==> front[j] == shards[j];
      assert Separate(front) by {
        forall i, j | 0 <= i < j < |front| ensures Compatible(front[i], front[j]) {
          assert Compatible(shards[i], shards[j]);
        }
      }
      SentOnce(front);
      forall i | 0 <= i < |front| ensures front[i].index != last.index {
        assert Compatible(shards[i], shards[|shards| - 1]);
      }
      forall x | x in last.sent ensures x !in AllSent(front) {
        if x in AllSent(front) { SentBySome(front, x); }
      }
      JoinDistinct(AllSent(front), last.sent);
    }
  }

  /** In no run is a request id sent twice, by the same shard or by two, on one connection or on different ones. */
  lemma NoRequestIdTwice(slugs: seq<Slug>, states: seq<State>, events: seq<Event>, k: nat, i: nat, j: nat)
    requires Run(slugs, states, events) && k < |states| && i < j < |AllSent(states[k].shards)|
    ensures Render(AllSent(states[k].shards)[i]) != Render(AllSent(states[k].shards)[j])
  {
    var all := AllSent(states[k].shards);
    ListsAlways(slugs, states, events, k);
    MintingAlways(slugs, states, events, k);
    SentOnce(states[k].shards);
    if Render(all[i]) == Render(all[j]) { RenderIsInjective(all[i], all[j]); }
  }
}
