/** Where the cap is passed, and what a resync cannot see: runs built step by step. */
module PolyCrash {
  import opened Common
  import opened PolyShard
  import opened PolyShardLaws
  import opened PolyFeed
  import opened PolyFeedLaws
  import opened PolyRuns
  import opened PolyWhole

  // ---- what a crash can lead to ----

  /** The venue and the network let every request through. */
  const FINE: Env := Env({}, {}, {}, {}, {})

  function Name(i: nat): Slug {
    seq(i, _ => 'a')
  }

  function Names(n: nat): (r: seq<Slug>)
    ensures |r| == n && NoDuplicates(r)
  {
    var r := seq(n, i requires 0 <= i => Name(i));
    assert forall i :: 0 <= i < n ==> |r[i]| == i;
    r
  }

  /** Every subscribe goes through: what the venue holds grows by what is sent, and so does its greatest load. */
  lemma {:induction false} AllAreHeld(s: Shard, slugs: seq<Slug>)
    ensures var (t, ok) := SubscribedAll(s, slugs, FINE);
            && ok && t.up == s.up && Load(t) == Load(s) + |slugs|
            && t.peak == if slugs == [] then s.peak else Max(s.peak, Load(s) + |slugs|)
    decreases |slugs|
  {
    if slugs != [] {
      var n := if |slugs| <= SUB_BATCH then |slugs| else SUB_BATCH;
      FlatAppend(s.held, Batch(Minted(s), slugs[..n]));
      AllAreHeld(Subscribed(s, slugs[..n], FINE).0, slugs[n..]);
    }
  }

  /** Whatever the network does, nothing beyond what is to be sent is asked for. */
  lemma {:induction false} AsksWithin(s: Shard, slugs: seq<Slug>, env: Env)
    ensures SubscribedAll(s, slugs, env).0.peak <= Max(s.peak, Load(s) + |slugs|)
    decreases |slugs|
  {
    if slugs != [] {
      var n := if |slugs| <= SUB_BATCH then |slugs| else SUB_BATCH;
      FlatAppend(s.held, Batch(Minted(s), slugs[..n]));
      AsksWithin(Subscribed(s, slugs[..n], env).0, slugs[n..], env);
    }
  }

  /**
   * Adding slugs to a connected shard keeps the cap whatever the network does if and only if they fit beside what the
   * venue really holds; filling the shard does if and only if the venue holds no more than the shard has desired.
   */
  lemma AddsKeepTheCapExactly(s: Shard, take: seq<Slug>)
    requires s.up && s.peak <= MAX_SUBS && |s.meta| <= MAX_SUBS
    ensures (forall env :: Extended(s, take, env).0.peak <= MAX_SUBS) <==> take == [] || Load(s) + |take| <= MAX_SUBS
    ensures take != [] && |take| == Room(s) ==>
              ((forall env :: Extended(s, take, env).0.peak <= MAX_SUBS) <==> Load(s) <= |s.meta|)
    ensures Extended(s, take, FINE).0.peak <= MAX_SUBS <==> take == [] || Load(s) + |take| <= MAX_SUBS
  {
    var wants := s.(meta := s.meta + take);
    AllAreHeld(wants, take);
    forall env ensures Extended(s, take, env).0.peak <= Max(s.peak, Load(s) + |take|) { AsksWithin(wants, take, env); }
    if take != [] && Load(s) + |take| > MAX_SUBS { assert Extended(s, take, FINE).0.peak > MAX_SUBS; }
  }

  ghost predicate WithinCap(shards: seq<Shard>) {
    forall i {:trigger shards[i]} :: 0 <= i < |shards| ==> shards[i].peak <= MAX_SUBS && |shards[i].meta| <= MAX_SUBS
  }

  /** The venue holds more on this connection than the shard knows, and the shard is thought to have room. */
  predicate Overheld(s: Shard) {
    s.up && |s.meta| < MAX_SUBS && Load(s) > |s.meta|
  }

  lemma TakeKeepsCap(s: Shard, pending: seq<Slug>, env: Env)
    requires s.peak <= MAX_SUBS && |s.meta| <= MAX_SUBS && !Overheld(s)
    ensures var t := Extended(s, pending[..Least(Room(s), |pending|)], env).0;
            t.peak <= MAX_SUBS && |t.meta| <= MAX_SUBS
  {
    var take := pending[..Least(Room(s), |pending|)];
    ExtendedMeta(s, take, env);
    if s.up { AddsKeepTheCapExactly(s, take); }
  }

  lemma {:induction false} SubscribedAllMeta(s: Shard, slugs: seq<Slug>, env: Env)
    ensures SubscribedAll(s, slugs, env).0.meta == s.meta
    decreases |slugs|
  {
    if slugs != [] {
      var n := if |slugs| <= SUB_BATCH then |slugs| else SUB_BATCH;
      SubscribedAllMeta(Subscribed(s, slugs[..n], env).0, slugs[n..], env);
    }
  }

  lemma ExtendedMeta(s: Shard, take: seq<Slug>, env: Env)
    ensures Extended(s, take, env).0.meta == s.meta + take
  {
    SubscribedAllMeta(s.(meta := s.meta + take), take, env);
  }

  lemma {:induction false} AddingWithin(shards: seq<Shard>, oks: seq<bool>, i: nat, pending: seq<Slug>, env: Env)
    requires |oks| == |shards| && i <= |shards| && WithinCap(shards)
    requires forall j {:trigger shards[j]} :: i <= j < |shards| && oks[j] ==> !Overheld(shards[j])
    ensures WithinCap(AddFrom(shards, oks, i, pending, env).0)
    decreases |shards| - i
  {
    if i == |shards| {
    } else if pending == [] || !oks[i] {
      AddingWithin(shards, oks, i + 1, pending, env);
    } else {
      var n := Least(Room(shards[i]), |pending|);
      var (t, ok) := Extended(shards[i], pending[..n], env);
      TakeKeepsCap(shards[i], pending, env);
      AddingWithin(shards[i := t], oks[i := ok], i + 1, pending[n..], env);
    }
  }

  lemma {:induction false} LaterAddsKeep(shards: seq<Shard>, oks: seq<bool>, i: nat, at: nat, pending: seq<Slug>)
    requires |oks| == |shards| && i < at <= |shards|
    ensures AddFrom(shards, oks, at, pending, FINE).0[i] == shards[i]
    decreases |shards| - at
  {
    if at == |shards| {
    } else if pending == [] || !oks[at] {
      LaterAddsKeep(shards, oks, i, at + 1, pending);
    } else {
      var n := Least(Room(shards[at]), |pending|);
      var (t, ok) := Extended(shards[at], pending[..n], FINE);
      LaterAddsKeep(shards[at := t], oks[at := ok], i, at + 1, pending[n..]);
    }
  }

  /** Enough new slugs fill every healthy shard up to this one, and then ask too much of it. */
  lemma {:induction false} FillingPasses(shards: seq<Shard>, oks: seq<bool>, i: nat, at: nat, pending: seq<Slug>)
    requires |oks| == |shards| && at <= i < |shards| && oks[i] && Overheld(shards[i])
    requires |pending| >= (i - at + 1) * MAX_SUBS && shards[i].peak <= MAX_SUBS
    ensures AddFrom(shards, oks, at, pending, FINE).0[i].peak > MAX_SUBS
    decreases i - at
  {
    if at < i && !oks[at] {
      FillingPasses(shards, oks, i, at + 1, pending);
    } else {
      var n := Least(Room(shards[at]), |pending|);
      var (t, ok) := Extended(shards[at], pending[..n], FINE);
      if at < i {
        FillingPasses(shards[at := t], oks[at := ok], i, at + 1, pending[n..]);
      } else {
        AddsKeepTheCapExactly(shards[i], pending[..n]);
        LaterAddsKeep(shards[i := t], oks[i := ok], i, i + 1, pending[n..]);
      }
    }
  }

  lemma OverheldPasses(shards: seq<Shard>, oks: seq<bool>, i: nat) returns (pending: seq<Slug>)
    requires |oks| == |shards| && WithinCap(shards) && i < |shards| && oks[i] && Overheld(shards[i])
    ensures !WithinCap(AddFrom(shards, oks, 0, pending, FINE).0)
  {
    pending := Names((i + 1) * MAX_SUBS);
    FillingPasses(shards, oks, i, 0, pending);
  }

  /**
   * Placing new slugs keeps the cap, whatever they are and whatever the network does, if and only if no healthy
   * connection with room is held for more than its shard has desired.
   */
  lemma AddingKeepsTheCapExactly(shards: seq<Shard>, oks: seq<bool>)
    requires |oks| == |shards| && WithinCap(shards)
    ensures (forall pending, env :: WithinCap(AddFrom(shards, oks, 0, pending, env).0))
            <==> forall i {:trigger shards[i]} :: 0 <= i < |shards| && oks[i] ==> !Overheld(shards[i])
  {
    if forall i {:trigger shards[i]} :: 0 <= i < |shards| && oks[i] ==> !Overheld(shards[i]) {
      forall pending, env ensures WithinCap(AddFrom(shards, oks, 0, pending, env).0) {
        AddingWithin(shards, oks, 0, pending, env);
      }
    } else {
      var i :| 0 <= i < |shards| && oks[i] && Overheld(shards[i]);
      var pending := OverheldPasses(shards, oks, i);
    }
  }

  /** A small desired set is one batch. */
  lemma ConnectSmall(s: Shard)
    requires 0 < |s.meta| <= SUB_BATCH
    ensures var t := Connected(s, FINE);
            t.up && t.batches == t.held == [Batch(Minted(s), s.meta)] && t.meta == s.meta && t.index == s.index
  {
    var start := s.(up := true, batches := [], held := [], todo := []);
    var first := Subscribed(start, s.meta, FINE).0;
    assert s.meta[..|s.meta|] == s.meta && s.meta[|s.meta|..] == [];
    assert SubscribedAll(first, [], FINE) == (first, true);
    assert first.held == [] + [Batch(Minted(s), s.meta)];
  }

  lemma FineConnectSettles(s: Shard)
    requires NoDuplicates(s.meta) && |s.meta| <= MAX_SUBS && s.peak <= MAX_SUBS
    ensures Settled(Connected(s, FINE)) && Connected(s, FINE).meta == s.meta && Connected(s, FINE).index == s.index
  {
    AllAreHeld(s.(up := true, batches := [], held := [], todo := []), s.meta);
    ConnectSettles(s, FINE);
  }

  /** Two settled shards: a full one, and one with the two slugs `y` and `z` in one batch. */
  ghost predicate FullAndSmall(z: State, a: seq<Slug>, y: Slug, s: Slug) {
    && z.cycle.Idle? && |z.shards| == 2 && |a| == MAX_SUBS && NoDuplicates(a + [y, s])
    && Settled(z.shards[0]) && z.shards[0].meta == a
    && Settled(z.shards[1]) && z.shards[1].meta == [y, s]
    && |z.shards[1].batches| == 1 && z.shards[1].batches[0].slugs == [y, s]
  }

  lemma TwoShardsStart(a: seq<Slug>, y: Slug, s: Slug)
    requires |a| == MAX_SUBS
    ensures Initial(a + [y, s]).shards == [NewShard(0, a), NewShard(1, [y, s])]
  {
    var slugs := a + [y, s];
    assert slugs[..MAX_SUBS] == a && slugs[MAX_SUBS..] == [y, s] && [y, s][..2] == [y, s] && [y, s][2..] == [];
    assert FreshShards(2, []) == [];
    assert FreshShards(1, [y, s]) == [NewShard(1, [y, s])] + FreshShards(2, []);
  }

  /** Both shards connect, one after the other. */
  lemma BothConnect(start: State) returns (states: seq<State>, events: seq<Event>)
    requires start.cycle.Idle? && |start.shards| == 2 && !start.shards[0].up && !start.shards[1].up
    ensures Steps(states, events) && states[0] == start
    ensures Last(states) == State([Connected(start.shards[0], FINE), Connected(start.shards[1], FINE)], Idle)
  {
    states, events := [start], [];
    states, events := ConnectIsARun(states, events, 0, FINE);
    assert Last(states).shards == [Connected(start.shards[0], FINE), start.shards[1]];
    states, events := ConnectIsARun(states, events, 1, FINE);
    assert Last(states).shards == [Connected(start.shards[0], FINE), Connected(start.shards[1], FINE)];
  }

  lemma ConnectedFullAndSmall(a: seq<Slug>, y: Slug, s: Slug)
    requires |a| == MAX_SUBS && NoDuplicates(a + [y, s])
    ensures FullAndSmall(State([Connected(NewShard(0, a), FINE), Connected(NewShard(1, [y, s]), FINE)], Idle), a, y, s)
  {
    SplitDistinct(a + [y, s], |a|);
    assert (a + [y, s])[..|a|] == a && (a + [y, s])[|a|..] == [y, s];
    FineConnectSettles(NewShard(0, a));
    FineConnectSettles(NewShard(1, [y, s]));
    ConnectSmall(NewShard(1, [y, s]));
  }

  lemma FullAndSmallRun(a: seq<Slug>, y: Slug, s: Slug) returns (states: seq<State>, events: seq<Event>)
    requires |a| == MAX_SUBS && NoDuplicates(a + [y, s])
    ensures Run(a + [y, s], states, events) && FullAndSmall(Last(states), a, y, s)
  {
    TwoShardsStart(a, y, s);
    ConnectedFullAndSmall(a, y, s);
    states, events := BothConnect(Initial(a + [y, s]));
  }

  /** The full shard's first slug and `y` are no longer wanted. */
  function Smaller(a: seq<Slug>, s: Slug): seq<Slug>
    requires a != []
  {
    a[1..] + [s]
  }

  /** The stale batch of the full shard is the one with its first slug. */
  lemma FirstIsStale(s: Shard, wanted: set<Slug>)
    requires Settled(s) && s.meta != [] && forall x :: x in s.meta ==> (x in wanted <==> x != s.meta[0])
    ensures var stale := Stale(s.batches, wanted);
            stale != [] && stale[0] in s.batches && s.meta[0] in stale[0].slugs
  {
    var x := s.meta[0];
    DeadIsStale(s, wanted, x);
    StaleMembers(s.batches, wanted);
    var b := Stale(s.batches, wanted)[0];
    assert b in Stale(s.batches, wanted);
    var i :| 0 <= i < |b.slugs| && b.slugs[i] !in wanted;
    TidyCovers(s, b.slugs[i]);
    assert InSome(b.slugs[i], s.batches);
  }

  /** What is left of the full shard when its unsubscribe goes unconfirmed: one slug fewer wanted, all of them held. */
  ghost predicate Leftover(s: Shard, a: seq<Slug>) {
    && s.up && a != [] && Load(s) == MAX_SUBS && |s.meta| < MAX_SUBS
    && (forall x :: x in s.meta <==> x in a && x != a[0])
    && (forall b, x :: b in s.batches && x in b.slugs ==> x in a && x != a[0])
  }

  lemma ForgottenIsLeftover(s: Shard, b: Batch, wanted: set<Slug>)
    requires Settled(s) && |s.meta| == MAX_SUBS && forall x :: x in s.meta ==> (x in wanted <==> x != s.meta[0])
    requires b in s.batches && s.meta[0] in b.slugs
    ensures Leftover(Forgotten(s, b, wanted), s.meta)
  {
    var t, x := Forgotten(s, b, wanted), s.meta[0];
    DropKeepsDistinct(s.meta, b.slugs, wanted);
    TilesCount(Flat(s.batches), [], [], s.meta, x);
    assert |t.meta| < |s.meta| by {
      CountElements(s.meta);
      CountElements(t.meta);
      assert Elements(t.meta) + {x} == Elements(s.meta);
      assert x !in Elements(t.meta);
    }
    WithoutMembers(s.batches, b.rid);
    forall c, u | c in t.batches && u in c.slugs ensures u in s.meta && u != x {
      TidyCovers(s, u);
      assert InSome(u, s.batches);
      OneBatchEach(s, b, c, x);
    }
  }

  /** The resync is waiting for the small shard's answer, with the full one failed and still connected. */
  ghost predicate HalfFailed(z: State, a: seq<Slug>, s: Slug) {
    && Aligned(z) && |z.shards| == 2 && z.cycle.Pruning? && z.cycle.at == 1 && z.cycle.doing.Resuming?
    && !z.cycle.work.oks[0] && Leftover(z.shards[0], a) && z.shards[0].peak <= MAX_SUBS
    && z.shards[1].up && s in Survivors(z) && z.shards[1].meta == [s] && z.shards[1].batches == []
  }

  lemma SmallTaken(y: Slug, s: Slug, wanted: set<Slug>, b: Batch)
    requires y != s && y !in wanted && s in wanted && b.slugs == [y, s]
    ensures IsStale(b, wanted) && Stale([b], wanted) == [b]
    ensures Keep([y, s], wanted) == [s] && Drop([y, s], [y, s], wanted) == [s] && Without([b], b.rid) == []
  {
    assert b.slugs[0] == y;
    assert [b][..0] == [] && Stale([], wanted) == [] && Without([], b.rid) == [];
    assert [y, s][..1] == [y] && [y][..0] == [];
    assert Keep([], wanted) == [] && Drop([], [y, s], wanted) == [] && y in [y, s] && s in [y, s];
    assert Keep([y], wanted) == [] && Drop([y], [y, s], wanted) == [];
  }

  /** The full shard has failed and is left over; the small one's turn comes. */
  ghost predicate FirstFailed(z: State, a: seq<Slug>, y: Slug, s: Slug) {
    && Aligned(z) && |z.shards| == 2 && z.cycle.Pruning? && z.cycle.at == 1 && z.cycle.doing.Ready?
    && a != [] && z.cycle.work.desired == Smaller(a, s) && !z.cycle.work.oks[0]
    && Leftover(z.shards[0], a) && z.shards[0].peak <= MAX_SUBS
    && z.shards[1].up && z.shards[1].meta == [y, s]
    && |z.shards[1].batches| == 1 && z.shards[1].batches[0].slugs == [y, s]
    && z.cycle.stale == Stale(z.shards[1].batches, Wanted(z.cycle.work))
  }

  lemma FirstFailedRun(a: seq<Slug>, y: Slug, s: Slug, states: seq<State>, events: seq<Event>)
    returns (longer: seq<State>, more: seq<Event>)
    requires Steps(states, events) && FullAndSmall(Last(states), a, y, s)
    ensures Steps(longer, more) && states <= longer && FirstFailed(Last(longer), a, y, s)
  {
    var desired, wanted, z := Smaller(a, s), Elements(Smaller(a, s)), Last(states);
    var big, small := z.shards[0], z.shards[1];
    SmallerMeans(a, y, s);
    TwoCurrent(z.shards);
    assert y in Current(z.shards);
    FirstIsStale(big, wanted);
    var b := Stale(big.batches, wanted)[0];
    ForgottenIsLeftover(big, b, wanted);
    longer, more := Extend(states, events, Begin(desired));
    longer, more := Extend(longer, more, Take);
    longer, more := Extend(longer, more, Unconfirmed(false));
    assert Last(longer).shards == [Forgotten(big, b, wanted), small];
  }

  /** The small shard's batch is forgotten, its unsubscribe on the way. */
  ghost predicate HalfTaken(z: State, a: seq<Slug>, y: Slug, s: Slug) {
    && Aligned(z) && |z.shards| == 2 && z.cycle.Pruning? && z.cycle.at == 1 && z.cycle.doing.Waiting?
    && !z.cycle.work.oks[0] && Leftover(z.shards[0], a) && z.shards[0].peak <= MAX_SUBS
    && z.shards[1].up && z.shards[1].meta == [s] && z.shards[1].batches == []
    && z.cycle.doing.batch.slugs == [y, s] && Keep([y, s], Wanted(z.cycle.work)) == [s]
  }

  lemma HalfTakenRun(a: seq<Slug>, y: Slug, s: Slug, states: seq<State>, events: seq<Event>)
    returns (longer: seq<State>, more: seq<Event>)
    requires Steps(states, events) && FirstFailed(Last(states), a, y, s) && NoDuplicates(a + [y, s])
    ensures Steps(longer, more) && states <= longer && HalfTaken(Last(longer), a, y, s)
  {
    var z, wanted := Last(states), Elements(Smaller(a, s));
    var small := z.shards[1];
    SmallerMeans(a, y, s);
    SmallTaken(y, s, wanted, small.batches[0]);
    assert small.batches == [small.batches[0]];
    longer, more := Extend(states, events, Take);
  }

  lemma HalfFailedRun(a: seq<Slug>, y: Slug, s: Slug, states: seq<State>, events: seq<Event>)
    returns (longer: seq<State>, more: seq<Event>)
    requires Steps(states, events) && HalfTaken(Last(states), a, y, s)
    ensures Steps(longer, more) && states <= longer && HalfFailed(Last(longer), a, s)
  {
    longer, more := Extend(states, events, Confirm);
  }

  lemma SmallerMeans(a: seq<Slug>, y: Slug, s: Slug)
    requires a != [] && NoDuplicates(a + [y, s])
    ensures NoDuplicates(Smaller(a, s)) && y !in Smaller(a, s) && s in Smaller(a, s) && y != s
    ensures forall x :: x in a ==> (x in Smaller(a, s) <==> x != a[0])
  {
    var all, d := a + [y, s], Smaller(a, s);
    assert all[|a|] == y && all[|a| + 1] == s;
    assert forall i :: 0 <= i < |a| ==> all[i] == a[i];
    assert forall i :: 0 <= i < |a| - 1 ==> d[i] == all[i + 1];
    assert d[|a| - 1] == s;
    forall x | x in a ensures x in d <==> x != a[0] {
      var i :| 0 <= i < |a| && a[i] == x;
      if i > 0 { assert d[i - 1] == x; }
    }
  }

  lemma TwoCurrent(shards: seq<Shard>)
    requires |shards| == 2
    ensures Current(shards) == Elements(shards[0].meta) + Elements(shards[1].meta)
  {
    assert shards == [shards[0]] + [shards[1]];
    JoinShards([shards[0]], [shards[1]]);
    OneShard(shards[0]);
    OneShard(shards[1]);
  }

  /** After the crash: nothing under way, the full shard as the failed prune left it, the small one down. */
  ghost predicate LeftBehind(z: State, a: seq<Slug>, s: Slug) {
    && z.cycle.Idle? && |z.shards| == 2 && Leftover(z.shards[0], a) && z.shards[0].peak <= MAX_SUBS
    && !z.shards[1].up && z.shards[1].meta == [s] && z.shards[1].batches == []
  }

  lemma CrashRun(a: seq<Slug>, s: Slug, states: seq<State>, events: seq<Event>)
    returns (longer: seq<State>, more: seq<Event>, crash: nat)
    requires Steps(states, events) && HalfFailed(Last(states), a, s)
    ensures Steps(longer, more) && states <= longer && LeftBehind(Last(longer), a, s)
    ensures events <= more && crash < |more| && Strands(longer[crash], more[crash])
  {
    longer, more := Extend(states, events, Lose(1));
    crash := |more|;
    assert Strands(Last(longer), Resubscribe(FINE));
    longer, more := Extend(longer, more, Resubscribe(FINE));
  }

  /** Nothing to prune: the next resync comes to the slugs it has to add. */
  lemma NothingToPrune(states: seq<State>, events: seq<Event>, desired: seq<Slug>)
    returns (longer: seq<State>, more: seq<Event>)
    requires Steps(states, events) && Enabled(Last(states), Begin(desired)) && |Last(states).shards| == 2
    requires forall i :: 0 <= i < 2 ==> Stale(Last(states).shards[i].batches, Elements(desired)) == []
    ensures Steps(longer, more) && states <= longer && events <= more
    ensures Last(longer).shards == Last(states).shards && Last(longer).cycle.Adding? && Last(longer).cycle.at == 0
    ensures Last(longer).cycle.rest == [] && Last(longer).cycle.work.oks == [true, true]
    ensures Last(longer).cycle.work.pending == Added(Current(Last(states).shards), desired)
  {
    longer, more := Extend(states, events, Begin(desired));
    longer, more := Extend(longer, more, Pass);
    longer, more := Extend(longer, more, Pass);
  }

  /** A live shard held full that is thought to have room is asked for more. */
  lemma FullIsAsked(states: seq<State>, events: seq<Event>) returns (longer: seq<State>, more: seq<Event>)
    requires Steps(states, events) && Enabled(Last(states), Place) && Last(states).cycle.at == 0
    requires Last(states).cycle.work.pending != [] && Last(states).cycle.work.oks[0]
    requires var s := Last(states).shards[0]; s.up && Load(s) == MAX_SUBS && |s.meta| < MAX_SUBS
    ensures Steps(longer, more) && states <= longer && events <= more
    ensures Last(longer).shards != [] && Last(longer).shards[0].peak > MAX_SUBS
  {
    longer, more := Extend(states, events, Place);
    longer, more := Extend(longer, more, SendAdd(FINE));
  }

  /** It believes in one free place and asks for one slug too many. */
  lemma OneTooMany(a: seq<Slug>, s: Slug, w: Slug, states: seq<State>, events: seq<Event>)
    returns (longer: seq<State>, more: seq<Event>)
    requires Steps(states, events) && LeftBehind(Last(states), a, s) && NoDuplicates(a + [s]) && w !in a && w != s
    ensures Steps(longer, more) && states <= longer && events <= more
    ensures Last(longer).shards != [] && Last(longer).shards[0].peak > MAX_SUBS
  {
    var desired, z := Smaller(a, s) + [w], Last(states);
    OneMore(a, s, w);
    TwoCurrent(z.shards);
    AddedMeans(Current(z.shards), desired);
    assert w in Added(Current(z.shards), desired);
    NoneStale(z.shards[0].batches, Elements(desired));
    NoneStale(z.shards[1].batches, Elements(desired));
    longer, more := NothingToPrune(states, events, desired);
    longer, more := FullIsAsked(longer, more);
  }

  lemma OneMore(a: seq<Slug>, s: Slug, w: Slug)
    requires a != [] && NoDuplicates(a + [s]) && w !in a && w != s
    ensures NoDuplicates(Smaller(a, s) + [w]) && forall x :: x in a && x != a[0] ==> x in Smaller(a, s) + [w]
  {
    var all, d := a + [s], Smaller(a, s) + [w];
    assert all[|a|] == s && d[|a| - 1] == s && d[|a|] == w;
    assert forall i :: 0 <= i < |a| - 1 ==> d[i] == a[i + 1] == all[i + 1];
    forall x | x in a && x != a[0] ensures x in d {
      var i :| 0 <= i < |a| && a[i] == x;
      assert d[i - 1] == x;
    }
  }

  lemma PassesTheCap(a: seq<Slug>, y: Slug, s: Slug, w: Slug)
    returns (states: seq<State>, events: seq<Event>, crash: nat)
    requires |a| == MAX_SUBS && NoDuplicates(a + [y, s]) && NoDuplicates(a + [s]) && w !in a && w != s
    ensures Run(a + [y, s], states, events) && crash < |events| && Strands(states[crash], events[crash])
    ensures Last(states).shards != [] && Last(states).shards[0].peak > MAX_SUBS
  {
    states, events := FullAndSmallRun(a, y, s);
    states, events := FirstFailedRun(a, y, s, states, events);
    states, events := HalfTakenRun(a, y, s, states, events);
    states, events := HalfFailedRun(a, y, s, states, events);
    states, events, crash := CrashRun(a, s, states, events);
    states, events := OneTooMany(a, s, w, states, events);
  }

  /**
   * A run that passes the cap: the unsubscribe of a full shard goes unconfirmed; the connection of the next shard drops
   * between its unsubscribe's answer and its resubscribe, whose error ends the resync before the full shard is
   * recycled; and the next resync fills the place the full shard is thought to have.
   */
  lemma StrandedShardPassesTheCap()
    returns (slugs: seq<Slug>, states: seq<State>, events: seq<Event>, crash: nat)
    ensures Run(slugs, states, events) && crash < |events| && Strands(states[crash], events[crash])
    ensures exists s :: s in Last(states).shards && s.peak > MAX_SUBS
  {
    var names := Names(MAX_SUBS + 3);
    var a, y, s, w := names[..MAX_SUBS], names[MAX_SUBS], names[MAX_SUBS + 1], names[MAX_SUBS + 2];
    slugs := a + [y, s];
    assert forall i :: 0 <= i < |slugs| ==> slugs[i] == names[i];
    assert forall i :: 0 <= i < MAX_SUBS ==> a[i] == names[i];
    states, events, crash := PassesTheCap(a, y, s, w);
    assert Last(states).shards[0] in Last(states).shards;
  }

  // ---- what a resync cannot see ----

  /** One shard not yet connected, told to drop its only slug. */
  lemma UnconnectedIsLeft(s: Shard, x: Slug, env: Env)
    requires s.meta == [x] && s.batches == [] && env.late == {}
    ensures Resynced([s], [], env, true) == Outcome([s], Live, 0, 0, [])
  {
    OneShard(s);
    assert x in Current([s]) && Added(Current([s]), []) == [];
    assert PrunedAll([s], Elements([]), env) == [s] && PruneOks([s], Elements([]), env) == [true];
    assert AddFrom([s], [true], 1, [], env) == ([s], [true], []);
    assert AddFrom([s], [true], 0, [], env) == ([s], [true], []);
    assert FreshShards(NextIndex([s]), []) == [];
    NobodyLate(s, env);
  }

  /** A resync before a shard first connects reports live, and the shard then subscribes a slug nobody wants. */
  lemma UnconnectedShardKeepsDead(x: Slug)
    ensures var z := Initial([x]);
            && |z.shards| == 1 && Resynced(z.shards, [], FINE, true) == Outcome(z.shards, Live, 0, 0, [])
            && Connected(z.shards[0], FINE).held == [Batch(Rid(0, 1), [x])]
  {
    var s := NewShard(0, [x]);
    assert [x][..1] == [x] && [x][1..] == [];
    assert FreshShards(1, []) == [] && FreshShards(0, [x]) == [s] + FreshShards(1, []) == [s];
    UnconnectedIsLeft(s, x, FINE);
    ConnectSmall(s);
  }
}
