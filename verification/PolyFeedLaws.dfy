/**
 * What a resync keeps over all connections, whatever the venue answers,
 * and what it achieves when every mutation is confirmed.
 */
module PolyFeedLaws {
  import opened Common
  import opened PolyShard
  import opened PolyShardLaws
  import opened PolyFeed

  /** Within the cap now and at every message ever sent, and a live connection's batches partition its slugs. */
  ghost predicate Sound(s: Shard, healthy: bool) {
    && NoDuplicates(s.meta) && |s.meta| <= MAX_SUBS && s.peak <= MAX_SUBS
    && (healthy && s.up ==> Tidy(s))
  }

  ghost predicate Compatible(a: Shard, b: Shard) {
    a.index != b.index && forall x :: x in a.meta ==> x !in b.meta
  }

  ghost predicate Separate(shards: seq<Shard>) {
    forall i, j {:trigger Compatible(shards[i], shards[j])} :: 0 <= i < j < |shards| ==>
        Compatible(shards[i], shards[j])
  }

  /** Every shard is sound and no slug is on two of them. */
  ghost predicate FeedOk(shards: seq<Shard>) {
    Separate(shards) && forall i {:trigger shards[i]} :: 0 <= i < |shards| ==> Sound(shards[i], true)
  }

  ghost predicate AllSound(shards: seq<Shard>, oks: seq<bool>) {
    |oks| == |shards| && forall i {:trigger shards[i]} {:trigger oks[i]} :: 0 <= i < |shards| ==>
        Sound(shards[i], oks[i])
  }

  // ---- the slugs of all shards ----

  lemma {:induction false} CurrentMeans(shards: seq<Shard>, x: Slug)
    ensures x in Current(shards) <==> exists i :: 0 <= i < |shards| && x in shards[i].meta
  {
    if shards != [] {
      CurrentMeans(shards[..|shards| - 1], x);
      assert forall i :: 0 <= i < |shards| - 1 ==> shards[..|shards| - 1][i] == shards[i];
      assert x in Elements(shards[|shards| - 1].meta) <==> x in shards[|shards| - 1].meta;
    }
  }

  lemma {:induction false} AddedMeans(current: set<Slug>, desired: seq<Slug>)
    requires NoDuplicates(desired)
    ensures NoDuplicates(Added(current, desired))
    ensures forall x :: x in Added(current, desired) <==> x in desired && x !in current
  {
    if desired != [] {
      var front := desired[..|desired| - 1];
      AddedMeans(current, front);
      assert desired == front + [desired[|desired| - 1]];
      assert desired[|desired| - 1] !in front;
    }
  }

  // ---- pruning every shard ----

  lemma {:induction false} PruneDown(s: Shard, desired: set<Slug>, stale: seq<Batch>, env: Env)
    requires !s.up
    ensures var (t, ok, left) := PruneFrom(s, desired, stale, env);
            ok && left == [] && !t.up && t.index == s.index && t.peak == s.peak && t.ridSeq == s.ridSeq
    decreases |stale|
  {
    if stale != [] { PruneDown(PrunedBatch(s, stale[0], desired, env).0, desired, stale[1..], env); }
  }

  lemma PruneKeepsSound(s: Shard, desired: set<Slug>, env: Env)
    requires Sound(s, true)
    ensures var (t, ok, left) := Pruned(s, desired, env);
            && Sound(t, ok) && t.index == s.index && t.up == s.up && t.ridSeq >= s.ridSeq
            && (forall x :: x in t.meta ==> x in s.meta) && (forall x :: x in s.meta && x in desired ==> x in t.meta)
  {
    var stale := Stale(s.batches, desired);
    PruneRemoves(s, desired, stale, env);
    if s.up {
      StaleMembers(s.batches, desired);
      StaleIsDistinct(s.batches, desired);
      PruningStaysTidy(s, desired, stale, env);
    } else {
      PruneDown(s, desired, stale, env);
    }
  }

  lemma PruneAllKeeps(shards: seq<Shard>, desired: set<Slug>, env: Env)
    requires FeedOk(shards)
    ensures AllSound(PrunedAll(shards, desired, env), PruneOks(shards, desired, env))
    ensures Separate(PrunedAll(shards, desired, env))
    ensures Current(PrunedAll(shards, desired, env)) <= Current(shards)
    ensures forall x :: x in Current(shards) && x in desired ==> x in Current(PrunedAll(shards, desired, env))
  {
    var ps := PrunedAll(shards, desired, env);
    forall i | 0 <= i < |shards|
      ensures Sound(ps[i], PruneOks(shards, desired, env)[i]) && ps[i].index == shards[i].index
      ensures (forall x :: x in ps[i].meta ==> x in shards[i].meta)
      ensures (forall x :: x in shards[i].meta && x in desired ==> x in ps[i].meta)
    {
      PruneKeepsSound(shards[i], desired, env);
    }
    forall i, j | 0 <= i < j < |ps| ensures Compatible(ps[i], ps[j]) { assert Compatible(shards[i], shards[j]); }
    forall x
      ensures (x in Current(ps) ==> x in Current(shards)) && (x in Current(shards) && x in desired ==> x in Current(ps))
    {
      CurrentMeans(ps, x);
      CurrentMeans(shards, x);
    }
  }

  // ---- adding ----

  /** `t` is shard `s` with some of the new slugs: still tidy and, unless refused, still in step with the venue. */
  ghost predicate Grown(env: Env, s: Shard, ok: bool, t: Shard, after: bool) {
    && t.index == s.index && t.up == s.up && t.todo == s.todo && t.ridSeq >= s.ridSeq && (after ==> ok)
    && (after && s.up && Tidy(s) && s.held == s.batches && Accepted(env, s, t) ==> Tidy(t) && t.held == t.batches)
    && (after && s.up ==> forall from: nat {:trigger Shows(env, from, s)} ::
          from <= s.ridSeq && Shows(env, from, s) ==> Shows(env, from, t))
  }

  lemma ExtendKeepsSound(s: Shard, take: seq<Slug>, env: Env)
    requires Sound(s, true) && NoDuplicates(take) && |s.meta| + |take| <= MAX_SUBS
    requires forall x :: x in take ==> x !in s.meta
    ensures var (t, ok) := Extended(s, take, env);
            Sound(t, ok) && Grown(env, s, true, t, ok) && t.meta == s.meta + take
  {
    var wants := s.(meta := s.meta + take);
    assert NoDuplicates(wants.meta) by { JoinDistinct(s.meta, take); }
    if s.up && take != [] {
      assert multiset(s.meta + take) == multiset(s.meta) + multiset(take);
      assert Partial(wants, take);
      SubscribeAllSettles(wants, take, env);
      var (t, ok) := Extended(s, take, env);
      forall from: nat | ok && from <= s.ridSeq && Shows(env, from, s) ensures Shows(env, from, t) {
        assert Shows(env, from, wants);
        SubscribeAllShows(wants, take, env, from);
      }
    } else if take == [] {
      assert wants == s;
    }
  }

  lemma SplitDistinct(s: seq<Slug>, n: nat)
    requires NoDuplicates(s) && n <= |s|
    ensures NoDuplicates(s[..n]) && NoDuplicates(s[n..]) && forall x :: x in s[..n] ==> x !in s[n..]
    ensures forall x :: x in s <==> x in s[..n] || x in s[n..]
  {
    assert s == s[..n] + s[n..];
    forall x | x in s[..n] ensures x !in s[n..] {
      var i :| 0 <= i < n && s[..n][i] == x;
      assert s[i] == x;
      assert forall j :: 0 <= j < |s[n..]| ==> s[n..][j] == s[n + j] && s[n + j] != x;
    }
  }

  /** None of these slugs is on any shard. */
  ghost predicate Unplaced(pending: seq<Slug>, shards: seq<Shard>) {
    NoDuplicates(pending) && forall x :: x in pending ==> x !in Current(shards)
  }

  /** Giving the first of the pending slugs to shard `i` keeps the shards apart and loses no slug. */
  lemma PlaceKeeps(shards: seq<Shard>, i: nat, t: Shard, pending: seq<Slug>, n: nat)
    requires Separate(shards) && i < |shards| && n <= |pending| && Unplaced(pending, shards)
    requires t.index == shards[i].index && t.meta == shards[i].meta + pending[..n]
    ensures Separate(shards[i := t]) && Unplaced(pending[n..], shards[i := t])
    ensures forall x :: x in Current(shards[i := t]) || x in pending[n..] <==> x in Current(shards) || x in pending
  {
    var more := shards[i := t];
    SplitDistinct(pending, n);
    forall x ensures x in Current(more) <==> x in Current(shards) || x in pending[..n] {
      CurrentMeans(more, x);
      CurrentMeans(shards, x);
      assert x in t.meta <==> x in shards[i].meta || x in pending[..n];
      assert more[i] == t;
      assert forall j :: 0 <= j < |shards| && j != i ==> more[j] == shards[j];
    }
    forall j, k | 0 <= j < k < |more| ensures Compatible(more[j], more[k]) {
      assert Compatible(shards[j], shards[k]);
      forall x | x in pending[..n] ensures (j != i ==> x !in shards[j].meta) && (k != i ==> x !in shards[k].meta) {
        CurrentMeans(shards, x);
      }
    }
  }

  lemma {:induction false} AddKeeps(shards: seq<Shard>, oks: seq<bool>, i: nat, pending: seq<Slug>, env: Env)
    requires AllSound(shards, oks) && Separate(shards) && i <= |shards| && Unplaced(pending, shards)
    ensures var (after, now, rest) := AddFrom(shards, oks, i, pending, env);
            && AllSound(after, now) && Separate(after) && Unplaced(rest, after)
            && (forall j {:trigger after[j]} :: 0 <= j < |shards| ==> Grown(env, shards[j], oks[j], after[j], now[j]))
            && (forall j {:trigger after[j]} :: 0 <= j < i ==> after[j] == shards[j] && now[j] == oks[j])
            && (forall x :: x in Current(after) || x in rest <==> x in Current(shards) || x in pending)
    decreases |shards| - i, 1
  {
    if i < |shards| {
      if pending == [] || !oks[i] {
        AddKeeps(shards, oks, i + 1, pending, env);
      } else {
        AddStep(shards, oks, i, pending, env);
      }
    }
  }

  lemma {:induction false} AddStep(shards: seq<Shard>, oks: seq<bool>, i: nat, pending: seq<Slug>, env: Env)
    requires AllSound(shards, oks) && Separate(shards) && i < |shards| && Unplaced(pending, shards) && pending != []
    requires oks[i]
    ensures var (after, now, rest) := AddFrom(shards, oks, i, pending, env);
            && AllSound(after, now) && Separate(after) && Unplaced(rest, after)
            && (forall j {:trigger after[j]} :: 0 <= j < |shards| ==> Grown(env, shards[j], oks[j], after[j], now[j]))
            && (forall j {:trigger after[j]} :: 0 <= j < i ==> after[j] == shards[j] && now[j] == oks[j])
            && (forall x :: x in Current(after) || x in rest <==> x in Current(shards) || x in pending)
    decreases |shards| - i, 0
  {
    var n := Least(Room(shards[i]), |pending|);
    var (t, ok) := Extended(shards[i], pending[..n], env);
    SplitDistinct(pending, n);
    forall x | x in pending[..n] ensures x !in shards[i].meta {
      assert x in pending;
      CurrentMeans(shards, x);
    }
    ExtendKeepsSound(shards[i], pending[..n], env);
    PlaceKeeps(shards, i, t, pending, n);
    AddKeeps(shards[i := t], oks[i := ok], i + 1, pending[n..], env);
  }

  // ---- new shards and the end ----

  lemma {:induction false} NextIndexAbove(shards: seq<Shard>)
    ensures forall i :: 0 <= i < |shards| ==> shards[i].index < NextIndex(shards)
  {
    if shards != [] {
      NextIndexAbove(shards[..|shards| - 1]);
      assert forall i :: 0 <= i < |shards| - 1 ==> shards[..|shards| - 1][i] == shards[i];
    }
  }

  /** New shards: not connected yet, within the cap, apart, numbered from `index` on. */
  ghost predicate FreshFrom(more: seq<Shard>, index: nat) {
    && Separate(more)
    && forall i {:trigger more[i]} :: 0 <= i < |more| ==>
       more[i].index >= index && !more[i].up && more[i].ridSeq == 0 && Sound(more[i], true)
  }

  lemma FreshJoins(s: Shard, rest: seq<Shard>, index: nat)
    requires FreshFrom(rest, index + 1) && s.index == index && !s.up && s.ridSeq == 0 && Sound(s, true)
    requires forall x :: x in s.meta ==> x !in Current(rest)
    ensures FreshFrom([s] + rest, index)
  {
    forall i | 0 <= i < |rest| ensures Compatible(s, rest[i]) {
      forall x | x in s.meta ensures x !in rest[i].meta { CurrentMeans(rest, x); }
    }
    SeparateJoins([s], rest);
  }

  lemma {:induction false} FreshMeans(index: nat, pending: seq<Slug>)
    requires NoDuplicates(pending)
    ensures FreshFrom(FreshShards(index, pending), index)
    ensures forall x :: x in Current(FreshShards(index, pending)) <==> x in pending
    decreases |pending|
  {
    if pending != [] {
      var n := Least(MAX_SUBS, |pending|);
      SplitDistinct(pending, n);
      FreshMeans(index + 1, pending[n..]);
      var s, rest := NewShard(index, pending[..n]), FreshShards(index + 1, pending[n..]);
      FreshJoins(s, rest, index);
      JoinShards([s], rest);
      OneShard(s);
    }
  }

  lemma OneShard(s: Shard)
    ensures Current([s]) == Elements(s.meta)
  {
    assert [s][..0] == [];
    assert Current([s][..0]) == {};
  }

  lemma {:induction false} JoinShards(a: seq<Shard>, b: seq<Shard>)
    ensures Current(a + b) == Current(a) + Current(b)
  {
    forall x ensures x in Current(a + b) <==> x in Current(a) || x in Current(b) {
      CurrentMeans(a + b, x);
      CurrentMeans(a, x);
      CurrentMeans(b, x);
      assert forall i :: 0 <= i < |a| ==> (a + b)[i] == a[i];
      assert forall i :: 0 <= i < |b| ==> (a + b)[|a| + i] == b[i];
    }
  }

  lemma SeparateJoins(a: seq<Shard>, b: seq<Shard>)
    requires Separate(a) && Separate(b)
    requires forall i, j {:trigger a[i], b[j]} :: 0 <= i < |a| && 0 <= j < |b| ==> Compatible(a[i], b[j])
    ensures Separate(a + b)
  {
    forall i, j | 0 <= i < j < |a + b| ensures Compatible((a + b)[i], (a + b)[j]) {
      if j < |a| { assert Compatible(a[i], a[j]); }
      else if i >= |a| { assert Compatible(b[i - |a|], b[j - |a|]); }
      else { assert Compatible(a[i], b[j - |a|]); }
    }
  }

  lemma FinishKeeps(shards: seq<Shard>, oks: seq<bool>, env: Env)
    requires AllSound(shards, oks) && Separate(shards)
    ensures FeedOk(FinishedAll(shards, oks, env)) && Current(FinishedAll(shards, oks, env)) == Current(shards)
  {
    var done := FinishedAll(shards, oks, env);
    forall i | 0 <= i < |shards|
      ensures done[i].meta == shards[i].meta && done[i].index == shards[i].index && Sound(done[i], true)
    {
      assert Sound(shards[i], oks[i]);
      if Kept(shards[i], oks[i], env) { assert done[i] == shards[i]; }
    }
    forall i, j | 0 <= i < j < |done| ensures Compatible(done[i], done[j]) { assert Compatible(shards[i], shards[j]); }
    forall x ensures x in Current(done) <==> x in Current(shards) {
      CurrentMeans(done, x);
      CurrentMeans(shards, x);
    }
  }

  lemma SpawnApart(kept: seq<Shard>, pending: seq<Slug>, streaming: bool)
    requires Separate(kept) && Unplaced(pending, kept)
    ensures var more := if streaming then FreshShards(NextIndex(kept), pending) else [];
            && Separate(kept + more)
            && (forall x :: x in Current(kept + more) <==> x in Current(kept) || (streaming && x in pending))
  {
    var more := if streaming then FreshShards(NextIndex(kept), pending) else [];
    JoinShards(kept, more);
    if streaming {
      FreshMeans(NextIndex(kept), pending);
      NextIndexAbove(kept);
      forall i, j | 0 <= i < |kept| && 0 <= j < |more| ensures Compatible(kept[i], more[j]) {
        forall x | x in kept[i].meta ensures x !in more[j].meta {
          CurrentMeans(kept, x);
          CurrentMeans(more, x);
        }
      }
      SeparateJoins(kept, more);
    } else {
      assert kept + more == kept;
    }
  }

  lemma SpawnKeeps(kept: seq<Shard>, oks: seq<bool>, pending: seq<Slug>, streaming: bool)
    requires AllSound(kept, oks) && Separate(kept) && Unplaced(pending, kept)
    ensures var more := if streaming then FreshShards(NextIndex(kept), pending) else [];
            && AllSound(kept + more, oks + Trues(|more|)) && Separate(kept + more)
            && (forall x :: x in Current(kept + more) <==> x in Current(kept) || (streaming && x in pending))
  {
    SpawnApart(kept, pending, streaming);
    if streaming { FreshMeans(NextIndex(kept), pending); }
  }

  /**
   * Whatever the venue answers: the shards stay sound and apart, every desired slug is on one of them or reported
   * unplaced, and nothing undesired is there that was not there before.
   */
  lemma ResyncKeepsFeed(shards: seq<Shard>, desired: seq<Slug>, env: Env, streaming: bool)
    requires FeedOk(shards) && NoDuplicates(desired)
    ensures var out := Resynced(shards, desired, env, streaming);
            && FeedOk(out.shards)
            && (forall x :: x in Current(out.shards) ==> x in desired || x in Current(shards))
            && (shards != [] ==> forall x :: x in desired ==> x in Current(out.shards) || x in out.unplaced)
            && (streaming ==> out.unplaced == [])
  {
    AddedMeans(Current(shards), desired);
    if shards != [] && !(Added(Current(shards), desired) == [] && Current(shards) <= Elements(desired)) {
      MutateKeepsFeed(shards, desired, env, streaming);
    } else if shards != [] {
      forall x | x in desired ensures x in Current(shards) { assert x !in Added(Current(shards), desired); }
    }
  }

  lemma MutateKeepsFeed(shards: seq<Shard>, desired: seq<Slug>, env: Env, streaming: bool)
    requires FeedOk(shards) && NoDuplicates(desired)
    ensures var out := Mutated(shards, desired, env, streaming);
            && FeedOk(out.shards)
            && (forall x :: x in Current(out.shards) ==> x in desired || x in Current(shards))
            && (forall x :: x in desired ==> x in Current(out.shards) || x in out.unplaced)
            && (forall x :: x in Current(out.shards) && x !in desired ==>
                x in Current(PrunedAll(shards, Elements(desired), env)))
  {
    var wanted := Elements(desired);
    var ps, added := PrunedAll(shards, wanted, env), Added(Current(shards), desired);
    PruneAllKeeps(shards, wanted, env);
    AddedMeans(Current(shards), desired);
    AddKeeps(ps, PruneOks(shards, wanted, env), 0, added, env);
    var (kept, oks, pending) := AddFrom(ps, PruneOks(shards, wanted, env), 0, added, env);
    SpawnKeeps(kept, oks, pending, streaming);
    var more := if streaming then FreshShards(NextIndex(kept), pending) else [];
    FinishKeeps(kept + more, oks + Trues(|more|), env);
  }

  /** A dropped connection and a reconnect keep it too. */
  lemma ReconnectKeepsFeed(shards: seq<Shard>, i: nat, env: Env)
    requires FeedOk(shards) && i < |shards|
    ensures FeedOk(shards[i := Recycled(shards[i])]) && FeedOk(shards[i := Connected(shards[i], env)])
  {
    ConnectSettles(shards[i], env);
    SameSlugsKeepsFeed(shards, i, Recycled(shards[i]));
    SameSlugsKeepsFeed(shards, i, Connected(shards[i], env));
  }

  lemma SameSlugsKeepsFeed(shards: seq<Shard>, i: nat, t: Shard)
    requires FeedOk(shards) && i < |shards| && t.meta == shards[i].meta && t.index == shards[i].index && Sound(t, true)
    ensures FeedOk(shards[i := t])
  {
    var more := shards[i := t];
    forall j, k | 0 <= j < k < |more| ensures Compatible(more[j], more[k]) {
      assert Compatible(shards[j], shards[k]);
    }
  }

  // ---- every mutation confirmed ----

  ghost predicate AllSettled(shards: seq<Shard>) {
    forall i {:trigger shards[i]} :: 0 <= i < |shards| ==> Settled(shards[i])
  }

  lemma {:induction false} NoneRecycled(shards: seq<Shard>, oks: seq<bool>, n: nat, env: Env)
    requires n <= |shards| == |oks| && RecycledCount(shards, oks, n, env) == 0
    ensures forall i :: 0 <= i < n ==> Kept(shards[i], oks[i], env)
  {
    if n > 0 { NoneRecycled(shards, oks, n - 1, env); }
  }

  /**
   * A settled shard whose prune and adds went through is settled still exactly when none of its subscribes was refused.
   */
  lemma SettledExactlyWhenAccepted(s: Shard, desired: set<Slug>, env: Env, t: Shard, after: bool)
    requires Settled(s) && after && Sound(t, after)
    requires Grown(env, Pruned(s, desired, env).0, Pruned(s, desired, env).1, t, after)
    ensures t.up && Tidy(t) && t.index == s.index && (Settled(t) <==> Accepted(env, s, t))
  {
    var p, stale := Pruned(s, desired, env).0, Stale(s.batches, desired);
    ConfirmedPruneSettles(s, desired, env);
    PruneKeepsSound(s, desired, env);
    StaleMembers(s.batches, desired);
    StaleIsDistinct(s.batches, desired);
    PruneShows(s, desired, stale, env, s.ridSeq);
    if Accepted(env, s, t) {
      assert Accepted(env, s, p) && Accepted(env, p, t);
    } else {
      RefusalShows(env, s, t);
    }
  }

  /**
   * From a settled feed, whatever the venue answered: a resync reported live ends with disjoint shards subscribed, as
   * far as they know, to exactly the desired slugs, and an old shard is settled exactly when none of its subscribes
   * was refused.
   */
  lemma LiveMeansCovered(shards: seq<Shard>, desired: seq<Slug>, env: Env)
    requires FeedOk(shards) && AllSettled(shards) && NoDuplicates(desired) && shards != []
    requires Resynced(shards, desired, env, true).applied == Live
    ensures var out := Resynced(shards, desired, env, true);
            && |shards| <= |out.shards| && Current(out.shards) == Elements(desired) && Separate(out.shards)
            && (forall i :: 0 <= i < |shards| ==>
                  && out.shards[i].up && Tidy(out.shards[i]) && out.shards[i].index == shards[i].index
                  && (Settled(out.shards[i]) <==> Accepted(env, shards[i], out.shards[i])))
            && (forall i :: |shards| <= i < |out.shards| ==> !out.shards[i].up && Sound(out.shards[i], true))
  {
    var wanted := Elements(desired);
    var ps, added := PrunedAll(shards, wanted, env), Added(Current(shards), desired);
    PruneAllKeeps(shards, wanted, env);
    AddedMeans(Current(shards), desired);
    AddKeeps(ps, PruneOks(shards, wanted, env), 0, added, env);
    var (kept, oks, pending) := AddFrom(ps, PruneOks(shards, wanted, env), 0, added, env);
    var more := FreshShards(NextIndex(kept), pending);
    FreshMeans(NextIndex(kept), pending);
    NoneRecycled(kept + more, oks + Trues(|more|), |kept + more|, env);
    MutateKeepsFeed(shards, desired, env, true);
    LiveShards(shards, wanted, env, ps, kept, oks, more);
    LiveDropsDead(shards, wanted, env, kept, oks);
    forall x ensures x in Current(Mutated(shards, desired, env, true).shards) <==> x in wanted {}
  }

  lemma LiveShards(shards: seq<Shard>, wanted: set<Slug>, env: Env, ps: seq<Shard>, kept: seq<Shard>, oks: seq<bool>,
                   more: seq<Shard>)
    requires FeedOk(shards) && AllSettled(shards) && ps == PrunedAll(shards, wanted, env) && AllSound(kept, oks)
    requires |kept| == |ps|
    requires forall j {:trigger kept[j]} :: 0 <= j < |ps| ==>
             Grown(env, ps[j], PruneOks(shards, wanted, env)[j], kept[j], oks[j])
    requires forall i :: 0 <= i < |kept + more| ==> Kept((kept + more)[i], (oks + Trues(|more|))[i], env)
    ensures var done := FinishedAll(kept + more, oks + Trues(|more|), env);
            && done == kept + more
            && (forall i :: 0 <= i < |shards| ==>
                  && oks[i] && done[i].up && Tidy(done[i]) && done[i].index == shards[i].index
                  && (Settled(done[i]) <==> Accepted(env, shards[i], done[i])))
  {
    var done := FinishedAll(kept + more, oks + Trues(|more|), env);
    forall i | 0 <= i < |kept + more| ensures done[i] == (kept + more)[i] {
      assert Kept((kept + more)[i], (oks + Trues(|more|))[i], env);
    }
    forall i | 0 <= i < |shards|
      ensures oks[i] && kept[i].up && Tidy(kept[i]) && kept[i].index == shards[i].index
      ensures Settled(kept[i]) <==> Accepted(env, shards[i], kept[i])
    {
      assert Kept((kept + more)[i], (oks + Trues(|more|))[i], env);
      assert Grown(env, ps[i], PruneOks(shards, wanted, env)[i], kept[i], oks[i]);
      PruneKeepsSound(shards[i], wanted, env);
      SettledExactlyWhenAccepted(shards[i], wanted, env, kept[i], oks[i]);
    }
  }

  lemma LiveDropsDead(shards: seq<Shard>, wanted: set<Slug>, env: Env, kept: seq<Shard>, oks: seq<bool>)
    requires AllSettled(shards) && |oks| == |kept| == |shards|
    requires forall i :: 0 <= i < |shards| ==> oks[i]
    requires forall j {:trigger kept[j]} :: 0 <= j < |shards| ==>
               Grown(env, PrunedAll(shards, wanted, env)[j], PruneOks(shards, wanted, env)[j], kept[j], oks[j])
    ensures forall x :: x in Current(PrunedAll(shards, wanted, env)) ==> x in wanted
  {
    var ps := PrunedAll(shards, wanted, env);
    forall x | x in Current(ps) ensures x in wanted {
      CurrentMeans(ps, x);
      var i :| 0 <= i < |ps| && x in ps[i].meta;
      assert Grown(env, ps[i], PruneOks(shards, wanted, env)[i], kept[i], oks[i]);
      ConfirmedPruneSettles(shards[i], wanted, env);
    }
  }

  /** Every slug nobody wants lies in a batch of the shard that has it. */
  ghost predicate DeadAreBatched(shards: seq<Shard>, wanted: set<Slug>) {
    forall i, x {:trigger x in shards[i].meta} :: 0 <= i < |shards| && x in shards[i].meta && x !in wanted ==>
        InSome(x, shards[i].batches)
  }

  lemma PruneIsExact(shards: seq<Shard>, wanted: set<Slug>, env: Env)
    requires FeedOk(shards) && forall i :: 0 <= i < |shards| ==> PruneOks(shards, wanted, env)[i]
    ensures (forall x :: x in Current(PrunedAll(shards, wanted, env)) ==> x in wanted)
            <==> DeadAreBatched(shards, wanted)
  {
    var ps := PrunedAll(shards, wanted, env);
    forall i | 0 <= i < |shards|
      ensures (forall x :: x in ps[i].meta ==> x in wanted)
              <==> forall x :: x in shards[i].meta && x !in wanted ==> InSome(x, shards[i].batches)
    {
      assert PruneOks(shards, wanted, env)[i] && Sound(shards[i], true);
      ThroughPruneIsExact(shards[i], wanted, env);
    }
    forall x ensures x in Current(ps) <==> exists i :: 0 <= i < |ps| && x in ps[i].meta { CurrentMeans(ps, x); }
    if DeadAreBatched(shards, wanted) {
      forall x | x in Current(ps) ensures x in wanted {
        var i :| 0 <= i < |ps| && x in ps[i].meta;
        assert forall y :: y in shards[i].meta && y !in wanted ==> InSome(y, shards[i].batches);
      }
    } else {
      var i, x :| 0 <= i < |shards| && x in shards[i].meta && x !in wanted && !InSome(x, shards[i].batches);
      assert !(forall y :: y in ps[i].meta ==> y in wanted);
      var y :| y in ps[i].meta && y !in wanted;
    }
  }

  /**
   * From any sound feed, connected or not: a resync reported live covers exactly the desired slugs if and only if
   * every slug to drop lay in a batch, as it does on a connection that has sent all its subscribes and does not on one
   * that has not.
   */
  lemma LiveCoversExactlyWhenBatched(shards: seq<Shard>, desired: seq<Slug>, env: Env)
    requires FeedOk(shards) && NoDuplicates(desired) && shards != []
    requires Resynced(shards, desired, env, true).applied == Live
    ensures Current(Resynced(shards, desired, env, true).shards) == Elements(desired)
            <==> DeadAreBatched(shards, Elements(desired))
    ensures (forall s :: s in shards ==> s.up && s.todo == []) ==> DeadAreBatched(shards, Elements(desired))
  {
    var wanted := Elements(desired);
    var ps, added := PrunedAll(shards, wanted, env), Added(Current(shards), desired);
    PruneAllKeeps(shards, wanted, env);
    AddedMeans(Current(shards), desired);
    AddKeeps(ps, PruneOks(shards, wanted, env), 0, added, env);
    var (kept, oks, pending) := AddFrom(ps, PruneOks(shards, wanted, env), 0, added, env);
    var more := FreshShards(NextIndex(kept), pending);
    SpawnKeeps(kept, oks, pending, true);
    FinishKeeps(kept + more, oks + Trues(|more|), env);
    MutateKeepsFeed(shards, desired, env, true);
    NoneRecycled(kept + more, oks + Trues(|more|), |kept + more|, env);
    forall i | 0 <= i < |shards| ensures PruneOks(shards, wanted, env)[i] {
      assert Kept((kept + more)[i], (oks + Trues(|more|))[i], env);
      assert Grown(env, ps[i], PruneOks(shards, wanted, env)[i], kept[i], oks[i]);
    }
    PruneIsExact(shards, wanted, env);
    var now := Current(Resynced(shards, desired, env, true).shards);
    assert forall x :: x in wanted ==> x in now;
    assert forall x :: x in now && x !in wanted <==> x in Current(ps) && x !in wanted;
    if forall s :: s in shards ==> s.up && s.todo == [] {
      forall i, x | 0 <= i < |shards| && x in shards[i].meta ensures InSome(x, shards[i].batches) {
        assert shards[i] in shards && Sound(shards[i], true);
        TidyCovers(shards[i], x);
      }
    }
  }

  /** The shard after its one new slug is sent and refused at once. */
  function RefusedOnce(s: Shard, x: Slug): Shard {
    s.(meta := s.meta + [x], ridSeq := s.ridSeq + 1, batches := s.batches + [Batch(Minted(s), [x])],
       errors := s.errors + 1,
        peak := Max(s.peak, Load(s) + 1), sent := s.sent + [Minted(s)])
  }

  lemma RefusedAtOnce(s: Shard, x: Slug, env: Env)
    requires s.up && env == Env({}, {}, {}, {Minted(s)}, {})
    ensures Extended(s, [x], env) == (RefusedOnce(s, x), true)
  {
    var wants := s.(meta := s.meta + [x]);
    assert [x][..1] == [x] && [x][1..] == [];
    assert Subscribed(wants, [x], env) == (RefusedOnce(s, x), true);
    assert SubscribedAll(RefusedOnce(s, x), [], env) == (RefusedOnce(s, x), true);
    assert SubscribedAll(wants, [x], env) == (RefusedOnce(s, x), true);
  }

  lemma OneShardAdds(s: Shard, x: Slug, t: Shard, env: Env)
    requires Extended(s, [x], env) == (t, true) && |s.meta| < MAX_SUBS
    ensures AddFrom([s], [true], 0, [x], env) == ([t], [true], [])
  {
    assert [x][..1] == [x] && [x][1..] == [];
    assert [s][0 := t] == [t] && [true][0 := true] == [true];
    assert AddFrom([t], [true], 1, [], env) == ([t], [true], []);
  }

  /** A live resync with a refusal: an error frame that arrives before the grace period is counted and forgotten. */
  lemma EarlyRefusalGoesUnnoticed(s: Shard, x: Slug, env: Env)
    requires Settled(s) && |s.meta| < MAX_SUBS && x !in s.meta && env == Env({}, {}, {}, {Minted(s)}, {})
    ensures var out := Resynced([s], s.meta + [x], env, true);
            && out.applied == Live && out.shards == [RefusedOnce(s, x)]
            && x in out.shards[0].meta && out.shards[0].held != out.shards[0].batches
  {
    var desired, t := s.meta + [x], RefusedOnce(s, x);
    OneShard(s);
    NothingStale(s, Elements(desired));
    AddsOnlyNew(s.meta, x, Elements(s.meta));
    assert PrunedAll([s], Elements(desired), env) == [s] && PruneOks([s], Elements(desired), env) == [true];
    RefusedAtOnce(s, x, env);
    OneShardAdds(s, x, t, env);
    NobodyLate(t, env);
  }

  lemma NobodyLate(t: Shard, env: Env)
    requires env.late == {}
    ensures FinishedAll([t] + [], [true] + Trues(0), env) == [t]
    ensures RecycledCount([t] + [], [true] + Trues(0), 1, env) == 0
  {
    assert [t] + [] == [t] && [true] + Trues(0) == [true];
    assert !LateError(t, env);
  }

  lemma {:induction false} AddsOnlyNew(meta: seq<Slug>, x: Slug, current: set<Slug>)
    requires (forall y :: y in meta ==> y in current) && x !in current
    ensures Added(current, meta) == [] && Added(current, meta + [x]) == [x]
  {
    assert (meta + [x])[..|meta|] == meta;
    if meta != [] { AddsOnlyNew(meta[..|meta| - 1], x, current); }
  }

  lemma NoneStale(bs: seq<Batch>, wanted: set<Slug>)
    requires forall b, x :: b in bs && x in b.slugs ==> x in wanted
    ensures Stale(bs, wanted) == []
  {
    var stale := Stale(bs, wanted);
    assert stale != [] ==> stale[0] in stale;
    StaleMembers(bs, wanted);
    forall b | b in bs ensures !IsStale(b, wanted) {
      forall i | 0 <= i < |b.slugs| ensures b.slugs[i] in wanted { assert b.slugs[i] in b.slugs; }
    }
  }

  lemma NothingStale(s: Shard, desired: set<Slug>)
    requires Tidy(s) && forall y :: y in s.meta ==> y in desired
    ensures Stale(s.batches, desired) == []
  {
    forall b, x | b in s.batches && x in b.slugs ensures x in desired {
      TidyCovers(s, x);
      assert InSome(x, s.batches);
    }
    NoneStale(s.batches, desired);
  }
}

/** Request ids as they go over the wire: different ids look different, and a shard's prefix names that shard only. */
module RequestIds {
  import opened PolyShard

  function Digit(n: nat): char
    requires n < 10
  {
    (n as char) + '0'
  }

  function Digits(n: nat): (d: string)
    ensures |d| > 0
  {
    if n < 10 then [Digit(n)] else Digits(n / 10) + [Digit(n % 10)]
  }

  function Prefix(shard: nat): string {
    "pmarb-s" + Digits(shard) + "-"
  }

  function Render(rid: Rid): string {
    Prefix(rid.shard) + Digits(rid.n)
  }

  lemma {:induction false} DigitsAreDigits(n: nat)
    ensures forall i :: 0 <= i < |Digits(n)| ==> '0' <= Digits(n)[i] <= '9'
  {
    if n >= 10 { DigitsAreDigits(n / 10); }
  }

  lemma {:induction false} DigitsAreInjective(m: nat, n: nat)
    requires Digits(m) == Digits(n)
    ensures m == n
  {
    var d := Digits(m);
    assert d[|d| - 1] == Digit(m % 10) == Digit(n % 10);
    if m >= 10 && n >= 10 {
      assert Digits(m / 10) == d[..|d| - 1] && Digits(n / 10) == d[..|d| - 1];
      DigitsAreInjective(m / 10, n / 10);
    }
  }

  /** Two runs of digits before a dash agree when what they begin agrees. */
  lemma DashEnds(a: string, b: string, x: string, y: string)
    requires (forall i :: 0 <= i < |a| ==> a[i] != '-') && (forall i :: 0 <= i < |b| ==> b[i] != '-')
    requires a + "-" + x == b + "-" + y
    ensures a == b && x == y
  {
    var l, r := a + "-" + x, b + "-" + y;
    assert l[|a|] == '-' && r[|b|] == '-';
    assert forall i :: 0 <= i < |a| ==> l[i] == a[i];
    assert forall i :: 0 <= i < |b| ==> r[i] == b[i];
    assert a == l[..|a|] && b == r[..|b|] && x == l[|a| + 1..] && y == r[|b| + 1..];
  }

  lemma Unprefixed(a: string, b: string, rest: string)
    requires a + b == a + rest
    ensures b == rest
  {
    assert b == (a + b)[|a|..] && rest == (a + rest)[|a|..];
  }

  /** Different requests, on any shards, never render alike. */
  lemma RenderIsInjective(a: Rid, b: Rid)
    requires Render(a) == Render(b)
    ensures a == b
  {
    var h := "pmarb-s";
    assert Render(a) == h + (Digits(a.shard) + "-" + Digits(a.n));
    assert Render(b) == h + (Digits(b.shard) + "-" + Digits(b.n));
    Unprefixed(h, Digits(a.shard) + "-" + Digits(a.n), Digits(b.shard) + "-" + Digits(b.n));
    DigitsAreDigits(a.shard);
    DigitsAreDigits(b.shard);
    DashEnds(Digits(a.shard), Digits(b.shard), Digits(a.n), Digits(b.n));
    DigitsAreInjective(a.shard, b.shard);
    DigitsAreInjective(a.n, b.n);
  }

  /** Failing a shard's pending requests by prefix touches that shard's alone: 1 is not a prefix of 11. */
  lemma PrefixIsExact(rid: Rid, shard: nat)
    ensures Prefix(shard) <= Render(rid) <==> rid.shard == shard
  {
    if Prefix(shard) <= Render(rid) {
      var rest := Render(rid)[|Prefix(shard)|..];
      var h := "pmarb-s";
      assert Render(rid) == Prefix(shard) + rest;
      assert Render(rid) == h + (Digits(rid.shard) + "-" + Digits(rid.n));
      assert Prefix(shard) + rest == h + (Digits(shard) + "-" + rest);
      Unprefixed(h, Digits(rid.shard) + "-" + Digits(rid.n), Digits(shard) + "-" + rest);
      DigitsAreDigits(rid.shard);
      DigitsAreDigits(shard);
      DashEnds(Digits(rid.shard), Digits(shard), Digits(rid.n), rest);
      DigitsAreInjective(rid.shard, shard);
    }
  }
}
