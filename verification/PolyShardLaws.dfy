/**
 * What one shard keeps through pruning, adding and reconnecting: its
 * batches partition its slugs, and the cap is never passed.
 */
module PolyShardLaws {
  import opened Common
  import opened PolyShard

  ghost predicate OwnRids(s: Shard, bs: seq<Batch>) {
    && (forall b :: b in bs ==> b.rid.shard == s.index && b.rid.n <= s.ridSeq)
    && forall i, j :: 0 <= i < j < |bs| ==> bs[i].rid != bs[j].rid
  }

  ghost predicate SmallBatches(bs: seq<Batch>) {
    forall b :: b in bs ==> 0 < |b.slugs| <= SUB_BATCH
  }

  ghost predicate Tiles(flat: seq<Slug>, todo: seq<Slug>, rest: seq<Slug>, meta: seq<Slug>) {
    multiset(flat) + multiset(todo) + multiset(rest) == multiset(meta)
  }

  /**
   * The batches, what the connection's own loop has still to send and what a resync has still to send together
   * partition the desired set; the venue holds no more than the batches.
   */
  ghost predicate Partial(s: Shard, rest: seq<Slug>) {
    && NoDuplicates(s.meta) && Tiles(Flat(s.batches), s.todo, rest, s.meta)
    && OwnRids(s, s.batches) && OwnRids(s, s.held) && SmallBatches(s.batches)
    && forall b :: b in s.held ==> b in s.batches
  }

  ghost predicate Tidy(s: Shard) {
    Partial(s, [])
  }

  /** Connected, its own loop done, tidy, within the cap, and the venue's view is the shard's own. */
  ghost predicate Settled(s: Shard) {
    s.up && s.todo == [] && Tidy(s) && s.held == s.batches && |s.meta| <= MAX_SUBS && s.peak <= MAX_SUBS
  }

  /** No subscribe sent between these two states of a shard was refused. */
  ghost predicate Accepted(env: Env, s: Shard, t: Shard) {
    forall rid :: rid in env.refused || rid in env.late ==> !(rid.shard == s.index && s.ridSeq < rid.n <= t.ridSeq)
  }

  // ---- sequences ----

  lemma FlatAppend(bs: seq<Batch>, b: Batch)
    ensures Flat(bs + [b]) == Flat(bs) + b.slugs
  {
    assert (bs + [b])[..|bs|] == bs;
  }

  lemma {:induction false} WithoutMembers(bs: seq<Batch>, rid: Rid)
    ensures forall b :: b in Without(bs, rid) <==> b in bs && b.rid != rid
  {
    if bs != [] {
      WithoutMembers(bs[..|bs| - 1], rid);
      assert bs == bs[..|bs| - 1] + [bs[|bs| - 1]];
    }
  }

  lemma {:induction false} WithoutAbsent(bs: seq<Batch>, rid: Rid)
    requires forall b :: b in bs ==> b.rid != rid
    ensures Without(bs, rid) == bs
  {
    if bs != [] {
      WithoutAbsent(bs[..|bs| - 1], rid);
      assert bs == bs[..|bs| - 1] + [bs[|bs| - 1]];
    }
  }

  /** Batches with distinct request ids. */
  ghost predicate Distinct(bs: seq<Batch>) {
    forall i, j :: 0 <= i < j < |bs| ==> bs[i].rid != bs[j].rid
  }

  lemma {:induction false} WithoutIsDistinct(bs: seq<Batch>, rid: Rid)
    requires Distinct(bs)
    ensures Distinct(Without(bs, rid))
  {
    if bs != [] {
      var front := bs[..|bs| - 1];
      WithoutIsDistinct(front, rid);
      WithoutMembers(front, rid);
      forall b | b in Without(front, rid) ensures b.rid != bs[|bs| - 1].rid {
        var i :| 0 <= i < |front| && front[i] == b;
      }
    }
  }

  lemma LastIsUnique(bs: seq<Batch>)
    requires bs != [] && Distinct(bs)
    ensures Distinct(bs[..|bs| - 1]) && forall c :: c in bs[..|bs| - 1] ==> c.rid != bs[|bs| - 1].rid
  {
    var front := bs[..|bs| - 1];
    forall c | c in front ensures c.rid != bs[|bs| - 1].rid {
      var i :| 0 <= i < |front| && front[i] == c;
      assert bs[i] == c;
    }
  }

  lemma {:induction false} FlatWithout(bs: seq<Batch>, b: Batch)
    requires Distinct(bs) && b in bs
    ensures multiset(Flat(Without(bs, b.rid))) + multiset(b.slugs) == multiset(Flat(bs))
    ensures |Flat(Without(bs, b.rid))| + |b.slugs| == |Flat(bs)|
  {
    var front, last := bs[..|bs| - 1], bs[|bs| - 1];
    assert bs == front + [last];
    LastIsUnique(bs);
    if last == b {
      WithoutAbsent(front, b.rid);
    } else {
      FlatWithout(front, b);
      FlatAppend(Without(front, b.rid), last);
      AddsLast(Flat(Without(front, b.rid)), b.slugs, Flat(front), last.slugs);
    }
  }

  lemma AddsLast(x: seq<Slug>, y: seq<Slug>, z: seq<Slug>, last: seq<Slug>)
    requires multiset(x) + multiset(y) == multiset(z)
    ensures multiset(x + last) + multiset(y) == multiset(z + last)
  {
  }

  lemma {:induction false} DropCount(slugs: seq<Slug>, dead: seq<Slug>, wanted: set<Slug>, x: Slug)
    ensures multiset(Drop(slugs, dead, wanted))[x] == if x in dead && x !in wanted then 0 else multiset(slugs)[x]
  {
    if slugs != [] {
      DropCount(slugs[..|slugs| - 1], dead, wanted, x);
      assert slugs == slugs[..|slugs| - 1] + [slugs[|slugs| - 1]];
    }
  }

  lemma {:induction false} KeepCount(slugs: seq<Slug>, wanted: set<Slug>, x: Slug)
    ensures multiset(Keep(slugs, wanted))[x] == if x in wanted then multiset(slugs)[x] else 0
    ensures |Keep(slugs, wanted)| <= |slugs|
  {
    if slugs != [] {
      KeepCount(slugs[..|slugs| - 1], wanted, x);
      assert slugs == slugs[..|slugs| - 1] + [slugs[|slugs| - 1]];
    }
  }

  lemma {:induction false} OnceMeansDistinct(s: seq<Slug>)
    requires forall x :: multiset(s)[x] <= 1
    ensures NoDuplicates(s)
  {
    forall i, j | 0 <= i < j < |s| ensures s[i] != s[j] {
      assert s == s[..j] + s[j..] && s[i] in s[..j] && s[j] in s[j..];
      assert multiset(s) == multiset(s[..j]) + multiset(s[j..]);
      assert multiset(s[..j])[s[i]] > 0 && multiset(s[j..])[s[j]] > 0;
      assert s[i] == s[j] ==> multiset(s)[s[i]] > 1;
    }
  }

  lemma DropKeepsDistinct(slugs: seq<Slug>, dead: seq<Slug>, wanted: set<Slug>)
    requires NoDuplicates(slugs)
    ensures NoDuplicates(Drop(slugs, dead, wanted)) && |Drop(slugs, dead, wanted)| <= |slugs|
    ensures forall x :: x in Drop(slugs, dead, wanted) <==> x in slugs && (x in wanted || x !in dead)
  {
    var d := Drop(slugs, dead, wanted);
    forall x ensures multiset(d)[x] <= 1 && multiset(d)[x] <= multiset(slugs)[x] {
      DropCount(slugs, dead, wanted, x);
      OnceIsOne(slugs, x);
    }
    OnceMeansDistinct(d);
    Smaller(multiset(d), multiset(slugs));
    forall x ensures x in d <==> x in slugs && (x in wanted || x !in dead) {
      DropCount(slugs, dead, wanted, x);
      assert (x in d <==> multiset(d)[x] > 0) && (x in slugs <==> multiset(slugs)[x] > 0);
    }
  }

  lemma Smaller<T>(a: multiset<T>, b: multiset<T>)
    requires a <= b
    ensures |a| <= |b|
  {
    assert b == a + (b - a);
  }

  lemma {:induction false} FlatWithin(small: seq<Batch>, large: seq<Batch>)
    requires Distinct(small) && Distinct(large) && forall b :: b in small ==> b in large
    ensures |Flat(small)| <= |Flat(large)|
  {
    if small != [] {
      var front, last := small[..|small| - 1], small[|small| - 1];
      LastIsUnique(small);
      FlatWithout(large, last);
      WithoutMembers(large, last.rid);
      WithoutIsDistinct(large, last.rid);
      forall b | b in front ensures b in Without(large, last.rid) { assert b in small; }
      FlatWithin(front, Without(large, last.rid));
    }
  }

  // ---- one request ----

  /** The venue never holds more slugs than the shard has desired. */
  lemma LoadWithinMeta(s: Shard, rest: seq<Slug>)
    requires Partial(s, rest)
    ensures Load(s) + |s.todo| + |rest| <= |s.meta|
  {
    FlatWithin(s.held, s.batches);
    TilesCount(Flat(s.batches), s.todo, rest, s.meta, "");
  }

  /** A freshly minted request id is no earlier batch's. */
  lemma MintedIsNew(s: Shard, t: Shard, bs: seq<Batch>, slugs: seq<Slug>)
    requires OwnRids(s, bs) && t.index == s.index && t.ridSeq == s.ridSeq + 1
    ensures forall b :: b in bs ==> b.rid != Minted(s)
    ensures OwnRids(t, bs) && OwnRids(t, bs + [Batch(Minted(s), slugs)])
  {
    var more := bs + [Batch(Minted(s), slugs)];
    forall i, j | 0 <= i < j < |more| ensures more[i].rid != more[j].rid {
      assert more[i] in bs;
    }
  }

  lemma PartMoves(flat: seq<Slug>, todo: seq<Slug>, part: seq<Slug>, rest: seq<Slug>, meta: seq<Slug>)
    requires Tiles(flat, todo, part + rest, meta)
    ensures Tiles(flat + part, todo, rest, meta)
  {
  }

  /** How often a slug is desired, and where. */
  lemma TilesCount(flat: seq<Slug>, todo: seq<Slug>, rest: seq<Slug>, meta: seq<Slug>, x: Slug)
    requires Tiles(flat, todo, rest, meta)
    ensures multiset(meta)[x] == multiset(flat)[x] + multiset(todo)[x] + multiset(rest)[x]
    ensures |meta| == |flat| + |todo| + |rest|
  {
    assert |multiset(flat) + multiset(todo) + multiset(rest)| == |flat| + |todo| + |rest|;
    assert |multiset(meta)| == |meta|;
  }

  lemma SubscribeMoves(s: Shard, part: seq<Slug>, env: Env)
    ensures var (t, ok) := Subscribed(s, part, env);
            && t.meta == s.meta && t.index == s.index && t.up == s.up && t.errors >= s.errors
            && t.ridSeq == s.ridSeq + 1 && t.todo == s.todo
            && (ok ==> t.batches == s.batches + [Batch(Minted(s), part)])
            && (ok ==> t.held == s.held || t.held == s.held + [Batch(Minted(s), part)])
            && (ok && Accepted(env, s, t) && s.held == s.batches ==> t.held == t.batches)
  {
  }

  /** Subscribing the first part of what is left moves it into a batch of its own, under an id never used before. */
  lemma SubscribeKeepsPartial(s: Shard, part: seq<Slug>, rest: seq<Slug>, env: Env)
    requires Partial(s, part + rest) && 0 < |part| <= SUB_BATCH
    ensures var (t, ok) := Subscribed(s, part, env);
            && t.meta == s.meta && t.index == s.index && t.up == s.up && t.errors >= s.errors
            && t.ridSeq == s.ridSeq + 1 && t.todo == s.todo
            && (ok ==> Partial(t, rest) && (Accepted(env, s, t) && s.held == s.batches ==> t.held == t.batches))
  {
    var (t, ok) := Subscribed(s, part, env);
    SubscribeMoves(s, part, env);
    if ok { BatchJoins(s, t, part, rest); }
  }

  lemma BatchJoins(s: Shard, t: Shard, part: seq<Slug>, rest: seq<Slug>)
    requires Partial(s, part + rest) && 0 < |part| <= SUB_BATCH
    requires t.meta == s.meta && t.index == s.index && t.ridSeq == s.ridSeq + 1 && t.todo == s.todo
    requires t.batches == s.batches + [Batch(Minted(s), part)]
    requires t.held == s.held || t.held == s.held + [Batch(Minted(s), part)]
    ensures Partial(t, rest)
  {
    FlatAppend(s.batches, Batch(Minted(s), part));
    PartMoves(Flat(s.batches), s.todo, part, rest, s.meta);
    MintedIsNew(s, t, s.batches, part);
    MintedIsNew(s, t, s.held, part);
  }

  /** And the venue is not asked for more than the cap. */
  lemma SubscribeKeepsCap(s: Shard, part: seq<Slug>, rest: seq<Slug>, env: Env)
    requires Partial(s, part + rest) && s.peak <= MAX_SUBS && |s.meta| <= MAX_SUBS
    ensures Subscribed(s, part, env).0.peak <= MAX_SUBS
  {
    LoadWithinMeta(s, part + rest);
    FlatAppend(s.held, Batch(Minted(s), part));
  }

  lemma {:induction false} SubscribeAllSettles(s: Shard, slugs: seq<Slug>, env: Env)
    requires Partial(s, slugs)
    ensures var (t, ok) := SubscribedAll(s, slugs, env);
            && t.meta == s.meta && t.index == s.index && t.up == s.up && t.errors >= s.errors && t.ridSeq >= s.ridSeq
            && t.todo == s.todo
            && (ok ==> Tidy(t) && (Accepted(env, s, t) && s.held == s.batches ==> t.held == t.batches))
    ensures s.peak <= MAX_SUBS && |s.meta| <= MAX_SUBS ==> SubscribedAll(s, slugs, env).0.peak <= MAX_SUBS
    decreases |slugs|
  {
    if slugs != [] {
      var n := if |slugs| <= SUB_BATCH then |slugs| else SUB_BATCH;
      assert slugs == slugs[..n] + slugs[n..];
      SubscribeKeepsPartial(s, slugs[..n], slugs[n..], env);
      if s.peak <= MAX_SUBS && |s.meta| <= MAX_SUBS { SubscribeKeepsCap(s, slugs[..n], slugs[n..], env); }
      var (t, ok) := Subscribed(s, slugs[..n], env);
      if ok { SubscribeAllSettles(t, slugs[n..], env); }
    }
  }

  /** From any desired set within the cap, a connection that is neither cut nor refused is settled. */
  lemma ConnectSettles(s: Shard, env: Env)
    requires NoDuplicates(s.meta) && |s.meta| <= MAX_SUBS && s.peak <= MAX_SUBS
    ensures var t := Connected(s, env);
            && t.meta == s.meta && t.index == s.index && t.peak <= MAX_SUBS && t.errors >= s.errors
            && t.ridSeq >= s.ridSeq
            && (t.up ==> Tidy(t)) && (t.up && Accepted(env, s, t) ==> Settled(t))
  {
    SubscribeAllSettles(s.(up := true, batches := [], held := [], todo := []), s.meta, env);
  }

  // ---- pruning ----

  lemma SurvivorsCount(s: Shard, b: Batch, desired: set<Slug>, x: Slug)
    requires Tidy(s) && b in s.batches
    ensures multiset(Flat(Without(s.batches, b.rid)))[x] + multiset(s.todo)[x] + multiset(Keep(b.slugs, desired))[x] ==
            multiset(Drop(s.meta, b.slugs, desired))[x]
  {
    FlatWithout(s.batches, b);
    TilesCount(Flat(s.batches), s.todo, [], s.meta, x);
    KeepCount(b.slugs, desired, x);
    DropCount(s.meta, b.slugs, desired, x);
    OnceIsOne(s.meta, x);
    var flat := multiset(Flat(Without(s.batches, b.rid)))[x];
    assert flat + multiset(b.slugs)[x] == multiset(Flat(s.batches))[x];
    assert x in b.slugs <==> multiset(b.slugs)[x] > 0;
  }

  /** Forgetting a batch of a tidy shard leaves exactly its survivors to be subscribed. */
  lemma ForgetLeavesSurvivors(s: Shard, b: Batch, desired: set<Slug>)
    requires Tidy(s) && b in s.batches
    ensures var f := Forgotten(s, b, desired);
            && NoDuplicates(f.meta) && |f.meta| <= |s.meta|
            && Tiles(Flat(f.batches), f.todo, Keep(b.slugs, desired), f.meta)
            && OwnRids(f, f.batches) && SmallBatches(f.batches)
  {
    DropKeepsDistinct(s.meta, b.slugs, desired);
    WithoutMembers(s.batches, b.rid);
    WithoutIsDistinct(s.batches, b.rid);
    forall x
      ensures multiset(Flat(Without(s.batches, b.rid)))[x] + multiset(s.todo)[x] +
              multiset(Keep(b.slugs, desired))[x] == multiset(Drop(s.meta, b.slugs, desired))[x]
    {
      SurvivorsCount(s, b, desired, x);
    }
  }

  lemma UnsubscribeKeepsPartial(s: Shard, b: Batch, desired: set<Slug>, env: Env)
    requires Tidy(s) && b in s.batches
    ensures var (u, confirmed) := Unsubscribed(Forgotten(s, b, desired), b.rid, env);
            && u.meta == Forgotten(s, b, desired).meta && u.index == s.index && u.up == s.up && u.errors == s.errors
            && u.ridSeq == s.ridSeq && u.todo == s.todo && u.peak == s.peak
            && (confirmed ==> Partial(u, Keep(b.slugs, desired)) && (s.held == s.batches ==> u.held == u.batches))
  {
    ForgetLeavesSurvivors(s, b, desired);
    WithoutMembers(s.held, b.rid);
    WithoutIsDistinct(s.held, b.rid);
    WithoutMembers(s.batches, b.rid);
  }

  lemma ResubscribeKeepsTidy(u: Shard, kept: seq<Slug>, env: Env)
    requires Partial(u, kept) && 0 < |kept| <= SUB_BATCH
    ensures var (t, ok) := Subscribed(u, kept, env);
            && t.meta == u.meta && t.index == u.index && t.up == u.up && t.errors >= u.errors && t.ridSeq >= u.ridSeq
            && t.todo == u.todo
            && (ok ==> Tidy(t) && (Accepted(env, u, t) && u.held == u.batches ==> t.held == t.batches))
            && (u.peak <= MAX_SUBS && |u.meta| <= MAX_SUBS ==> t.peak <= MAX_SUBS)
  {
    assert kept + [] == kept;
    SubscribeKeepsPartial(u, kept, [], env);
    if u.peak <= MAX_SUBS && |u.meta| <= MAX_SUBS { SubscribeKeepsCap(u, kept, [], env); }
  }

  /** One stale batch, confirmed, leaves the shard tidy; confirmed or not, the cap holds. */
  ghost predicate StepsTidily(env: Env, s: Shard, t: Shard, ok: bool) {
    && t.index == s.index && t.up == s.up && t.errors >= s.errors && t.ridSeq >= s.ridSeq && |t.meta| <= |s.meta|
    && NoDuplicates(t.meta) && t.todo == s.todo
    && (ok ==> Tidy(t) && (Accepted(env, s, t) && s.held == s.batches ==> t.held == t.batches))
    && (s.peak <= MAX_SUBS && |s.meta| <= MAX_SUBS ==> t.peak <= MAX_SUBS)
  }

  lemma PruneBatchKeepsTidy(s: Shard, b: Batch, desired: set<Slug>, env: Env)
    requires Tidy(s) && s.up && b in s.batches
    ensures var (t, ok) := PrunedBatch(s, b, desired, env); StepsTidily(env, s, t, ok)
  {
    UnsubscribeKeepsPartial(s, b, desired, env);
    ForgetLeavesSurvivors(s, b, desired);
    var (u, confirmed) := Unsubscribed(Forgotten(s, b, desired), b.rid, env);
    var kept := Keep(b.slugs, desired);
    KeepCount(b.slugs, desired, "");
    if confirmed && kept != [] { ResubscribeKeepsTidy(u, kept, env); }
  }

  lemma PruneBatchKeepsOthers(s: Shard, b: Batch, desired: set<Slug>, env: Env, c: Batch)
    ensures c in s.batches && c.rid != b.rid && PrunedBatch(s, b, desired, env).1 ==>
            c in PrunedBatch(s, b, desired, env).0.batches
    ensures c in PrunedBatch(s, b, desired, env).0.batches ==>
            (c in s.batches && c.rid != b.rid) || c.slugs == Keep(b.slugs, desired)
  {
    WithoutMembers(s.batches, b.rid);
  }

  /** Pruning one batch takes exactly its dead slugs out of the desired set. */
  lemma PruneBatchMeta(s: Shard, b: Batch, desired: set<Slug>, env: Env)
    requires NoDuplicates(s.meta)
    ensures var t := PrunedBatch(s, b, desired, env).0;
            && NoDuplicates(t.meta) && |t.meta| <= |s.meta|
            && forall x :: x in t.meta <==> x in s.meta && (x in desired || x !in b.slugs)
  {
    DropKeepsDistinct(s.meta, b.slugs, desired);
  }

  ghost predicate InSome(x: Slug, bs: seq<Batch>) {
    exists b :: b in bs && x in b.slugs
  }

  lemma InSomeSplits(x: Slug, bs: seq<Batch>)
    requires bs != []
    ensures InSome(x, bs) <==> x in bs[0].slugs || InSome(x, bs[1..])
  {
    assert bs == [bs[0]] + bs[1..];
  }

  /**
   * Tearing this batch down will succeed: its unsubscribe is confirmed, and the survivors' subscribe is not cut off.
   */
  predicate Succeeds(s: Shard, b: Batch, desired: set<Slug>, env: Env) {
    s.up ==> b.rid !in env.lost && (Keep(b.slugs, desired) == [] || Minted(s) !in env.cut)
  }

  /** The next request id after a batch was torn down: one more when survivors were subscribed again. */
  function MintedBy(s: Shard, b: Batch, desired: set<Slug>): Shard {
    if s.up && Keep(b.slugs, desired) != [] then s.(ridSeq := s.ridSeq + 1) else s
  }

  /** How many of the stale batches a prune gets to, read off the shard's counter and the network's answers. */
  function Visits(s: Shard, desired: set<Slug>, stale: seq<Batch>, env: Env): nat
    decreases |stale|
  {
    if stale == [] then 0
    else if Succeeds(s, stale[0], desired, env)
    then 1 + Visits(MintedBy(s, stale[0], desired), desired, stale[1..], env)
    else 1
  }

  /** Every stale batch but the last is torn down without failing. */
  predicate Smooth(s: Shard, desired: set<Slug>, stale: seq<Batch>, env: Env)
    decreases |stale|
  {
    |stale| <= 1
        || (Succeeds(s, stale[0], desired, env) && Smooth(MintedBy(s, stale[0], desired), desired, stale[1..], env))
  }

  lemma {:induction false} SmoothVisitsAll(s: Shard, desired: set<Slug>, stale: seq<Batch>, env: Env)
    ensures Visits(s, desired, stale, env) <= |stale|
    ensures Smooth(s, desired, stale, env) <==> Visits(s, desired, stale, env) == |stale|
    decreases |stale|
  {
    if stale != [] { SmoothVisitsAll(MintedBy(s, stale[0], desired), desired, stale[1..], env); }
  }

  lemma PruneBatchSucceeds(s: Shard, b: Batch, desired: set<Slug>, env: Env)
    ensures var (t, ok) := PrunedBatch(s, b, desired, env);
            && ok == Succeeds(s, b, desired, env) && t.up == s.up && t.index == s.index
            && (ok ==> t.ridSeq == MintedBy(s, b, desired).ridSeq)
  {
  }

  /** Only the counter and the connection decide how far a prune gets. */
  lemma {:induction false} VisitsOfCounter(s: Shard, t: Shard, desired: set<Slug>, stale: seq<Batch>, env: Env)
    requires t.up == s.up && t.index == s.index && t.ridSeq == s.ridSeq
    ensures Visits(s, desired, stale, env) == Visits(t, desired, stale, env)
    decreases |stale|
  {
    if stale != [] {
      VisitsOfCounter(MintedBy(s, stale[0], desired), MintedBy(t, stale[0], desired), desired, stale[1..], env);
    }
  }

  /**
   * For any shard: a prune visits the first Visits(..) stale batches, and what it removes is what those name and
   * nobody wants.
   */
  lemma {:induction false} PruneRemoves(s: Shard, desired: set<Slug>, stale: seq<Batch>, env: Env)
    requires NoDuplicates(s.meta)
    ensures var (t, ok, left) := PruneFrom(s, desired, stale, env);
            && Visits(s, desired, stale, env) <= |stale| && left == stale[Visits(s, desired, stale, env)..]
            && (ok ==> left == [])
            && NoDuplicates(t.meta) && |t.meta| <= |s.meta|
            && forall x ::
                 x in t.meta <==> x in s.meta && (x in desired || !InSome(x, stale[..Visits(s, desired, stale, env)]))
    decreases |stale|
  {
    if stale != [] {
      var (u, confirmed) := PrunedBatch(s, stale[0], desired, env);
      PruneBatchMeta(s, stale[0], desired, env);
      PruneBatchSucceeds(s, stale[0], desired, env);
      if confirmed {
        PruneRemoves(u, desired, stale[1..], env);
        VisitsOfCounter(u, MintedBy(s, stale[0], desired), desired, stale[1..], env);
      }
      var n := Visits(s, desired, stale, env);
      var visited := stale[..n];
      assert visited[0] == stale[0] && visited[1..] == stale[1..][..n - 1] && stale[n..] == stale[1..][n - 1..];
      forall x ensures InSome(x, visited) <==> x in stale[0].slugs || InSome(x, visited[1..]) {
        InSomeSplits(x, visited);
      }
    }
  }

  lemma {:induction false} StaleMembers(bs: seq<Batch>, desired: set<Slug>)
    ensures forall b :: b in Stale(bs, desired) <==> b in bs && IsStale(b, desired)
  {
    if bs != [] {
      StaleMembers(bs[..|bs| - 1], desired);
      assert bs == bs[..|bs| - 1] + [bs[|bs| - 1]];
    }
  }

  lemma {:induction false} StaleIsDistinct(bs: seq<Batch>, desired: set<Slug>)
    requires Distinct(bs)
    ensures Distinct(Stale(bs, desired))
  {
    if bs != [] {
      var front := bs[..|bs| - 1];
      StaleIsDistinct(front, desired);
      StaleMembers(front, desired);
      forall b | b in Stale(front, desired) ensures b.rid != bs[|bs| - 1].rid {
        var i :| 0 <= i < |front| && front[i] == b;
      }
    }
  }

  lemma RestStaysListed(s: Shard, stale: seq<Batch>, desired: set<Slug>, env: Env)
    requires stale != [] && Distinct(stale) && (forall b :: b in stale ==> b in s.batches)
    requires PrunedBatch(s, stale[0], desired, env).1
    ensures Distinct(stale[1..])
    ensures forall b :: b in stale[1..] ==> b in PrunedBatch(s, stale[0], desired, env).0.batches
  {
    forall b | b in stale[1..] ensures b in PrunedBatch(s, stale[0], desired, env).0.batches {
      var i :| 0 <= i < |stale[1..]| && stale[1..][i] == b;
      assert stale[i + 1] == b && stale[0].rid != b.rid;
      PruneBatchKeepsOthers(s, stale[0], desired, env, b);
    }
  }

  lemma TidilyOn(env: Env, s: Shard, u: Shard, t: Shard, ok: bool)
    requires StepsTidily(env, s, u, true) && StepsTidily(env, u, t, ok)
    ensures StepsTidily(env, s, t, ok)
  {
  }

  lemma {:induction false} PruningStaysTidy(s: Shard, desired: set<Slug>, stale: seq<Batch>, env: Env)
    requires Tidy(s) && s.up && Distinct(stale) && forall b :: b in stale ==> b in s.batches
    ensures var (t, ok, left) := PruneFrom(s, desired, stale, env); StepsTidily(env, s, t, ok)
    decreases |stale|
  {
    if stale != [] {
      var (u, confirmed) := PrunedBatch(s, stale[0], desired, env);
      PruneBatchKeepsTidy(s, stale[0], desired, env);
      if confirmed {
        RestStaysListed(s, stale, desired, env);
        PruningStaysTidy(u, desired, stale[1..], env);
        var (t, ok, left) := PruneFrom(u, desired, stale[1..], env);
        TidilyOn(env, s, u, t, ok);
      }
    }
  }

  lemma {:induction false} InFlat(x: Slug, bs: seq<Batch>)
    ensures x in Flat(bs) <==> InSome(x, bs)
  {
    if bs != [] {
      InFlat(x, bs[..|bs| - 1]);
      assert bs == bs[..|bs| - 1] + [bs[|bs| - 1]];
    }
  }

  /** In a tidy shard every desired slug lies in some batch or is still to be sent by the connection's own loop. */
  lemma TidyCovers(s: Shard, x: Slug)
    requires Tidy(s)
    ensures x in s.meta <==> InSome(x, s.batches) || x in s.todo
  {
    InFlat(x, s.batches);
    TilesCount(Flat(s.batches), s.todo, [], s.meta, x);
    assert (x in s.meta <==> x in multiset(s.meta)) && (x in Flat(s.batches) <==> x in multiset(Flat(s.batches)));
    assert x in s.todo <==> x in multiset(s.todo);
  }

  /**
   * A confirmed prune of a settled shard: settled again unless a resubscribe
   * was refused, holding exactly the slugs still wanted.
   */
  lemma ConfirmedPruneSettles(s: Shard, desired: set<Slug>, env: Env)
    requires Settled(s) && Pruned(s, desired, env).1
    ensures var t := Pruned(s, desired, env).0;
            && t.up && t.todo == [] && Tidy(t) && t.index == s.index && t.peak <= MAX_SUBS && |t.meta| <= |s.meta|
            && (Accepted(env, s, t) ==> Settled(t))
            && forall x :: x in t.meta <==> x in s.meta && x in desired
  {
    var stale := Stale(s.batches, desired);
    StaleMembers(s.batches, desired);
    StaleIsDistinct(s.batches, desired);
    PruningStaysTidy(s, desired, stale, env);
    PruneRemoves(s, desired, stale, env);
    assert stale[..|stale|] == stale && Visits(s, desired, stale, env) == |stale|;
    forall x | x in s.meta && x !in desired ensures InSome(x, stale) {
      DeadIsStale(s, desired, x);
    }
  }

  lemma DeadIsStale(s: Shard, desired: set<Slug>, x: Slug)
    requires Tidy(s) && x in s.meta && x !in desired && x !in s.todo
    ensures InSome(x, Stale(s.batches, desired))
  {
    TidyCovers(s, x);
    StaleMembers(s.batches, desired);
    var b :| b in s.batches && x in b.slugs;
    var i :| 0 <= i < |b.slugs| && b.slugs[i] == x;
    assert IsStale(b, desired);
  }

  /**
   * Whatever is confirmed, a prune of a settled shard leaves no dead slug behind exactly when every stale batch but
   * the last is torn down without failing.
   */
  lemma PruneLeavesDeadSlugs(s: Shard, desired: set<Slug>, env: Env)
    requires Settled(s)
    ensures var t := Pruned(s, desired, env).0;
            && t.peak <= MAX_SUBS && |t.meta| <= |s.meta| && NoDuplicates(t.meta) && t.index == s.index
            && (forall x :: x in t.meta ==> x in s.meta)
            && (forall x :: x in s.meta && x in desired ==> x in t.meta)
            && ((forall x :: x in t.meta ==> x in desired) <==> Smooth(s, desired, Stale(s.batches, desired), env))
  {
    var stale := Stale(s.batches, desired);
    StaleMembers(s.batches, desired);
    StaleIsDistinct(s.batches, desired);
    PruningStaysTidy(s, desired, stale, env);
    PruneRemoves(s, desired, stale, env);
    SmoothVisitsAll(s, desired, stale, env);
    var n := Visits(s, desired, stale, env);
    if n == |stale| {
      assert stale[..n] == stale;
      forall x | x in s.meta && x !in desired ensures InSome(x, stale) { DeadIsStale(s, desired, x); }
    } else {
      UnvisitedStays(s, desired, stale, n);
    }
  }

  /** For any shard, tidy or not: a prune that gets through leaves no dead slug exactly when each lay in some batch. */
  lemma ThroughPruneIsExact(s: Shard, desired: set<Slug>, env: Env)
    requires NoDuplicates(s.meta) && Pruned(s, desired, env).1
    ensures (forall x :: x in Pruned(s, desired, env).0.meta ==> x in desired)
            <==> forall x :: x in s.meta && x !in desired ==> InSome(x, s.batches)
  {
    var stale := Stale(s.batches, desired);
    StaleMembers(s.batches, desired);
    PruneRemoves(s, desired, stale, env);
    assert stale[..|stale|] == stale && Visits(s, desired, stale, env) == |stale|;
    forall x | x !in desired ensures InSome(x, stale) <==> InSome(x, s.batches) {
      if b :| b in s.batches && x in b.slugs {
        var i :| 0 <= i < |b.slugs| && b.slugs[i] == x;
        assert IsStale(b, desired);
      }
    }
  }

  /** A dead slug of an unvisited stale batch is in no visited one. */
  lemma UnvisitedStays(s: Shard, desired: set<Slug>, stale: seq<Batch>, n: nat)
    requires Tidy(s) && stale == Stale(s.batches, desired) && n < |stale|
    ensures exists x :: x in s.meta && x !in desired && !InSome(x, stale[..n])
  {
    StaleMembers(s.batches, desired);
    StaleIsDistinct(s.batches, desired);
    var b := stale[n];
    assert b in stale && IsStale(b, desired);
    var i :| 0 <= i < |b.slugs| && b.slugs[i] !in desired;
    var x := b.slugs[i];
    TidyCovers(s, x);
    forall c | c in stale[..n] ensures x !in c.slugs {
      var j :| 0 <= j < n && stale[..n][j] == c;
      assert stale[j] == c && c in stale && c.rid != b.rid;
      OneBatchEach(s, b, c, x);
    }
    assert x in s.meta && x !in desired && !InSome(x, stale[..n]);
  }

  lemma OneBatchEach(s: Shard, b: Batch, c: Batch, x: Slug)
    requires Tidy(s) && b in s.batches && c in s.batches && b.rid != c.rid && x in b.slugs
    ensures x !in c.slugs
  {
    FlatWithout(s.batches, b);
    WithoutMembers(s.batches, b.rid);
    OnceIsOne(s.meta, x);
    var rest := Without(s.batches, b.rid);
    InFlat(x, rest);
    assert multiset(b.slugs)[x] > 0;
    assert multiset(Flat(rest))[x] + multiset(b.slugs)[x] == multiset(s.meta)[x] <= 1;
    assert x in Flat(rest) ==> multiset(Flat(rest))[x] > 0;
    assert c in rest;
  }

  // ---- refusals show ----

  ghost predicate Refused(env: Env, rid: Rid) {
    rid in env.refused || rid in env.late
  }

  /** Every request minted since `from` is in a batch, and the venue holds none of the refused ones. */
  ghost predicate Shows(env: Env, from: nat, t: Shard) {
    forall n {:trigger Rid(t.index, n)} :: from < n <= t.ridSeq ==>
      && (exists b :: b in t.batches && b.rid == Rid(t.index, n))
      && (Refused(env, Rid(t.index, n)) ==> forall b :: b in t.held ==> b.rid != Rid(t.index, n))
  }

  lemma SubscribeShows(s: Shard, slugs: seq<Slug>, env: Env, from: nat)
    requires Shows(env, from, s) && from <= s.ridSeq && (forall b :: b in s.held ==> b.rid.n <= s.ridSeq)
    requires Subscribed(s, slugs, env).1
    ensures Shows(env, from, Subscribed(s, slugs, env).0)
  {
    var t, b := Subscribed(s, slugs, env).0, Batch(Minted(s), slugs);
    forall n | from < n <= t.ridSeq
      ensures exists c :: c in t.batches && c.rid == Rid(t.index, n)
      ensures Refused(env, Rid(t.index, n)) ==> forall c :: c in t.held ==> c.rid != Rid(t.index, n)
    {
      if n == t.ridSeq {
        assert b in t.batches && b.rid == Rid(t.index, n);
      } else {
        assert Rid(t.index, n) == Rid(s.index, n);
        var c :| c in s.batches && c.rid == Rid(s.index, n);
        assert c in t.batches;
      }
    }
  }

  lemma {:induction false} SubscribeAllShows(s: Shard, slugs: seq<Slug>, env: Env, from: nat)
    requires Partial(s, slugs) && Shows(env, from, s) && from <= s.ridSeq && SubscribedAll(s, slugs, env).1
    ensures Shows(env, from, SubscribedAll(s, slugs, env).0)
    decreases |slugs|
  {
    if slugs != [] {
      var n := if |slugs| <= SUB_BATCH then |slugs| else SUB_BATCH;
      assert slugs == slugs[..n] + slugs[n..];
      SubscribeShows(s, slugs[..n], env, from);
      SubscribeKeepsPartial(s, slugs[..n], slugs[n..], env);
      SubscribeAllShows(Subscribed(s, slugs[..n], env).0, slugs[n..], env, from);
    }
  }

  lemma PruneBatchShows(s: Shard, b: Batch, desired: set<Slug>, env: Env, from: nat)
    requires Tidy(s) && s.up && b in s.batches && b.rid.n <= from && Shows(env, from, s) && from <= s.ridSeq
    requires PrunedBatch(s, b, desired, env).1
    ensures Shows(env, from, PrunedBatch(s, b, desired, env).0)
  {
    UnsubscribeKeepsPartial(s, b, desired, env);
    WithoutMembers(s.batches, b.rid);
    WithoutMembers(s.held, b.rid);
    var u := Unsubscribed(Forgotten(s, b, desired), b.rid, env).0;
    forall n | from < n <= u.ridSeq
      ensures exists c :: c in u.batches && c.rid == Rid(u.index, n)
      ensures Refused(env, Rid(u.index, n)) ==> forall c :: c in u.held ==> c.rid != Rid(u.index, n)
    {
      var c :| c in s.batches && c.rid == Rid(s.index, n);
      assert c in u.batches;
    }
    if Keep(b.slugs, desired) != [] { SubscribeShows(u, Keep(b.slugs, desired), env, from); }
  }

  lemma {:induction false} PruneShows(s: Shard, desired: set<Slug>, stale: seq<Batch>, env: Env, from: nat)
    requires Tidy(s) && s.up && Distinct(stale) && (forall b :: b in stale ==> b in s.batches && b.rid.n <= from)
    requires Shows(env, from, s) && from <= s.ridSeq && PruneFrom(s, desired, stale, env).1
    ensures Shows(env, from, PruneFrom(s, desired, stale, env).0)
    decreases |stale|
  {
    if stale != [] {
      PruneBatchShows(s, stale[0], desired, env, from);
      PruneBatchKeepsTidy(s, stale[0], desired, env);
      RestStaysListed(s, stale, desired, env);
      PruneShows(PrunedBatch(s, stale[0], desired, env).0, desired, stale[1..], env, from);
    }
  }

  /** A refusal leaves the shard's batches and the venue's view apart. */
  lemma RefusalShows(env: Env, s: Shard, t: Shard)
    requires Shows(env, s.ridSeq, t) && t.index == s.index && !Accepted(env, s, t)
    ensures t.held != t.batches
  {
    var rid :| Refused(env, rid) && rid.shard == s.index && s.ridSeq < rid.n <= t.ridSeq;
    assert rid == Rid(t.index, rid.n);
    var b :| b in t.batches && b.rid == rid;
    assert b !in t.held;
  }
}
