/** All Polymarket connections together, and the resync over them (pmarb/feeds/polymarket.py:836-937). */
module PolyFeed {
  import opened Common
  import opened PolyShard

  datatype Applied = Live | Unchanged | OnReconnect | SomeRecycled

  datatype Outcome = Outcome(shards: seq<Shard>, applied: Applied, recycled: nat, newShards: nat, unplaced: seq<Slug>)

  /** Every slug some shard has desired. */
  function Current(shards: seq<Shard>): set<Slug> {
    if shards == [] then {} else Current(shards[..|shards| - 1]) + Elements(shards[|shards| - 1].meta)
  }

  /** The desired slugs no shard has yet, in order. */
  function Added(current: set<Slug>, desired: seq<Slug>): seq<Slug> {
    if desired == [] then []
    else
      var rest := Added(current, desired[..|desired| - 1]);
      var x := desired[|desired| - 1];
      if x in current then rest else rest + [x]
  }

  function PrunedAll(shards: seq<Shard>, desired: set<Slug>, env: Env): (r: seq<Shard>)
    ensures |r| == |shards|
  {
    seq(|shards|, i requires 0 <= i < |shards| => Pruned(shards[i], desired, env).0)
  }

  /** Which shards need no recycling so far. */
  function PruneOks(shards: seq<Shard>, desired: set<Slug>, env: Env): (r: seq<bool>)
    ensures |r| == |shards|
  {
    seq(|shards|, i requires 0 <= i < |shards| => Pruned(shards[i], desired, env).1)
  }

  function Room(s: Shard): nat {
    if |s.meta| >= MAX_SUBS then 0 else MAX_SUBS - |s.meta|
  }

  function Least(x: nat, y: nat): nat {
    if x <= y then x else y
  }

  /** New slugs go to the healthy shards with room, from shard `i` on. */
  function AddFrom(shards: seq<Shard>, oks: seq<bool>, i: nat, pending: seq<Slug>,
                   env: Env): (r: (seq<Shard>, seq<bool>, seq<Slug>))
    requires |oks| == |shards| && i <= |shards|
    ensures |r.0| == |shards| && |r.1| == |shards|
    decreases |shards| - i
  {
    if i == |shards| then (shards, oks, pending)
    else if pending == [] || !oks[i] then AddFrom(shards, oks, i + 1, pending, env)
    else
      var n := Least(Room(shards[i]), |pending|);
      var (t, ok) := Extended(shards[i], pending[..n], env);
      AddFrom(shards[i := t], oks[i := ok], i + 1, pending[n..], env)
  }

  /** What is still unplaced starts new connections, each within the cap. */
  function FreshShards(index: nat, pending: seq<Slug>): seq<Shard>
    decreases |pending|
  {
    if pending == [] then []
    else
      var n := Least(MAX_SUBS, |pending|);
      [NewShard(index, pending[..n])] + FreshShards(index + 1, pending[n..])
  }

  function NextIndex(shards: seq<Shard>): nat {
    if shards == [] then 0 else Max(NextIndex(shards[..|shards| - 1]), shards[|shards| - 1].index + 1)
  }

  predicate LateError(s: Shard, env: Env) {
    exists rid :: rid in env.late && rid.shard == s.index && 0 < rid.n <= s.ridSeq
  }

  /**
   * The grace period: a watched shard that reports an error is recycled after all; so are those that already failed.
   */
  function Finished(s: Shard, ok: bool, env: Env): Shard {
    if !ok then Recycled(s) else if LateError(s, env) then Recycled(s.(errors := s.errors + 1)) else s
  }

  function Kept(s: Shard, ok: bool, env: Env): bool {
    ok && !LateError(s, env)
  }

  function FinishedAll(shards: seq<Shard>, oks: seq<bool>, env: Env): (r: seq<Shard>)
    requires |oks| == |shards|
    ensures |r| == |shards|
  {
    seq(|shards|, i requires 0 <= i < |shards| => Finished(shards[i], oks[i], env))
  }

  function RecycledCount(shards: seq<Shard>, oks: seq<bool>, n: nat, env: Env): nat
    requires n <= |shards| == |oks|
  {
    if n == 0 then 0 else RecycledCount(shards, oks, n - 1, env) + if Kept(shards[n - 1], oks[n - 1], env) then 0 else 1
  }

  function Trues(n: nat): (r: seq<bool>)
    ensures |r| == n
  {
    seq(n, i => true)
  }

  function Mutated(shards: seq<Shard>, desired: seq<Slug>, env: Env, streaming: bool): Outcome {
    var wanted := Elements(desired);
    var (kept, oks, pending) :=
        AddFrom(PrunedAll(shards, wanted, env), PruneOks(shards, wanted, env), 0, Added(Current(shards), desired), env);
    var more := if streaming then FreshShards(NextIndex(kept), pending) else [];
    var watched := oks + Trues(|more|);
    var recycled := RecycledCount(kept + more, watched, |kept + more|, env);
    var applied := if recycled > 0 then SomeRecycled else Live;
    Outcome(FinishedAll(kept + more, watched, env), applied, recycled, |more|, if streaming then [] else pending)
  }

  /** Makes the live subscriptions cover `desired`, dropping first, then adding. */
  function Resynced(shards: seq<Shard>, desired: seq<Slug>, env: Env, streaming: bool): Outcome {
    if shards == [] then Outcome([], OnReconnect, 0, 0, [])
    else if Added(Current(shards), desired) == [] && Current(shards) <= Elements(desired)
    then Outcome(shards, Unchanged, 0, 0, [])
    else Mutated(shards, desired, env, streaming)
  }

  /** `count` shards have been started since `was`, and `left` is still to be placed. */
  ghost predicate Spawning(was: seq<Shard>, pending: seq<Slug>, now: seq<Shard>, left: seq<Slug>, count: nat) {
    && now + FreshShards(NextIndex(now), left) == was + FreshShards(NextIndex(was), pending)
    && count + |FreshShards(NextIndex(now), left)| == |FreshShards(NextIndex(was), pending)|
  }

  lemma NextAfter(shards: seq<Shard>, s: Shard)
    requires s.index == NextIndex(shards)
    ensures NextIndex(shards + [s]) == NextIndex(shards) + 1
  {
    assert (shards + [s])[..|shards|] == shards;
  }

  lemma Regroup(a: seq<Shard>, b: seq<Shard>, c: seq<Shard>)
    ensures a + (b + c) == a + b + c
  {
  }

  lemma SpawningNext(was: seq<Shard>, pending: seq<Slug>, now: seq<Shard>, left: seq<Slug>, count: nat)
    requires Spawning(was, pending, now, left, count) && left != []
    ensures var n := Least(MAX_SUBS, |left|);
            Spawning(was, pending, now + [NewShard(NextIndex(now), left[..n])], left[n..], count + 1)
  {
    var n := Least(MAX_SUBS, |left|);
    var s := NewShard(NextIndex(now), left[..n]);
    NextAfter(now, s);
    assert FreshShards(NextIndex(now), left) == [s] + FreshShards(NextIndex(now) + 1, left[n..]);
    Regroup(now, [s], FreshShards(NextIndex(now) + 1, left[n..]));
  }

  // ---- in place, over shard objects ----

  class Feed {
    var shards: seq<ShardState>

    ghost predicate Valid()
      reads this
    {
      forall i, j :: 0 <= i < j < |shards| ==> shards[i] != shards[j]
    }

    ghost predicate GrownFrom(was: seq<ShardState>)
      reads this
    {
      |was| <= |shards| && forall j :: 0 <= j < |was| ==> shards[j] == was[j]
    }

    ghost function Values(): (r: seq<Shard>)
      reads this, shards
      ensures |r| == |shards|
    {
      seq(|shards|, i requires 0 <= i < |shards| reads this, shards => shards[i].Value())
    }

    method PruneAll(desired: set<Slug>, env: Env) returns (oks: seq<bool>)
      requires Valid()
      modifies shards
      ensures Values() == PrunedAll(old(Values()), desired, env)
      ensures oks == PruneOks(old(Values()), desired, env)
    {
      ghost var was := Values();
      oks := [];
      for i := 0 to |shards|
        invariant |oks| == i && forall j :: 0 <= j < i ==> oks[j] == Pruned(was[j], desired, env).1
        invariant forall j :: 0 <= j < |shards| ==> shards[j].Value() == if j < i then Pruned(was[j], desired, env).0
                  else was[j]
      {
        var ok, left := shards[i].PruneShard(desired, env);
        oks := oks + [ok];
      }
    }

    method AddAll(oks: seq<bool>, added: seq<Slug>, env: Env) returns (after: seq<bool>, pending: seq<Slug>)
      requires Valid() && |oks| == |shards|
      modifies shards
      ensures (Values(), after, pending) == AddFrom(old(Values()), oks, 0, added, env)
    {
      ghost var was := Values();
      after, pending := oks, added;
      for i := 0 to |shards|
        invariant |after| == |shards|
        invariant AddFrom(Values(), after, i, pending, env) == AddFrom(was, oks, 0, added, env)
      {
        if pending == [] || !after[i] { continue; }
        ghost var before := Values();
        var room := if |shards[i].meta| >= MAX_SUBS then 0 else MAX_SUBS - |shards[i].meta|;
        var n := Least(room, |pending|);
        assert before[i] == shards[i].Value();
        var ok := shards[i].Extend(pending[..n], env);
        assert Values() == before[i := Extended(before[i], pending[..n], env).0];
        after, pending := after[i := ok], pending[n..];
      }
    }

    /** The errors of the grace period arrive; every shard that failed or reported one reconnects. */
    method Finish(oks: seq<bool>, env: Env) returns (recycled: nat)
      requires Valid() && |oks| == |shards|
      modifies shards
      ensures Values() == FinishedAll(old(Values()), oks, env)
      ensures recycled == RecycledCount(old(Values()), oks, |shards|, env)
    {
      ghost var was := Values();
      recycled := 0;
      for i := 0 to |shards|
        invariant forall j :: 0 <= j < |shards| ==> shards[j].Value() == if j < i then Finished(was[j], oks[j], env)
                  else was[j]
        invariant recycled == RecycledCount(was, oks, i, env)
      {
        var kept := FinishShard(shards[i], oks[i], env);
        if !kept { recycled := recycled + 1; }
      }
    }

    method FreeIndex() returns (index: nat)
      ensures index == NextIndex(Values())
    {
      index := 0;
      for i := 0 to |shards|
        invariant index == NextIndex(Values()[..i])
      {
        assert Values()[..i + 1][..i] == Values()[..i] && Values()[i].index == shards[i].index;
        index := Max(index, shards[i].index + 1);
      }
      assert Values()[..|shards|] == Values();
    }

    method SpawnShard(slugs: seq<Slug>)
      requires Valid()
      modifies this
      ensures Valid()
      ensures Values() == old(Values()) + [NewShard(NextIndex(old(Values())), slugs)]
      ensures |shards| == |old(shards)| + 1 && GrownFrom(old(shards)) && fresh(shards[|old(shards)|])
    {
      var index := FreeIndex();
      var s := new ShardState(index, slugs);
      shards := shards + [s];
    }

    /** Starts a connection for each chunk of what is left; its own task connects it later. */
    method SpawnShards(pending: seq<Slug>) returns (count: nat)
      requires Valid()
      modifies this
      ensures Valid() && Values() == old(Values()) + FreshShards(NextIndex(old(Values())), pending)
      ensures count == |FreshShards(NextIndex(old(Values())), pending)|
      ensures GrownFrom(old(shards)) && forall j :: |old(shards)| <= j < |shards| ==> fresh(shards[j])
    {
      count := 0;
      var left := pending;
      while left != []
        invariant Valid() && |shards| == |old(shards)| + count && GrownFrom(old(shards))
        invariant forall j :: |old(shards)| <= j < |shards| ==> fresh(shards[j])
        invariant Spawning(old(Values()), pending, Values(), left, count)
        decreases |left|
      {
        var n := Least(MAX_SUBS, |left|);
        ghost var before := Values();
        SpawningNext(old(Values()), pending, before, left, count);
        SpawnShard(left[..n]);
        assert Values() == before + [NewShard(NextIndex(before), left[..n])];
        left := left[n..];
        count := count + 1;
      }
    }

    method CurrentSlugs() returns (current: set<Slug>)
      ensures current == Current(Values())
    {
      current := {};
      for i := 0 to |shards|
        invariant current == Current(Values()[..i])
      {
        assert Values()[..i + 1][..i] == Values()[..i] && Values()[i].meta == shards[i].meta;
        current := current + Elements(shards[i].meta);
      }
      assert Values()[..|shards|] == Values();
    }

    method Mutate(desired: seq<Slug>, added: seq<Slug>, env: Env, streaming: bool)
      returns (applied: Applied, recycled: nat, newShards: nat, unplaced: seq<Slug>)
      requires Valid() && added == Added(Current(Values()), desired)
      modifies this, shards
      ensures Valid()
      ensures Outcome(Values(), applied, recycled, newShards, unplaced) ==
              Mutated(old(Values()), desired, env, streaming)
    {
      var oks := PruneAll(Elements(desired), env);
      oks, unplaced := AddAll(oks, added, env);
      ghost var kept, pending := Values(), unplaced;
      newShards := 0;
      if streaming {
        newShards := SpawnShards(unplaced);
        unplaced := [];
      }
      assert Values() == kept + if streaming then FreshShards(NextIndex(kept), pending) else [];
      recycled := Finish(oks + Trues(newShards), env);
      applied := if recycled > 0 then SomeRecycled else Live;
    }

    method Resync(desired: seq<Slug>, env: Env, streaming: bool)
      returns (applied: Applied, recycled: nat, newShards: nat, unplaced: seq<Slug>)
      requires Valid()
      modifies this, shards
      ensures Valid()
      ensures Outcome(Values(), applied, recycled, newShards, unplaced) ==
              Resynced(old(Values()), desired, env, streaming)
    {
      if shards == [] {
        assert Values() == [];
        return OnReconnect, 0, 0, [];
      }
      var current := CurrentSlugs();
      var added := Added(current, desired);
      if added == [] && current <= Elements(desired) { return Unchanged, 0, 0, []; }
      applied, recycled, newShards, unplaced := Mutate(desired, added, env, streaming);
    }
  }

  method FinishShard(s: ShardState, ok: bool, env: Env) returns (kept: bool)
    modifies s
    ensures s.Value() == Finished(old(s.Value()), ok, env)
    ensures kept == Kept(old(s.Value()), ok, env)
  {
    var late := exists rid :: rid in env.late && rid.shard == s.index && 0 < rid.n <= s.ridSeq;
    assert late == LateError(s.Value(), env);
    kept := ok && !late;
    if ok && late { s.errors := s.errors + 1; }
    if !kept { s.Recycle(); }
  }
}
