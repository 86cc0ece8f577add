/**
 * One Polymarket connection and its subscriptions (pmarb/feeds/polymarket.py:461-487, 668-717, 773-834, 939-980).
 * A removable unit is a whole batch: one subscribe call, named by its request id.
 */
module PolyShard {
  const SUB_BATCH: nat := 200
  const MAX_SUBS: nat := 1900

  type Slug = string

  datatype Rid = Rid(shard: nat, n: nat)

  datatype Batch = Batch(rid: Rid, slugs: seq<Slug>)

  /**
   * meta: the desired slugs, in insertion order. held: what the venue has accepted on this connection.
   * todo: what this connection's own subscribe loop has still to send. peak: the largest number of slugs the venue was
   * ever asked to hold at once, refused requests included. sent: the request id of every subscribe put on the wire.
   */
  datatype Shard = Shard(index: nat, meta: seq<Slug>, batches: seq<Batch>, up: bool, errors: nat, ridSeq: nat,
    held: seq<Batch>, todo: seq<Slug>, peak: nat, sent: seq<Rid>)

  /** A shard before its first connection. */
  function NewShard(index: nat, slugs: seq<Slug>): Shard {
    Shard(index, slugs, [], false, 0, 0, [], [], 0, [])
  }

  /**
   * What the venue and the network do with each request: unsubscribes that go unconfirmed (and of those, the
   * ones applied all the same), sends that find the socket closed, subscribes refused with an error frame that
   * arrives at once, and subscribes refused with one that arrives during the grace period at the end of a resync.
   */
  datatype Env = Env(lost: set<Rid>, freed: set<Rid>, cut: set<Rid>, refused: set<Rid>, late: set<Rid>)

  function Flat(bs: seq<Batch>): seq<Slug> {
    if bs == [] then [] else Flat(bs[..|bs| - 1]) + bs[|bs| - 1].slugs
  }

  function Load(s: Shard): nat {
    |Flat(s.held)|
  }

  function Without(bs: seq<Batch>, rid: Rid): seq<Batch> {
    if bs == [] then []
    else
      var rest := Without(bs[..|bs| - 1], rid);
      if bs[|bs| - 1].rid == rid then rest else rest + [bs[|bs| - 1]]
  }

  function Keep(slugs: seq<Slug>, wanted: set<Slug>): seq<Slug> {
    if slugs == [] then []
    else
      var rest := Keep(slugs[..|slugs| - 1], wanted);
      if slugs[|slugs| - 1] in wanted then rest + [slugs[|slugs| - 1]] else rest
  }

  /** `slugs` without the members of `dead` that are not wanted. */
  function Drop(slugs: seq<Slug>, dead: seq<Slug>, wanted: set<Slug>): seq<Slug> {
    if slugs == [] then []
    else
      var rest := Drop(slugs[..|slugs| - 1], dead, wanted);
      var x := slugs[|slugs| - 1];
      if x in dead && x !in wanted then rest else rest + [x]
  }

  function Minted(s: Shard): Rid {
    Rid(s.index, s.ridSeq + 1)
  }

  function Max(x: nat, y: nat): nat {
    if x >= y then x else y
  }

  /** One subscribe call under a fresh request id; false when the socket turned out closed. */
  function Subscribed(s: Shard, slugs: seq<Slug>, env: Env): (Shard, bool) {
    var rid := Minted(s);
    var minted := s.(ridSeq := s.ridSeq + 1);
    var listed := minted.(batches := s.batches + [Batch(rid, slugs)], sent := s.sent + [rid],
                          peak := Max(s.peak, Load(s) + |slugs|));
    if rid in env.cut then (minted, false)
    else if rid in env.refused || rid in env.late then
      (listed.(errors := s.errors + if rid in env.refused then 1 else 0), true)
    else (listed.(held := s.held + [Batch(rid, slugs)]), true)
  }

  /** One unsubscribe, waited for; false when the venue never confirmed it. */
  function Unsubscribed(s: Shard, rid: Rid, env: Env): (Shard, bool) {
    if rid in env.lost && rid !in env.freed then (s, false)
    else (s.(held := Without(s.held, rid)), rid !in env.lost)
  }

  predicate IsStale(b: Batch, desired: set<Slug>) {
    exists i :: 0 <= i < |b.slugs| && b.slugs[i] !in desired
  }

  function Stale(bs: seq<Batch>, desired: set<Slug>): seq<Batch> {
    if bs == [] then []
    else
      var rest := Stale(bs[..|bs| - 1], desired);
      if IsStale(bs[|bs| - 1], desired) then rest + [bs[|bs| - 1]] else rest
  }

  /** A stale batch is forgotten and its dead slugs are no longer desired. */
  function Forgotten(s: Shard, b: Batch, desired: set<Slug>): Shard {
    s.(meta := Drop(s.meta, b.slugs, desired), batches := Without(s.batches, b.rid))
  }

  /** One stale batch: forgotten, torn down, and its survivors subscribed again. */
  function PrunedBatch(s: Shard, b: Batch, desired: set<Slug>, env: Env): (Shard, bool) {
    var f := Forgotten(s, b, desired);
    if !s.up then (f, true)
    else
      var (u, confirmed) := Unsubscribed(f, b.rid, env);
      if !confirmed then (u, false)
      else if Keep(b.slugs, desired) == [] then (u, true)
      else Subscribed(u, Keep(b.slugs, desired), env)
  }

  /** The stale batches one after another; a failure leaves the rest unvisited. */
  function PruneFrom(s: Shard, desired: set<Slug>, stale: seq<Batch>, env: Env): (Shard, bool, seq<Batch>)
    decreases |stale|
  {
    if stale == [] then (s, true, [])
    else
      var (t, ok) := PrunedBatch(s, stale[0], desired, env);
      if ok then PruneFrom(t, desired, stale[1..], env) else (t, false, stale[1..])
  }

  function Pruned(s: Shard, desired: set<Slug>, env: Env): (Shard, bool, seq<Batch>) {
    PruneFrom(s, desired, Stale(s.batches, desired), env)
  }

  /** Slugs subscribed in batches of at most SUB_BATCH, until done or cut off. */
  function SubscribedAll(s: Shard, slugs: seq<Slug>, env: Env): (Shard, bool)
    decreases |slugs|
  {
    if slugs == [] then (s, true)
    else
      var n := if |slugs| <= SUB_BATCH then |slugs| else SUB_BATCH;
      var (t, ok) := Subscribed(s, slugs[..n], env);
      if ok then SubscribedAll(t, slugs[n..], env) else (t, false)
  }

  /** New slugs join the desired set, and the live subscription when there is one. */
  function Extended(s: Shard, take: seq<Slug>, env: Env): (Shard, bool) {
    var wants := s.(meta := s.meta + take);
    if take == [] || !s.up then (wants, true) else SubscribedAll(wants, take, env)
  }

  /** A closed socket: the venue holds nothing for it any more. */
  function Recycled(s: Shard): Shard {
    s.(up := false, held := [], todo := [])
  }

  /** A connection subscribes everything desired by then, under fresh request ids. */
  function Connected(s: Shard, env: Env): Shard {
    var (t, ok) := SubscribedAll(s.(up := true, batches := [], held := [], todo := []), s.meta, env);
    if ok then t else Recycled(t)
  }

  // ---- the same in place ----

  /** A shard's fields, updated in place; `held`, `peak` and `sent` are the venue's side, `todo` the reader task's. */
  class ShardState {
    const index: nat
    var meta: seq<Slug>
    var batches: seq<Batch>
    var up: bool
    var errors: nat
    var ridSeq: nat
    ghost var held: seq<Batch>
    ghost var todo: seq<Slug>
    ghost var peak: nat
    ghost var sent: seq<Rid>

    ghost function Value(): Shard
      reads this
    {
      Shard(index, meta, batches, up, errors, ridSeq, held, todo, peak, sent)
    }

    constructor (i: nat, slugs: seq<Slug>)
      ensures Value() == NewShard(i, slugs)
    {
      index, meta, batches, up, errors, ridSeq, held, todo, peak, sent := i, slugs, [], false, 0, 0, [], [], 0, [];
    }

    method MintRequestId() returns (rid: Rid)
      modifies this`ridSeq
      ensures rid == Minted(old(Value())) && Value() == old(Value()).(ridSeq := old(ridSeq) + 1)
    {
      ridSeq := ridSeq + 1;
      rid := Rid(index, ridSeq);
    }

    method SendSubscribe(slugs: seq<Slug>, env: Env) returns (ok: bool)
      modifies this
      ensures (Value(), ok) == Subscribed(old(Value()), slugs, env)
    {
      var rid := MintRequestId();
      if rid in env.cut { return false; }
      sent := sent + [rid];
      peak := Max(peak, |Flat(held)| + |slugs|);
      batches := batches + [Batch(rid, slugs)];
      if rid in env.refused {
        errors := errors + 1;
      } else if rid !in env.late {
        held := held + [Batch(rid, slugs)];
      }
      ok := true;
    }

    method SendUnsubscribe(rid: Rid, env: Env) returns (ok: bool)
      modifies this`held
      ensures (Value(), ok) == Unsubscribed(old(Value()), rid, env)
    {
      if rid !in env.lost || rid in env.freed { held := Without(held, rid); }
      ok := rid !in env.lost;
    }

    method PruneBatch(b: Batch, desired: set<Slug>, env: Env) returns (ok: bool)
      modifies this
      ensures (Value(), ok) == PrunedBatch(old(Value()), b, desired, env)
    {
      var survivors := Keep(b.slugs, desired);
      meta := Drop(meta, b.slugs, desired);
      batches := Without(batches, b.rid);
      if !up { return true; }
      ok := SendUnsubscribe(b.rid, env);
      if ok && survivors != [] { ok := SendSubscribe(survivors, env); }
    }

    /** Drops everything no longer wanted; false when the shard must be recycled instead. */
    method PruneShard(desired: set<Slug>, env: Env) returns (ok: bool, ghost left: seq<Batch>)
      modifies this
      ensures (Value(), ok, left) == Pruned(old(Value()), desired, env)
    {
      var stale := Stale(batches, desired);
      ok, left := true, [];
      assert stale[0..] == stale;
      for i := 0 to |stale|
        invariant ok && left == []
        invariant PruneFrom(Value(), desired, stale[i..], env) == Pruned(old(Value()), desired, env)
      {
        assert stale[i..][1..] == stale[i + 1..];
        ok := PruneBatch(stale[i], desired, env);
        if !ok {
          left := stale[i + 1..];
          return;
        }
      }
    }

    method SubscribeAll(slugs: seq<Slug>, env: Env) returns (ok: bool)
      modifies this
      ensures (Value(), ok) == SubscribedAll(old(Value()), slugs, env)
    {
      var i := 0;
      assert slugs[0..] == slugs;
      while i < |slugs|
        invariant 0 <= i <= |slugs|
        invariant SubscribedAll(Value(), slugs[i..], env) == SubscribedAll(old(Value()), slugs, env)
      {
        var n := if |slugs| - i <= SUB_BATCH then |slugs| - i else SUB_BATCH;
        assert slugs[i..][..n] == slugs[i..i + n] && slugs[i..][n..] == slugs[i + n..];
        ok := SendSubscribe(slugs[i..i + n], env);
        if !ok { return; }
        i := i + n;
      }
      ok := true;
    }

    method Extend(take: seq<Slug>, env: Env) returns (ok: bool)
      modifies this
      ensures (Value(), ok) == Extended(old(Value()), take, env)
    {
      meta := meta + take;
      if take == [] || !up { return true; }
      ok := SubscribeAll(take, env);
    }

    method Recycle()
      modifies this
      ensures Value() == Recycled(old(Value()))
    {
      up, held, todo := false, [], [];
    }

    method Connect(env: Env)
      modifies this
      ensures Value() == Connected(old(Value()), env)
    {
      up, held, todo := true, [], [];
      batches := [];
      var ok := SubscribeAll(meta, env);
      if !ok { Recycle(); }
    }
  }
}
