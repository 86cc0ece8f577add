/** A resync and a connect in one step are the runs of their sends that nothing interrupts. */
module PolyWhole {
  import opened Common
  import opened PolyShard
  import opened PolyShardLaws
  import opened PolyFeed
  import opened PolyRuns

  // ---- a resync nothing interrupts ----

  predicate OfConnection(e: Event) {
    e.Lose? || e.Open? || e.Send?
  }

  ghost predicate Undisturbed(events: seq<Event>) {
    forall e :: e in events ==> !OfConnection(e)
  }

  /** A longer run, undisturbed if it was. */
  ghost predicate Continues(states: seq<State>, events: seq<Event>, longer: seq<State>, more: seq<Event>) {
    Steps(longer, more) && states != [] && states <= longer && (Undisturbed(events) ==> Undisturbed(more))
  }

  lemma Onward(states: seq<State>, events: seq<Event>, e: Event) returns (longer: seq<State>, more: seq<Event>)
    requires Steps(states, events) && Enabled(Last(states), e) && !OfConnection(e)
    ensures Continues(states, events, longer, more) && Last(longer) == Next(Last(states), e)
    ensures |longer| == |states| + 1
  {
    longer, more := Extend(states, events, e);
  }

  /** One stale batch, answered as the environment says. */
  lemma PruneBatchOn(states: seq<State>, events: seq<Event>, env: Env)
    returns (longer: seq<State>, more: seq<Event>)
    requires Steps(states, events) && Enabled(Last(states), Take) && Last(states).cycle.work.oks[Last(states).cycle.at]
    ensures Continues(states, events, longer, more)
    ensures var z := Last(states);
            var w, at := z.cycle.work, z.cycle.at;
            var (t, ok) := PrunedBatch(z.shards[at], z.cycle.stale[0], Wanted(w), env);
            Last(longer) == if ok then State(z.shards[at := t], Pruning(w, at, z.cycle.stale[1..], Ready))
                            else Failed(z.shards[at := t], w, at)
  {
    var at, b := Last(states).cycle.at, Last(states).cycle.stale[0];
    var up := Last(states).shards[at].up;
    longer, more := Onward(states, events, Take);
    if up {
      if b.rid in env.lost {
        longer, more := Onward(longer, more, Unconfirmed(b.rid in env.freed));
      } else {
        longer, more := Onward(longer, more, Confirm);
        longer, more := Onward(longer, more, Resubscribe(env));
      }
    }
  }

  /** All stale batches of one shard. */
  lemma {:induction false} PruneShardOn(states: seq<State>, events: seq<Event>, env: Env)
    returns (longer: seq<State>, more: seq<Event>)
    requires Steps(states, events) && Aligned(Last(states)) && Last(states).cycle.Pruning?
    requires Last(states).cycle.doing == Ready && Last(states).cycle.work.oks[Last(states).cycle.at]
    ensures Continues(states, events, longer, more)
    ensures var z := Last(states);
            var w, at := z.cycle.work, z.cycle.at;
            var (t, ok, _) := PruneFrom(z.shards[at], Wanted(w), z.cycle.stale, env);
            Last(longer) == PassedOn(z.shards[at := t], w.(oks := w.oks[at := ok]), at)
    decreases |Last(states).cycle.stale|
  {
    var z := Last(states);
    var w, at, stale := z.cycle.work, z.cycle.at, z.cycle.stale;
    if stale == [] {
      longer, more := Onward(states, events, Pass);
      assert z.shards[at := z.shards[at]] == z.shards && w.oks[at := true] == w.oks;
    } else {
      var (t, ok) := PrunedBatch(z.shards[at], stale[0], Wanted(w), env);
      longer, more := PruneBatchOn(states, events, env);
      if ok { longer, more := PruneShardOn(longer, more, env); }
    }
  }

  function PruneRest(z: State, env: Env): State
    requires Aligned(z) && z.cycle.Pruning?
  {
    var w, at, n := z.cycle.work, z.cycle.at, |z.shards|;
    State(seq(n, i requires 0 <= i < n => if i < at then z.shards[i] else Pruned(z.shards[i], Wanted(w), env).0),
          Adding(w.(oks := seq(n, i requires 0 <= i < n =>
                   if i < at then w.oks[i] else Pruned(z.shards[i], Wanted(w), env).1)), 0, []))
  }

  /** At the first stale batch of shard `at`, which like those after it has not failed. */
  ghost predicate AtShard(z: State) {
    && Aligned(z) && z.cycle.Pruning? && z.cycle.doing == Ready
    && z.cycle.stale == Stale(z.shards[z.cycle.at].batches, Wanted(z.cycle.work))
    && forall i :: z.cycle.at <= i < |z.shards| ==> z.cycle.work.oks[i]
  }

  lemma {:induction false} PrunesOn(states: seq<State>, events: seq<Event>, env: Env)
    returns (longer: seq<State>, more: seq<Event>)
    requires Steps(states, events) && AtShard(Last(states))
    ensures Continues(states, events, longer, more) && Last(longer) == PruneRest(Last(states), env)
    decreases |Last(states).shards| - Last(states).cycle.at
  {
    var z := Last(states);
    longer, more := PruneShardOn(states, events, env);
    var y := Last(longer);
    if z.cycle.at + 1 < |z.shards| {
      assert PruneRest(y, env).shards == PruneRest(z, env).shards;
      assert PruneRest(y, env).cycle.work.oks == PruneRest(z, env).cycle.work.oks;
      longer, more := PrunesOn(longer, more, env);
    } else {
      assert y.shards == PruneRest(z, env).shards && y.cycle.work.oks == PruneRest(z, env).cycle.work.oks;
    }
  }

  /** All new slugs of one live shard. */
  lemma {:induction false} AddShardOn(states: seq<State>, events: seq<Event>, env: Env)
    returns (longer: seq<State>, more: seq<Event>)
    requires Steps(states, events) && Enabled(Last(states), SendAdd(env))
    requires Last(states).shards[Last(states).cycle.at].up && Last(states).cycle.work.oks[Last(states).cycle.at]
    ensures Continues(states, events, longer, more)
    ensures var z := Last(states);
            var w, at := z.cycle.work, z.cycle.at;
            var (t, ok) := SubscribedAll(z.shards[at], z.cycle.rest, env);
            Last(longer) == State(z.shards[at := t], Adding(w.(oks := w.oks[at := ok]), at + 1, []))
    decreases |Last(states).cycle.rest|
  {
    var z := Last(states);
    var w, at, rest := z.cycle.work, z.cycle.at, z.cycle.rest;
    longer, more := Onward(states, events, SendAdd(env));
    var (t, ok) := Subscribed(z.shards[at], rest[..Head(rest)], env);
    if ok && rest[Head(rest)..] != [] {
      longer, more := AddShardOn(longer, more, env);
    } else if ok {
      assert SubscribedAll(t, rest[Head(rest)..], env) == (t, true);
      assert w.oks[at := true] == w.oks;
    }
  }

  /** One shard's share of the new slugs. */
  lemma AddOneOn(states: seq<State>, events: seq<Event>, env: Env)
    returns (longer: seq<State>, more: seq<Event>)
    requires Steps(states, events) && Enabled(Last(states), Place)
    requires Last(states).cycle.work.pending != [] && Last(states).cycle.work.oks[Last(states).cycle.at]
    ensures Continues(states, events, longer, more)
    ensures var z := Last(states);
            var w, at := z.cycle.work, z.cycle.at;
            var n := Least(Room(z.shards[at]), |w.pending|);
            var (t, ok) := Extended(z.shards[at], w.pending[..n], env);
            Last(longer) == State(z.shards[at := t],
                                  Adding(w.(oks := w.oks[at := ok], pending := w.pending[n..]), at + 1, []))
  {
    var z := Last(states);
    longer, more := Onward(states, events, Place);
    if Last(longer).cycle.rest != [] {
      longer, more := AddShardOn(longer, more, env);
    } else {
      assert z.cycle.work.oks[z.cycle.at := true] == z.cycle.work.oks;
    }
  }

  lemma {:induction false} AddsOn(states: seq<State>, events: seq<Event>, env: Env)
    returns (longer: seq<State>, more: seq<Event>)
    requires Steps(states, events) && Aligned(Last(states))
    requires Last(states).cycle.Adding? && Last(states).cycle.rest == []
    ensures Continues(states, events, longer, more)
    ensures var w := Last(states).cycle.work;
            var (after, oks, rest) := AddFrom(Last(states).shards, w.oks, Last(states).cycle.at, w.pending, env);
            Last(longer) == State(after, Adding(w.(oks := oks, pending := rest), |after|, []))
    decreases |Last(states).shards| - Last(states).cycle.at
  {
    var z := Last(states);
    var w, at := z.cycle.work, z.cycle.at;
    if at == |z.shards| {
      longer, more := states, events;
    } else if w.pending == [] || !w.oks[at] {
      longer, more := Onward(states, events, Place);
      longer, more := AddsOn(longer, more, env);
    } else {
      longer, more := AddOneOn(states, events, env);
      longer, more := AddsOn(longer, more, env);
    }
  }

  function CloseRest(z: State): State
    requires Aligned(z) && z.cycle.Closing?
  {
    var w, at, n := z.cycle.work, z.cycle.at, |z.shards|;
    State(seq(n, i requires 0 <= i < n => if i < at || w.oks[i] then z.shards[i] else Recycled(z.shards[i])), Idle)
  }

  lemma {:induction false} ClosesOn(states: seq<State>, events: seq<Event>)
    returns (longer: seq<State>, more: seq<Event>)
    requires Steps(states, events) && Aligned(Last(states)) && Last(states).cycle.Closing?
    ensures Continues(states, events, longer, more) && Last(longer) == CloseRest(Last(states))
    decreases |Last(states).shards| - Last(states).cycle.at
  {
    var z := Last(states);
    longer, more := Onward(states, events, Close);
    if z.cycle.at + 1 < |z.shards| {
      assert CloseRest(CloseOne(z)) == CloseRest(z);
      longer, more := ClosesOn(longer, more);
    } else {
      assert CloseOne(z) == CloseRest(z);
    }
  }

  lemma {:induction false} SomeRecycledCounts(shards: seq<Shard>, oks: seq<bool>, n: nat, env: Env)
    requires n <= |shards| == |oks|
    ensures RecycledCount(shards, oks, n, env) == 0 <==> forall i :: 0 <= i < n ==> Kept(shards[i], oks[i], env)
  {
    if n > 0 { SomeRecycledCounts(shards, oks, n - 1, env); }
  }

  lemma JudgedAndClosed(z: State, env: Env)
    requires Aligned(z) && z.cycle.Watching?
    ensures CloseRest(Judged(z, env)) == State(FinishedAll(z.shards, z.cycle.work.oks, env), Idle)
    ensures (forall ok :: ok in Judged(z, env).cycle.work.oks ==> ok)
            <==> RecycledCount(z.shards, z.cycle.work.oks, |z.shards|, env) == 0
  {
    var y := Judged(z, env);
    SomeRecycledCounts(z.shards, z.cycle.work.oks, |z.shards|, env);
    assert forall i :: 0 <= i < |z.shards| ==> y.cycle.work.oks[i] == Kept(z.shards[i], z.cycle.work.oks[i], env);
    if forall ok :: ok in y.cycle.work.oks ==> ok {
      assert forall i :: 0 <= i < |z.shards| ==> y.cycle.work.oks[i] in y.cycle.work.oks;
    }
    var closed, finished := CloseRest(y).shards, FinishedAll(z.shards, z.cycle.work.oks, env);
    forall i | 0 <= i < |z.shards| ensures closed[i] == finished[i] {}
  }

  /** Pruned and added to, a resync comes to its overflow. */
  lemma SendsOn(shards: seq<Shard>, desired: seq<Slug>, env: Env) returns (states: seq<State>, events: seq<Event>)
    requires Enabled(State(shards, Idle), Begin(desired))
    ensures Steps(states, events) && Undisturbed(events) && states[0] == State(shards, Idle)
    ensures var wanted := Elements(desired);
            var (kept, oks, pending) := AddFrom(PrunedAll(shards, wanted, env), PruneOks(shards, wanted, env), 0,
                                                Added(Current(shards), desired), env);
            Last(states) == State(kept, Adding(Work(desired, Current(shards), oks, pending), |kept|, []))
  {
    var wanted := Elements(desired);
    states, events := [State(shards, Idle)], [];
    states, events := Onward(states, events, Begin(desired));
    states, events := PrunesOn(states, events, env);
    assert Last(states).shards == PrunedAll(shards, wanted, env);
    assert Last(states).cycle.work.oks == PruneOks(shards, wanted, env);
    states, events := AddsOn(states, events, env);
  }

  /**
   * The resync taken in one step is the run in which no connection moves meanwhile: the same shards at the end, and
   * live exactly when every shard is judged healthy.
   */
  lemma ResyncIsARun(shards: seq<Shard>, desired: seq<Slug>, env: Env, streaming: bool)
    returns (states: seq<State>, events: seq<Event>, judged: nat)
    requires Enabled(State(shards, Idle), Begin(desired))
    ensures Steps(states, events) && Undisturbed(events) && states[0] == State(shards, Idle)
    ensures Last(states) == State(Resynced(shards, desired, env, streaming).shards, Idle)
    ensures judged < |states| && states[judged].cycle.Closing?
    ensures Resynced(shards, desired, env, streaming).applied == Live <==>
            forall ok :: ok in states[judged].cycle.work.oks ==> ok
    ensures states[judged].cycle.work.pending == Resynced(shards, desired, env, streaming).unplaced
  {
    states, events := SendsOn(shards, desired, env);
    states, events := Onward(states, events, Spawn(streaming));
    JudgedAndClosed(Last(states), env);
    states, events := Onward(states, events, Judge(env));
    judged := |states| - 1;
    states, events := ClosesOn(states, events);
  }

  // ---- a connection nothing interrupts ----

  /** Shard `i` has opened; what its loop sends from here is the rest of its connect. */
  lemma {:induction false} LoopOn(states: seq<State>, events: seq<Event>, i: nat, env: Env)
    returns (longer: seq<State>, more: seq<Event>)
    requires Steps(states, events) && Aligned(Last(states)) && i < |Last(states).shards| && Last(states).shards[i].up
    ensures Steps(longer, more) && states <= longer
    ensures var s := Last(states).shards[i];
            var (t, ok) := SubscribedAll(s.(todo := []), s.todo, env);
            Last(longer) == With(Last(states), i, if ok then t else Recycled(t))
    decreases |Last(states).shards[i].todo|
  {
    var z := Last(states);
    var s := z.shards[i];
    if s.todo == [] {
      longer, more := states, events;
      assert s.(todo := []) == s && z.shards[i := s] == z.shards;
    } else {
      var n := Head(s.todo);
      longer, more := Extend(states, events, Send(i, env));
      LoopSkipsTodo(s, env);
      var (u, ok) := Subscribed(s.(todo := []), s.todo[..n], env);
      if ok {
        longer, more := LoopOn(longer, more, i, env);
      }
    }
  }

  /** A send does not look at what the loop has still to send. */
  lemma LoopSkipsTodo(s: Shard, env: Env)
    requires s.todo != []
    ensures var (u, ok) := Subscribed(s.(todo := []), s.todo[..Head(s.todo)], env);
            LoopSent(s, env) == if ok then u.(todo := s.todo[Head(s.todo)..]) else Recycled(u)
  {
  }

  /** The connect taken in one step is an opening and its loop's sends. */
  lemma ConnectIsARun(states: seq<State>, events: seq<Event>, i: nat, env: Env)
    returns (longer: seq<State>, more: seq<Event>)
    requires Steps(states, events) && Enabled(Last(states), Open(i))
    ensures Steps(longer, more) && states <= longer
    ensures Last(longer) == With(Last(states), i, Connected(Last(states).shards[i], env))
  {
    var s := Last(states).shards[i];
    longer, more := Extend(states, events, Open(i));
    assert Opened(s).(todo := []) == s.(up := true, batches := [], held := [], todo := []);
    longer, more := LoopOn(longer, more, i, env);
  }
}
