/**
 * Every run of one Polymarket stream (pmarb/feeds/polymarket.py:590-980), one send at a time: resyncs one after
 * another, connections subscribing their desired sets, and drops and reconnects between any two sends.
 */
module PolyRuns {
  import opened Common
  import opened PolyShard
  import opened PolyFeed

  /** What a resync carries from step to step; `before` is what the shards had desired when it began. */
  datatype Work = Work(desired: seq<Slug>, before: set<Slug>, oks: seq<bool>, pending: seq<Slug>)

  /** Between two stale batches, awaiting an unsubscribe's answer, or confirmed and about to resubscribe survivors. */
  datatype Doing = Ready | Waiting(batch: Batch) | Resuming(batch: Batch)

  /** Pruning: the stale batches of shard `at` still to come. Adding: the new slugs of shard `at` still to be sent. */
  datatype Cycle =
    | Idle
    | Pruning(work: Work, at: nat, stale: seq<Batch>, doing: Doing)
    | Adding(work: Work, at: nat, rest: seq<Slug>)
    | Watching(work: Work)
    | Closing(work: Work, at: nat)

  datatype State = State(shards: seq<Shard>, cycle: Cycle)

  /** The resync's own steps, then those of a connection: its loss, its opening, and one send of its subscribe loop. */
  datatype Event =
    | Begin(desired: seq<Slug>)
    | Take
    | Confirm
    | Unconfirmed(applied: bool)
    | Resubscribe(env: Env)
    | Pass
    | Place
    | SendAdd(env: Env)
    | Spawn(streaming: bool)
    | Judge(env: Env)
    | Close
    | Lose(i: nat)
    | Open(i: nat)
    | Send(i: nat, env: Env)

  function Initial(slugs: seq<Slug>): State {
    State(if slugs == [] then [NewShard(0, [])] else FreshShards(0, slugs), Idle)
  }

  function Wanted(w: Work): set<Slug> {
    Elements(w.desired)
  }

  /** The first batch of what is to be sent. */
  function Head(slugs: seq<Slug>): nat {
    Least(SUB_BATCH, |slugs|)
  }

  /** One verdict a shard, and a place inside the list of shards. */
  predicate Aligned(z: State) {
    match z.cycle
    case Idle => true
    case Pruning(w, at, _, _) => |w.oks| == |z.shards| && at < |z.shards|
    case Adding(w, at, rest) => |w.oks| == |z.shards| && at <= |z.shards| && (rest != [] ==> at < |z.shards|)
    case Watching(w) => |w.oks| == |z.shards| && z.shards != []
    case Closing(w, at) => |w.oks| == |z.shards| && at < |z.shards|
  }

  function Begun(shards: seq<Shard>, desired: seq<Slug>): State
    requires shards != []
  {
    var w := Work(desired, Current(shards), Trues(|shards|), Added(Current(shards), desired));
    State(shards, Pruning(w, 0, Stale(shards[0].batches, Wanted(w)), Ready))
  }

  /** On to the next shard's stale batches, or to the new slugs. */
  function PassedOn(shards: seq<Shard>, w: Work, at: nat): State
    requires at < |shards|
  {
    State(shards, if at + 1 < |shards| then Pruning(w, at + 1, Stale(shards[at + 1].batches, Wanted(w)), Ready)
                  else Adding(w, 0, []))
  }

  /** The shard is to be recycled when the resync closes; it is not touched again until then. */
  function Failed(shards: seq<Shard>, w: Work, at: nat): State
    requires at < |shards| == |w.oks|
  {
    PassedOn(shards, w.(oks := w.oks[at := false]), at)
  }

  /** A stale batch is forgotten and, on a live connection, its unsubscribe sent. */
  function Taken(z: State): State
    requires Aligned(z) && z.cycle.Pruning? && z.cycle.stale != []
  {
    var at, b := z.cycle.at, z.cycle.stale[0];
    var s := z.shards[at];
    State(z.shards[at := Forgotten(s, b, Wanted(z.cycle.work))],
          z.cycle.(stale := z.cycle.stale[1..], doing := if s.up then Waiting(b) else Ready))
  }

  function Freed(s: Shard, b: Batch): Shard {
    s.(held := Without(s.held, b.rid))
  }

  /** The mutation finds no socket at all: the error is not one it expects, and the resync ends where it is. */
  function Crashed(z: State): State
    requires Aligned(z) && (z.cycle.Pruning? || (z.cycle.Adding? && z.cycle.at < |z.shards|))
  {
    var s := z.shards[z.cycle.at];
    State(z.shards[z.cycle.at := s.(ridSeq := s.ridSeq + 1)], Idle)
  }

  function Survivors(z: State): seq<Slug>
    requires z.cycle.Pruning? && z.cycle.doing.Resuming?
  {
    Keep(z.cycle.doing.batch.slugs, Wanted(z.cycle.work))
  }

  function Resubscribed(z: State, env: Env): State
    requires Aligned(z) && z.cycle.Pruning? && z.cycle.doing.Resuming?
  {
    var at, kept := z.cycle.at, Survivors(z);
    if kept == [] then z.(cycle := z.cycle.(doing := Ready))
    else if !z.shards[at].up then Crashed(z)
    else
      var (t, ok) := Subscribed(z.shards[at], kept, env);
      if ok then State(z.shards[at := t], z.cycle.(doing := Ready)) else Failed(z.shards[at := t], z.cycle.work, at)
  }

  /** The slugs a shard has room for join its desired set; a live connection is still to be told. */
  function Placed(z: State): State
    requires Aligned(z) && z.cycle.Adding? && z.cycle.at < |z.shards|
  {
    var w, at := z.cycle.work, z.cycle.at;
    if w.pending == [] || !w.oks[at] then z.(cycle := Adding(w, at + 1, []))
    else
      var s, n := z.shards[at], Least(Room(z.shards[at]), |w.pending|);
      var told := n > 0 && s.up;
      State(z.shards[at := s.(meta := s.meta + w.pending[..n])],
            Adding(w.(pending := w.pending[n..]), if told then at else at + 1, if told then w.pending[..n] else []))
  }

  function AddSent(z: State, env: Env): State
    requires Aligned(z) && z.cycle.Adding? && z.cycle.rest != []
  {
    var w, at, rest := z.cycle.work, z.cycle.at, z.cycle.rest;
    if !z.shards[at].up then Crashed(z)
    else
      var (t, ok) := Subscribed(z.shards[at], rest[..Head(rest)], env);
      var left := rest[Head(rest)..];
      State(z.shards[at := t],
            if !ok then Adding(w.(oks := w.oks[at := false]), at + 1, [])
            else Adding(w, if left == [] then at + 1 else at, left))
  }

  function SpawnAll(z: State, streaming: bool): State
    requires z.cycle.Adding?
  {
    var w := z.cycle.work;
    var more := if streaming then FreshShards(NextIndex(z.shards), w.pending) else [];
    State(z.shards + more,
          Watching(w.(oks := w.oks + Trues(|more|), pending := if streaming then [] else w.pending)))
  }

  /** The grace period is over: a watched shard that reported an error fails after all. */
  function Judged(z: State, env: Env): State
    requires Aligned(z) && z.cycle.Watching?
  {
    var w, n := z.cycle.work, |z.shards|;
    State(seq(n, i requires 0 <= i < n =>
            if w.oks[i] && LateError(z.shards[i], env) then z.shards[i].(errors := z.shards[i].errors + 1)
            else z.shards[i]),
          Closing(w.(oks := seq(n, i requires 0 <= i < n => Kept(z.shards[i], w.oks[i], env))), 0))
  }

  function CloseOne(z: State): State
    requires Aligned(z) && z.cycle.Closing?
  {
    var w, at := z.cycle.work, z.cycle.at;
    State(if w.oks[at] then z.shards else z.shards[at := Recycled(z.shards[at])],
          if at + 1 == |z.shards| then Idle else Closing(w, at + 1))
  }

  /** A new connection holds nothing yet; its loop is to send the whole desired set. */
  function Opened(s: Shard): Shard {
    s.(up := true, batches := [], held := [], todo := s.meta)
  }

  /** The next batch of the connection's own loop; a closed socket ends the connection. */
  function LoopSent(s: Shard, env: Env): Shard {
    var (t, ok) := Subscribed(s.(todo := s.todo[Head(s.todo)..]), s.todo[..Head(s.todo)], env);
    if ok then t else Recycled(t)
  }

  /** The resync is in the middle of its sends to this shard. */
  predicate Busy(z: State, i: nat) {
    match z.cycle
    case Pruning(_, at, _, _) => at == i
    case Adding(_, at, rest) => at == i && rest != []
    case _ => false
  }

  /** What can happen next. A task whose wait is over runs before a dropped shard has waited and connected again. */
  ghost predicate Enabled(z: State, e: Event) {
    Aligned(z) &&
    match e
    case Begin(desired) =>
      && z.cycle.Idle? && z.shards != [] && NoDuplicates(desired)
      && !(Added(Current(z.shards), desired) == [] && Current(z.shards) <= Elements(desired))
    case Take => z.cycle.Pruning? && z.cycle.doing.Ready? && z.cycle.stale != []
    case Confirm => z.cycle.Pruning? && z.cycle.doing.Waiting? && z.shards[z.cycle.at].up
    case Unconfirmed(_) => z.cycle.Pruning? && z.cycle.doing.Waiting?
    case Resubscribe(_) => z.cycle.Pruning? && z.cycle.doing.Resuming?
    case Pass => z.cycle.Pruning? && z.cycle.doing.Ready? && z.cycle.stale == []
    case Place => z.cycle.Adding? && z.cycle.rest == [] && z.cycle.at < |z.shards|
    case SendAdd(_) => z.cycle.Adding? && z.cycle.rest != []
    case Spawn(_) => z.cycle.Adding? && z.cycle.rest == [] && z.cycle.at == |z.shards| != 0
    case Judge(_) => z.cycle.Watching?
    case Close => z.cycle.Closing?
    case Lose(i) => i < |z.shards| && z.shards[i].up
    case Open(i) => i < |z.shards| && !z.shards[i].up && !Busy(z, i)
    case Send(i, _) => i < |z.shards| && z.shards[i].up && z.shards[i].todo != []
  }

  function With(z: State, i: nat, t: Shard): State
    requires i < |z.shards|
  {
    z.(shards := z.shards[i := t])
  }

  ghost function Next(z: State, e: Event): State
    requires Enabled(z, e)
  {
    match e
    case Begin(desired) => Begun(z.shards, desired)
    case Take => Taken(z)
    case Confirm =>
      With(z, z.cycle.at, Freed(z.shards[z.cycle.at], z.cycle.doing.batch)).(
        cycle := z.cycle.(doing := Resuming(z.cycle.doing.batch)))
    case Unconfirmed(applied) =>
      var s := z.shards[z.cycle.at];
      Failed(z.shards[z.cycle.at := if applied then Freed(s, z.cycle.doing.batch) else s], z.cycle.work, z.cycle.at)
    case Resubscribe(env) => Resubscribed(z, env)
    case Pass => PassedOn(z.shards, z.cycle.work, z.cycle.at)
    case Place => Placed(z)
    case SendAdd(env) => AddSent(z, env)
    case Spawn(streaming) => SpawnAll(z, streaming)
    case Judge(env) => Judged(z, env)
    case Close => CloseOne(z)
    case Lose(i) => With(z, i, Recycled(z.shards[i]))
    case Open(i) => With(z, i, Opened(z.shards[i]))
    case Send(i, env) => With(z, i, LoopSent(z.shards[i], env))
  }

  /** The events are enabled one after another and lead through these states. */
  ghost predicate Steps(states: seq<State>, events: seq<Event>) {
    && |states| == |events| + 1
    && forall i :: 0 <= i < |events| ==> Enabled(states[i], events[i]) && states[i + 1] == Next(states[i], events[i])
  }

  ghost predicate Run(slugs: seq<Slug>, states: seq<State>, events: seq<Event>) {
    NoDuplicates(slugs) && Steps(states, events) && states[0] == Initial(slugs)
  }

  /** The resync finds the shard it is sending to without a socket. */
  predicate Crashes(z: State, e: Event) {
    || (e.Resubscribe? && Aligned(z) && z.cycle.Pruning? && z.cycle.doing.Resuming? && Survivors(z) != []
        && !z.shards[z.cycle.at].up)
    || (e.SendAdd? && Aligned(z) && z.cycle.Adding? && z.cycle.rest != [] && !z.shards[z.cycle.at].up)
  }

  /** A crash that leaves a failed shard, which the resync owed a recycling, on its old connection. */
  predicate Strands(z: State, e: Event) {
    Crashes(z, e) && exists i :: 0 <= i < |z.shards| && !z.cycle.work.oks[i] && z.shards[i].up
  }

  /** Nothing before step `k` strands a shard. */
  ghost predicate NoneStranded(states: seq<State>, events: seq<Event>, k: nat)
    requires Steps(states, events) && k < |states|
  {
    forall j :: 0 <= j < k ==> !Strands(states[j], events[j])
  }

  function Last(states: seq<State>): State
    requires states != []
  {
    states[|states| - 1]
  }

  lemma Extend(states: seq<State>, events: seq<Event>, e: Event) returns (longer: seq<State>, more: seq<Event>)
    requires Steps(states, events) && Enabled(Last(states), e)
    ensures Steps(longer, more) && longer == states + [Next(Last(states), e)] && more == events + [e]
  {
    longer, more := states + [Next(Last(states), e)], events + [e];
    forall i | 0 <= i < |more| ensures Enabled(longer[i], more[i]) && longer[i + 1] == Next(longer[i], more[i]) {
      if i < |events| { assert longer[i] == states[i] && longer[i + 1] == states[i + 1]; }
    }
  }
}
