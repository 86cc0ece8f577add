/**
 * What the venue holds in every run until a crash strands a failed shard: no connection is ever asked to hold more than
 * the cap.
 */
module PolyCap {
  import opened Common
  import opened PolyShard
  import opened PolyShardLaws
  import opened PolyFeed
  import opened PolyFeedLaws
  import opened PolyRuns
  import opened PolyRunLaws

  /** What a shard's connection owes the venue: nothing to count on, some slugs, or those and an unsubscribe. */
  datatype Role = Adrift | Owing(rest: seq<Slug>) | Awaiting(batch: Batch, rest: seq<Slug>)

  function RoleOf(z: State, i: nat): Role
    requires Aligned(z) && i < |z.shards|
  {
    match z.cycle
    case Idle => Owing([])
    case Pruning(w, at, _, doing) =>
      if !w.oks[i] then Adrift
      else if i != at then Owing([])
      else (
        match doing
        case Ready => Owing([])
        case Waiting(b) => Awaiting(b, Keep(b.slugs, Wanted(w)))
        case Resuming(b) => Owing(Keep(b.slugs, Wanted(w))))
    case Adding(w, at, rest) => if !w.oks[i] then Adrift else if i == at then Owing(rest) else Owing([])
    case Watching(w) => if w.oks[i] then Owing([]) else Adrift
    case Closing(w, at) => if i < at || w.oks[i] then Owing([]) else Adrift
  }

  /** What the venue holds and the connection's own loop will still ask for fits the connection. */
  ghost predicate Within(s: Shard) {
    Load(s) + |s.todo| <= MAX_SUBS
  }

  ghost predicate Awaits(s: Shard, b: Batch, rest: seq<Slug>) {
    Partial(Freed(s, b), rest) && OwnRids(s, s.held) && b.rid.shard == s.index && b.rid.n <= s.ridSeq
  }

  ghost predicate Owes(s: Shard, role: Role) {
    match role
    case Adrift => true
    case Owing(rest) => Partial(s, rest)
    case Awaiting(b, rest) => Awaits(s, b, rest)
  }

  ghost predicate Fits(s: Shard, role: Role) {
    && s.peak <= MAX_SUBS
    && (s.up ==> Within(s) && Owes(s, role))
  }

  /** The stale batches still to come are the live connection's own, and the one under way is a batch. */
  ghost predicate Stales(s: Shard, stale: seq<Batch>, doing: Doing) {
    s.up ==>
      && Distinct(stale) && (forall b :: b in stale ==> b in s.batches)
      && (!doing.Ready? ==> |doing.batch.slugs| <= SUB_BATCH)
  }

  ghost predicate Sides(z: State) {
    match z.cycle
    case Pruning(w, at, stale, doing) =>
      Aligned(z) && (forall i :: at <= i < |w.oks| ==> w.oks[i]) && Stales(z.shards[at], stale, doing)
    case Adding(w, at, rest) => Aligned(z) && (rest != [] ==> w.oks[at])
    case _ => true
  }

  ghost predicate Holds(z: State) {
    Lists(z) && Sides(z) && forall i {:trigger z.shards[i]} :: 0 <= i < |z.shards| ==> Fits(z.shards[i], RoleOf(z, i))
  }

  lemma LoopPart(s: Shard, rest: seq<Slug>)
    requires Partial(s, rest)
    ensures Partial(s.(todo := s.todo[Head(s.todo)..]), s.todo[..Head(s.todo)] + rest)
  {
    assert s.todo == s.todo[..Head(s.todo)] + s.todo[Head(s.todo)..];
  }

  /** One send of the connection's own loop: nothing it owes changes, and what the venue is asked for fits. */
  lemma LoopKeepsWithin(s: Shard, env: Env)
    requires s.up && s.todo != [] && Within(s) && s.peak <= MAX_SUBS
    ensures LoopSent(s, env).peak <= MAX_SUBS && (LoopSent(s, env).up ==> Within(LoopSent(s, env)))
  {
    var n := Head(s.todo);
    FlatAppend(s.held, Batch(Minted(s), s.todo[..n]));
    assert s.todo == s.todo[..n] + s.todo[n..];
  }

  lemma LoopKeepsOwing(s: Shard, rest: seq<Slug>, env: Env)
    requires s.up && s.todo != [] && Partial(s, rest)
    ensures LoopSent(s, env).up ==> Partial(LoopSent(s, env), rest)
  {
    LoopPart(s, rest);
    SubscribeKeepsPartial(s.(todo := s.todo[Head(s.todo)..]), s.todo[..Head(s.todo)], rest, env);
  }

  lemma FreedAppend(s: Shard, b: Batch, c: Batch)
    requires c.rid != b.rid
    ensures Without(s.held + [c], b.rid) == Without(s.held, b.rid) + [c]
  {
    assert (s.held + [c])[..|s.held|] == s.held;
  }

  lemma LoopKeepsAwaiting(s: Shard, b: Batch, rest: seq<Slug>, env: Env)
    requires s.up && s.todo != [] && Awaits(s, b, rest)
    ensures LoopSent(s, env).up ==> Awaits(LoopSent(s, env), b, rest)
  {
    var n := Head(s.todo);
    var u, part := s.(todo := s.todo[n..]), s.todo[..n];
    var (t, ok) := Subscribed(u, part, env);
    LoopPart(Freed(s, b), rest);
    SubscribeMoves(u, part, env);
    if ok {
      FreedAppend(s, b, Batch(Minted(s), part));
      MintedIsNew(s, t, s.held, part);
      BatchJoins(Freed(u, b), Freed(t, b), part, rest);
    }
  }

  lemma LoopFits(s: Shard, role: Role, env: Env)
    requires Fits(s, role) && s.up && s.todo != []
    ensures Fits(LoopSent(s, env), role)
  {
    LoopKeepsWithin(s, env);
    match role
    case Adrift =>
    case Owing(rest) => LoopKeepsOwing(s, rest, env);
    case Awaiting(b, rest) => LoopKeepsAwaiting(s, b, rest, env);
  }

  lemma LoopKeepsStales(s: Shard, stale: seq<Batch>, doing: Doing, env: Env)
    requires Stales(s, stale, doing) && s.up
    ensures Stales(LoopSent(s, env), stale, doing)
  {
  }

  /** A new connection owes nothing but its own loop's sends. */
  lemma OpenFits(s: Shard)
    requires NoDuplicates(s.meta) && |s.meta| <= MAX_SUBS && s.peak <= MAX_SUBS
    ensures Fits(Opened(s), Owing([]))
  {
  }

  lemma PartialIsWithin(s: Shard, rest: seq<Slug>)
    requires Partial(s, rest) && |s.meta| <= MAX_SUBS
    ensures Within(s)
  {
    LoadWithinMeta(s, rest);
  }

  lemma TakeFits(s: Shard, b: Batch, wanted: set<Slug>)
    requires Fits(s, Owing([])) && s.up && b in s.batches
    ensures Fits(Forgotten(s, b, wanted), Awaiting(b, Keep(b.slugs, wanted)))
  {
    UnsubscribeKeepsPartial(s, b, wanted, Env({}, {}, {}, {}, {}));
  }

  lemma ConfirmFits(s: Shard, b: Batch, rest: seq<Slug>)
    requires Fits(s, Awaiting(b, rest)) && s.up && |s.meta| <= MAX_SUBS
    ensures Fits(Freed(s, b), Owing(rest))
  {
    PartialIsWithin(Freed(s, b), rest);
  }

  /** Sending what is owed: less is owed after, and the cap holds; a closed socket leaves the shard adrift. */
  lemma SendFits(s: Shard, part: seq<Slug>, rest: seq<Slug>, env: Env)
    requires Fits(s, Owing(part + rest)) && s.up && 0 < |part| <= SUB_BATCH && |s.meta| <= MAX_SUBS
    ensures var (t, ok) := Subscribed(s, part, env); t.up && Fits(t, if ok then Owing(rest) else Adrift)
  {
    var (t, ok) := Subscribed(s, part, env);
    SubscribeKeepsPartial(s, part, rest, env);
    SubscribeKeepsCap(s, part, rest, env);
    if ok { PartialIsWithin(t, rest); }
  }

  lemma PlaceFits(s: Shard, take: seq<Slug>)
    requires Fits(s, Owing([])) && NoDuplicates(s.meta + take) && |s.meta| + |take| <= MAX_SUBS
    ensures Fits(s.(meta := s.meta + take), Owing(take))
  {
    assert multiset(s.meta + take) == multiset(s.meta) + multiset(take);
  }

  // ---- one step ----

  lemma StaleStales(s: Shard, desired: set<Slug>)
    requires s.up ==> Tidy(s)
    ensures Stales(s, Stale(s.batches, desired), Ready)
  {
    StaleMembers(s.batches, desired);
    if s.up { StaleIsDistinct(s.batches, desired); }
  }

  /** On to the next shard: what the others owe is what they owed. */
  lemma PassHolds(z: State, y: State, w: Work)
    requires Holds(z) && Lists(y) && z.cycle.Pruning? && |y.shards| == |z.shards| == |w.oks|
    requires y == PassedOn(y.shards, w, z.cycle.at)
    requires forall j :: 0 <= j < |z.shards| && j != z.cycle.at ==>
             y.shards[j] == z.shards[j] && w.oks[j] == z.cycle.work.oks[j]
    requires Fits(y.shards[z.cycle.at], if w.oks[z.cycle.at] then Owing([]) else Adrift)
    ensures Holds(y)
  {
    var at := z.cycle.at;
    forall j | 0 <= j < |z.shards| && j != at ensures Fits(y.shards[j], RoleOf(y, j)) {
      assert Fits(z.shards[j], RoleOf(z, j));
    }
    assert Fits(y.shards[at], RoleOf(y, at));
    if at + 1 < |z.shards| { StaleStales(y.shards[at + 1], Wanted(w)); }
  }

  /** A step of the resync at one shard, under the same verdicts: what the others owe is what they owed. */
  lemma OthersFit(z: State, y: State, at: nat)
    requires Holds(z) && Lists(y) && Sides(y) && |y.shards| == |z.shards| && at < |z.shards|
    requires forall j :: 0 <= j < |z.shards| && j != at ==> y.shards[j] == z.shards[j] && RoleOf(y, j) == RoleOf(z, j)
    requires Fits(y.shards[at], RoleOf(y, at))
    ensures Holds(y)
  {
    forall j | 0 <= j < |z.shards| ensures Fits(y.shards[j], RoleOf(y, j)) {
      if j != at { assert Fits(z.shards[j], RoleOf(z, j)); }
    }
  }

  lemma BeginHolds(z: State, desired: seq<Slug>)
    requires Holds(z) && Enabled(z, Begin(desired))
    ensures Holds(Begun(z.shards, desired))
  {
    var y := Begun(z.shards, desired);
    AddedMeans(Current(z.shards), desired);
    forall j | 0 <= j < |z.shards| ensures Fits(y.shards[j], RoleOf(y, j)) { assert Fits(z.shards[j], RoleOf(z, j)); }
    StaleStales(y.shards[0], Elements(desired));
  }

  lemma TakeHolds(z: State)
    requires Holds(z) && PlacedWell(z) && Enabled(z, Take)
    ensures Holds(Taken(z))
  {
    var at, b, y := z.cycle.at, z.cycle.stale[0], Taken(z);
    var s, wanted := z.shards[at], Wanted(z.cycle.work);
    TakeKeepsLists(z);
    assert Fits(s, RoleOf(z, at)) && b in z.cycle.stale;
    if s.up {
      TakeFits(s, b, wanted);
      WithoutMembers(s.batches, b.rid);
      forall c | c in z.cycle.stale[1..] ensures c in y.shards[at].batches {
        var i :| 0 <= i < |z.cycle.stale[1..]| && z.cycle.stale[1..][i] == c;
        assert z.cycle.stale[i + 1] == c && c in z.cycle.stale;
      }
    }
    forall j | 0 <= j < |z.shards| && j != at ensures Fits(y.shards[j], RoleOf(y, j)) {
      assert Fits(z.shards[j], RoleOf(z, j));
    }
  }

  /** The same shard, further on with its stale batch. */
  lemma DoingHolds(z: State, t: Shard, doing: Doing)
    requires Holds(z) && z.cycle.Pruning?
    requires var y := State(z.shards[z.cycle.at := t], z.cycle.(doing := doing));
             Lists(y) && Fits(t, RoleOf(y, y.cycle.at))
    requires Stales(t, z.cycle.stale, doing)
    ensures Holds(State(z.shards[z.cycle.at := t], z.cycle.(doing := doing)))
  {
    OthersFit(z, State(z.shards[z.cycle.at := t], z.cycle.(doing := doing)), z.cycle.at);
  }

  lemma ConfirmHolds(z: State)
    requires Holds(z) && PlacedWell(z) && Enabled(z, Confirm)
    ensures Holds(Next(z, Confirm))
  {
    var at, b, s := z.cycle.at, z.cycle.doing.batch, z.shards[z.cycle.at];
    TouchKeepsLists(z, Confirm);
    assert Fits(s, RoleOf(z, at));
    ConfirmFits(s, b, Keep(b.slugs, Wanted(z.cycle.work)));
    assert Stales(Freed(s, b), z.cycle.stale, Resuming(b));
    DoingHolds(z, Freed(s, b), Resuming(b));
  }

  lemma UnconfirmedHolds(z: State, applied: bool)
    requires Holds(z) && PlacedWell(z) && Enabled(z, Unconfirmed(applied))
    ensures Holds(Next(z, Unconfirmed(applied)))
  {
    var at, b, y := z.cycle.at, z.cycle.doing.batch, Next(z, Unconfirmed(applied));
    var s, w := z.shards[at], z.cycle.work;
    TouchKeepsLists(z, Unconfirmed(applied));
    assert Fits(s, RoleOf(z, at));
    if s.up { ConfirmFits(s, b, Keep(b.slugs, Wanted(w))); }
    PassHolds(z, y, w.(oks := w.oks[at := false]));
  }

  /** A resync that ends in the middle with no failed shard still connected leaves every shard as it should be. */
  lemma CrashHolds(z: State, e: Event)
    requires Holds(z) && PlacedWell(z) && Enabled(z, e) && Crashes(z, e) && !Strands(z, e)
    ensures Holds(Next(z, e))
  {
    var y := Next(z, e);
    TouchKeepsLists(z, e);
    assert y == Crashed(z);
    forall j | 0 <= j < |z.shards| ensures Fits(y.shards[j], RoleOf(y, j)) { assert Fits(z.shards[j], RoleOf(z, j)); }
  }

  lemma ResumedStales(s: Shard, t: Shard, stale: seq<Batch>, doing: Doing)
    requires Stales(s, stale, doing) && t.up == s.up && forall b :: b in s.batches ==> b in t.batches
    ensures Stales(t, stale, Ready)
  {
  }

  lemma ResubscribeHolds(z: State, env: Env)
    requires Holds(z) && PlacedWell(z) && Enabled(z, Resubscribe(env)) && !Crashes(z, Resubscribe(env))
    ensures Holds(Next(z, Resubscribe(env)))
  {
    var at, kept, y := z.cycle.at, Survivors(z), Next(z, Resubscribe(env));
    var s, w := z.shards[at], z.cycle.work;
    TouchKeepsLists(z, Resubscribe(env));
    assert Fits(s, RoleOf(z, at)) && RoleOf(z, at) == Owing(kept);
    if kept == [] {
      assert z.shards[at := s] == z.shards;
      ResumedStales(s, s, z.cycle.stale, z.cycle.doing);
      DoingHolds(z, s, Ready);
    } else {
      var (t, ok) := Subscribed(s, kept, env);
      KeepCount(z.cycle.doing.batch.slugs, Wanted(w), "");
      assert kept + [] == kept;
      SendFits(s, kept, [], env);
      if ok {
        ResumedStales(s, t, z.cycle.stale, z.cycle.doing);
        DoingHolds(z, t, Ready);
      } else {
        PassHolds(z, y, w.(oks := w.oks[at := false]));
      }
    }
  }

  lemma PlaceHolds(z: State)
    requires Holds(z) && PlacedWell(z) && Enabled(z, Place)
    ensures Holds(Placed(z))
  {
    var w, at, y := z.cycle.work, z.cycle.at, Placed(z);
    var s := z.shards[at];
    PlaceKeepsLists(z);
    assert Fits(s, RoleOf(z, at));
    if w.pending != [] && w.oks[at] {
      var n := Least(Room(s), |w.pending|);
      assert y.shards[at].meta == s.meta + w.pending[..n];
      PlaceFits(s, w.pending[..n]);
    }
    forall j | 0 <= j < |z.shards| && j != at ensures Fits(y.shards[j], RoleOf(y, j)) {
      assert Fits(z.shards[j], RoleOf(z, j));
    }
  }

  lemma AddHolds(z: State, env: Env)
    requires Holds(z) && PlacedWell(z) && Enabled(z, SendAdd(env)) && !Crashes(z, SendAdd(env))
    ensures Holds(Next(z, SendAdd(env)))
  {
    var at, rest, y := z.cycle.at, z.cycle.rest, Next(z, SendAdd(env));
    TouchKeepsLists(z, SendAdd(env));
    assert Fits(z.shards[at], RoleOf(z, at));
    assert rest == rest[..Head(rest)] + rest[Head(rest)..];
    SendFits(z.shards[at], rest[..Head(rest)], rest[Head(rest)..], env);
    forall j | 0 <= j < |z.shards| && j != at ensures Fits(y.shards[j], RoleOf(y, j)) {
      assert Fits(z.shards[j], RoleOf(z, j));
    }
  }

  lemma SpawnHolds(z: State, streaming: bool)
    requires Holds(z) && PlacedWell(z) && Enabled(z, Spawn(streaming))
    ensures Holds(SpawnAll(z, streaming))
  {
    var w, y := z.cycle.work, SpawnAll(z, streaming);
    SpawnKeepsLists(z, streaming);
    FreshMeans(NextIndex(z.shards), w.pending);
    forall j | 0 <= j < |z.shards| ensures Fits(y.shards[j], RoleOf(y, j)) { assert Fits(z.shards[j], RoleOf(z, j)); }
  }

  lemma JudgeHolds(z: State, env: Env)
    requires Holds(z) && PlacedWell(z) && z.cycle.Watching?
    ensures Holds(Judged(z, env))
  {
    var y := Judged(z, env);
    JudgeKeepsLists(z, env);
    forall j | 0 <= j < |z.shards| ensures Fits(y.shards[j], RoleOf(y, j)) { assert Fits(z.shards[j], RoleOf(z, j)); }
  }

  lemma CloseHolds(z: State)
    requires Holds(z) && PlacedWell(z) && z.cycle.Closing?
    ensures Holds(CloseOne(z))
  {
    var y := CloseOne(z);
    TouchKeepsLists(z, Close);
    forall j | 0 <= j < |z.shards| ensures Fits(y.shards[j], RoleOf(y, j)) { assert Fits(z.shards[j], RoleOf(z, j)); }
  }

  /** A drop, an opening or a send of a connection's own loop: the resync's side is as it was. */
  lemma ConnectionHolds(z: State, i: nat, t: Shard)
    requires Holds(z) && i < |z.shards| && Lists(With(z, i, t)) && Fits(t, RoleOf(z, i))
    requires z.cycle.Pruning? && z.cycle.at == i ==> Stales(t, z.cycle.stale, z.cycle.doing)
    ensures Holds(With(z, i, t))
  {
    OthersFit(z, With(z, i, t), i);
  }

  lemma SendHolds(z: State, i: nat, env: Env)
    requires Holds(z) && PlacedWell(z) && Enabled(z, Send(i, env))
    ensures Holds(Next(z, Send(i, env)))
  {
    TouchKeepsLists(z, Send(i, env));
    assert Fits(z.shards[i], RoleOf(z, i));
    LoopFits(z.shards[i], RoleOf(z, i), env);
    if z.cycle.Pruning? && z.cycle.at == i { LoopKeepsStales(z.shards[i], z.cycle.stale, z.cycle.doing, env); }
    ConnectionHolds(z, i, LoopSent(z.shards[i], env));
  }

  lemma OpenHolds(z: State, i: nat)
    requires Holds(z) && PlacedWell(z) && Enabled(z, Open(i))
    ensures Holds(Next(z, Open(i)))
  {
    TouchKeepsLists(z, Open(i));
    assert Fits(z.shards[i], RoleOf(z, i));
    OpenFits(z.shards[i]);
    ConnectionHolds(z, i, Opened(z.shards[i]));
  }

  lemma LoseHolds(z: State, i: nat)
    requires Holds(z) && PlacedWell(z) && Enabled(z, Lose(i))
    ensures Holds(Next(z, Lose(i)))
  {
    TouchKeepsLists(z, Lose(i));
    assert Fits(z.shards[i], RoleOf(z, i));
    ConnectionHolds(z, i, Recycled(z.shards[i]));
  }

  lemma StepHolds(z: State, e: Event)
    requires Holds(z) && PlacedWell(z) && Enabled(z, e) && !Strands(z, e)
    ensures Holds(Next(z, e))
  {
    if Crashes(z, e) {
      CrashHolds(z, e);
    } else {
      match e
      case Begin(desired) => BeginHolds(z, desired);
      case Take => TakeHolds(z);
      case Confirm => ConfirmHolds(z);
      case Unconfirmed(applied) => UnconfirmedHolds(z, applied);
      case Resubscribe(env) => ResubscribeHolds(z, env);
      case Pass =>
        assert Fits(z.shards[z.cycle.at], RoleOf(z, z.cycle.at));
        PassHolds(z, Next(z, e), z.cycle.work);
      case Place => PlaceHolds(z);
      case SendAdd(env) => AddHolds(z, env);
      case Spawn(streaming) => SpawnHolds(z, streaming);
      case Judge(env) => JudgeHolds(z, env);
      case Close => CloseHolds(z);
      case Lose(i) => LoseHolds(z, i);
      case Open(i) => OpenHolds(z, i);
      case Send(i, env) => SendHolds(z, i, env);
    }
  }

  lemma {:induction false} HoldsAlways(slugs: seq<Slug>, states: seq<State>, events: seq<Event>, k: nat)
    requires Run(slugs, states, events) && k < |states| && NoneStranded(states, events, k)
    ensures Holds(states[k])
  {
    ListsAlways(slugs, states, events, k);
    if k == 0 {
      FreshMeans(0, slugs);
    } else {
      ListsAlways(slugs, states, events, k - 1);
      HoldsAlways(slugs, states, events, k - 1);
      StepHolds(states[k - 1], events[k - 1]);
    }
  }

  /**
   * In every state of every run, whatever drops and reconnects between two sends, until a crash strands a failed shard:
   * no connection was ever asked to hold more than the cap, no slug is on two shards, and between resyncs the feed is
   * sound.
   */
  lemma RunsKeepTheCap(slugs: seq<Slug>, states: seq<State>, events: seq<Event>, k: nat)
    requires Run(slugs, states, events) && k < |states| && NoneStranded(states, events, k)
    ensures Separate(states[k].shards)
    ensures forall s :: s in states[k].shards ==> NoDuplicates(s.meta) && |s.meta| <= MAX_SUBS && s.peak <= MAX_SUBS
    ensures states[k].cycle.Idle? ==> FeedOk(states[k].shards)
  {
    var z := states[k];
    HoldsAlways(slugs, states, events, k);
    forall s | s in z.shards ensures s.peak <= MAX_SUBS {
      var i :| 0 <= i < |z.shards| && z.shards[i] == s;
      assert Fits(z.shards[i], RoleOf(z, i));
    }
    if z.cycle.Idle? {
      forall i | 0 <= i < |z.shards| ensures Sound(z.shards[i], true) { assert Fits(z.shards[i], RoleOf(z, i)); }
    }
  }

  /** What no crash touches: in every run the desired sets are duplicate-free, within the cap and apart. */
  lemma RunsStayApart(slugs: seq<Slug>, states: seq<State>, events: seq<Event>, k: nat)
    requires Run(slugs, states, events) && k < |states|
    ensures Separate(states[k].shards)
    ensures forall s :: s in states[k].shards ==> NoDuplicates(s.meta) && |s.meta| <= MAX_SUBS
  {
    ListsAlways(slugs, states, events, k);
  }
}
