/**
 * Runs in which the venue's word is all the client has: an ok that was not applied and does not show the membership.
 */
module KalshiWitness {
  import opened Common
  import opened KalshiReader
  import opened KalshiFeed
  import opened KalshiSafety

  const BLUFF: Answer := Replied(true, {}, false, true)

  function Honest(tickers: set<string>): Answer {
    Replied(true, tickers, false, true)
  }

  /** One more step of a run. */
  lemma Go(states: seq<State>, events: seq<Event>, s: State, e: Event)
    returns (more: seq<State>, longer: seq<Event>, t: State)
    requires Run(states, events) && s == states[|events|] && Enabled(s, e)
    ensures Run(more, longer) && t == Next(s, e) && t == more[|longer|]
  {
    t := Next(s, e);
    more, longer := states + [t], events + [e];
    forall i | 0 <= i < |longer| ensures Enabled(more[i], longer[i]) && more[i + 1] == Next(more[i], longer[i]) {
      assert i < |events| ==> more[i] == states[i] && more[i + 1] == states[i + 1] && longer[i] == events[i];
    }
    assert more[0] == states[0];
  }

  lemma OneBluff(p: Processed)
    requires Bluff(p)
    ensures DriftOf([p]) == if p.cmd.action == Delete then Drift(Unmet(p), {}) else Drift({}, Unmet(p))
  {
    assert [p][..0] == [];
    assert {} - p.cmd.tickers + (Unmet(p) - {}) == Unmet(p) && {} - p.cmd.tickers == {};
  }

  /** One ticker, answered ok and not touched. */
  lemma BluffMeans(c: Command, t: string, sub: set<string>)
    requires c.tickers == {t}
    ensures Unmet(Processed(c, BLUFF)) == {t} && Applied(sub, c, BLUFF.applied) == sub
  {
    assert {t} - {} == {t} && {t} * {} == {} && sub - {} == sub && sub + {} == sub;
  }

  /** A first ticker asked for on an empty subscription. */
  lemma AskedFor(t: string) returns (states: seq<State>, events: seq<Event>, z: State)
    ensures Run(states, events) && z == states[|events|]
    ensures z == State(Venue(map[], {}, [{}], [], 0, [], [Command(2, Add, {t})]),
                       Reader(map[], None, {t}, {}, Some(2), None), true, 0, None, Adding({t}), 2, 1, {})
  {
    z := Initial({}, map[]);
    states, events := [z], [];
    states, events, z := Go(states, events, z, Connect(0));
    assert {t} - {} == {t} && {} - {t} == {};
    states, events, z := Go(states, events, z, Resync({t}));
    assert z.v.inbox == [Command(2, Add, {t})] && z.r.pruned == {} && z.doubt == {} && z.phase == Adding({t});
  }

  /** A bare ok is believed: a run that settles, live, on the wrong subscription. */
  lemma BareOkIsBelieved(t: string) returns (states: seq<State>, events: seq<Event>, z: State)
    ensures Run(states, events) && z == states[|events|] && z.up && z.phase == Idle
    ensures z.r.meta == {t} && z.v.subs == [{}, {}] && DriftOf(z.v.done) == Drift({}, {t})
  {
    states, events, z := AskedFor(t);
    BluffMeans(Command(2, Add, {t}), t, {});
    states, events, z := Go(states, events, z, Process(BLUFF));
    assert |z.v.log| == 1 && z.v.log[0].msg == Message(Some(0), Control(Some(2), true, None));
    assert z.v.done == [Processed(Command(2, Add, {t}), BLUFF)];
    states, events, z := Go(states, events, z, Read(0));
    assert z.r.reply == Some(Control(Some(2), true, None));
    states, events, z := Go(states, events, z, Resume);
    OneBluff(Processed(Command(2, Add, {t}), BLUFF));
  }

  function FullBook(price: string): Book {
    Book(map[price := 5], map[])
  }

  /** One ticker, its snapshot sent and read. */
  lemma Watching(t: string, price: string) returns (states: seq<State>, events: seq<Event>, z: State)
    ensures Run(states, events) && z == states[|events|]
    ensures z == State(
                   Venue(map[t := FullBook(price)], {t}, [{t}], [], 0,
                         [Entry(Message(Some(0), Snapshot(t, FullBook(price))), map[t := FullBook(price)], {t}, 0)],
                             []),
                   Reader(map[t := FullBook(price)], Some(0), {t}, {}, None, None), true, 1, Some(0), Idle, 1, 0, {})
  {
    z := Initial({t}, map[t := FullBook(price)]);
    states, events := [z], [];
    states, events, z := Go(states, events, z, Connect(0));
    assert NextSeq(z.v) == 0;
    states, events, z := Go(states, events, z, SendSnapshot(t));
    var e := Entry(Message(Some(0), Snapshot(t, FullBook(price))), map[t := FullBook(price)], {t}, 0);
    assert {} + {t} == {t} && z.v.log == [] + [e] == [e];
    states, events, z := Go(states, events, z, Read(0));
    assert z.r == Reader(map[t := FullBook(price)], Some(0), {t}, {}, None, None);
  }

  /** The ticker is dropped, the delete is a bluff, and the client believes it: the venue goes on streaming. */
  lemma FalselyDropped(t: string, price: string) returns (states: seq<State>, events: seq<Event>, z: State)
    ensures Run(states, events) && z == states[|events|] && z.up && z.phase == Idle
    ensures z.r == Reader(map[], Some(1), {}, {}, None, None) && z.cmdId == 2 && z.sent == 1 && z.pos == 2
    ensures z.v.subs == [{t}, {t}] && z.v.live == {t} && z.v.truth == map[t := FullBook(price)] && z.v.inbox == []
    ensures z.v.first == 0
    ensures z.v.done == [Processed(Command(2, Delete, {t}), BLUFF)] && z.last == Some(1) && z.doubt == {}
    ensures |z.v.log| == 2 && z.v.log[1].live == {t} && (forall k :: 0 <= k < 2 ==> z.v.log[k].msg.seqNo.Some?)
  {
    states, events, z := Watching(t, price);
    states, events, z := Go(states, events, z, Resync({}));
    assert z.phase == Deleting({t}, {}) && z.v.inbox == [Command(2, Delete, {t})] && z.doubt == {};
    assert Count(z.v.log, 0) == 0 && NextSeq(z.v) == 1;
    BluffMeans(Command(2, Delete, {t}), t, {t});
    states, events, z := Go(states, events, z, Process(BLUFF));
    assert z.v.log[1].msg == Message(Some(1), Control(Some(2), true, None)) && |z.v.log| == 2;
    assert z.v.log[1].live == {t};
    states, events, z := Go(states, events, z, Read(1));
    assert z.r == Reader(map[], Some(1), {}, {}, None, Some(Control(Some(2), true, None)));
    states, events, z := Go(states, events, z, Resume);
  }

  lemma TwoNumbered(v: Venue)
    requires |v.log| == 2 && v.first == 0 && forall k :: 0 <= k < 2 ==> v.log[k].msg.seqNo.Some?
    ensures NextSeq(v) == 2
  {
    assert Count(v.log, 1) == 1;
  }

  /** The drift is real, and a later honest command on the same ticker cancels it: a bluff need not last. */
  lemma BluffMayCancel(t: string, price: string) returns (states: seq<State>, events: seq<Event>, z: State)
    ensures Run(states, events) && z == states[|events|]
    ensures z.up && z.phase == Idle && Bluffed(z.v.done) && z.v.subs == [{t}, {t}, {t}] && z.r.meta == {t}
  {
    states, events, z := FalselyDropped(t, price);
    TwoNumbered(z.v);
    states, events, z := Go(states, events, z, Resync({t}));
    assert z.phase == Adding({t}) && z.v.inbox == [Command(3, Add, {t})];
    states, events, z := Go(states, events, z, Process(Honest({t})));
    assert Applied({t}, Command(3, Add, {t}), {t}) == {t} && z.v.subs == [{t}, {t}] + [{t}] == [{t}, {t}, {t}];
    assert z.v.log[2].msg == Message(Some(2), Control(Some(3), true, None));
    states, events, z := Go(states, events, z, Read(2));
    assert z.r.reply == Some(Control(Some(3), true, None));
    states, events, z := Go(states, events, z, Resume);
    assert z.v.done[0] == Processed(Command(2, Delete, {t}), BLUFF);
  }

  /**
   * A ticker wanted again after a false delete is in doubt, and rightly: the next delta is yielded on an empty book.
   */
  lemma DoubtfulBookIsFalse(t: string, price: string) returns (states: seq<State>, events: seq<Event>, z: State)
    ensures Run(states, events) && z == states[|events|] && Enabled(z, Read(2)) && t in z.doubt
    ensures var out := AfterRead(z, 2).1;
            out.Yield? && out.ticker == t && out.book != Stamped(z.v.log[2], t)
  {
    states, events, z := FalselyDropped(t, price);
    TwoNumbered(z.v);
    states, events, z := Go(states, events, z, Resync({t}));
    assert z.doubt == {t} && z.r.books == map[];
    states, events, z := Go(states, events, z, Move(t, Yes, price, 1));
    assert z.v.log[2].msg == Message(Some(2), Delta(t, Some(Yes), Some(price), 1));
    assert Stamped(z.v.log[2], t).yes[price] == 6;
    assert AfterRead(z, 2).1 == Yield(t, Book(map[price := 1], map[]));
  }
}
