/**
 * Client and venue together (pmarb/feeds/kalshi.py:491-761): the venue's log of frames, a channel that
 * loses frames, the reader, and the verified mutations of a resync.
 */
module KalshiFeed {
  import opened Common
  import opened KalshiReader

  datatype Command = Command(id: nat, action: Action, tickers: set<string>)

  /**
   * A frame as sent, stamped with the venue's own books, the tickers streaming, and how many commands it had processed.
   */
  datatype Entry = Entry(msg: Message, truth: map<string, Book>, live: set<string>, epoch: nat)

  /** A command the venue has processed, and what it did and said. */
  datatype Processed = Processed(cmd: Command, answer: Answer)

  /**
   * subs[n] is the subscription after n commands, `done` those commands; `live` are the tickers whose snapshot
   * has gone out.
   */
  datatype Venue = Venue(truth: map<string, Book>, live: set<string>, subs: seq<set<string>>, done: seq<Processed>,
                         first: nat, log: seq<Entry>, inbox: seq<Command>)

  datatype Phase = Idle | Deleting(dropped: set<string>, added: set<string>) | Adding(added: set<string>)

  /**
   * `pos` frames of the log have been delivered or lost; `last` is the position of the last numbered one processed.
   * `doubt` are the tickers wanted again while the venue had never stopped streaming them.
   */
  datatype State = State(v: Venue, r: Reader, up: bool, pos: nat, last: Option<nat>, phase: Phase, cmdId: nat,
                         sent: nat, doubt: set<string>)

  /** `applied` are the tickers for which the venue did what the command asks, none, some or all of them. */
  datatype Answer =
    | Replied(ok: bool, applied: set<string>, echoes: bool, numbered: bool)
    | Silent(applied: set<string>)

  datatype Event =
    | Move(ticker: string, side: Side, price: string, change: int)
    | SendSnapshot(ticker: string)
    | Chatter(numbered: bool)
    | Process(answer: Answer)
    | Read(index: nat)
    | Drop
    | Connect(first: nat)
    | Resync(desired: set<string>)
    | Resume

  function Truth(v: Venue, t: string): Book {
    BookOf(v.truth, t)
  }

  function Stamped(e: Entry, t: string): Book {
    BookOf(e.truth, t)
  }

  /** How many of the first `n` frames carry a number. */
  function Count(log: seq<Entry>, n: nat): nat
    requires n <= |log|
  {
    if n == 0 then 0 else Count(log, n - 1) + if log[n - 1].msg.seqNo.Some? then 1 else 0
  }

  function NextSeq(v: Venue): nat {
    v.first + Count(v.log, |v.log|)
  }

  function Send(v: Venue, numbered: bool, f: Frame): Venue
    requires v.subs != []
  {
    v.(log := v.log + [Entry(Message(if numbered then Some(NextSeq(v)) else None, f), v.truth, v.live, |v.subs| - 1)])
  }

  function Sub(v: Venue): set<string>
    requires v.subs != []
  {
    v.subs[|v.subs| - 1]
  }

  function Applied(sub: set<string>, c: Command, which: set<string>): set<string> {
    if c.action == Delete then sub - c.tickers * which else sub + c.tickers * which
  }

  function WithBook(v: Venue, t: string, b: Book): Venue {
    v.(truth := v.truth[t := b])
  }

  /** A level moves by `change`; a streaming ticker's move goes out as a delta. */
  function AfterMove(v: Venue, t: string, side: Side, price: string, change: int): Venue
    requires v.subs != []
  {
    var moved := WithBook(v, t, Adjusted(Truth(v, t), side, price, change));
    if t in v.live then Send(moved, true, Delta(t, Some(side), Some(price), change)) else moved
  }

  function AfterSnapshot(v: Venue, t: string): Venue
    requires v.subs != []
  {
    Send(v.(live := v.live + {t}), true, Snapshot(t, Truth(v, t)))
  }

  function AfterProcess(v: Venue, a: Answer): Venue
    requires v.subs != [] && v.inbox != []
  {
    var c := v.inbox[0];
    var sub := Applied(Sub(v), c, a.applied);
    var w := v.(subs := v.subs + [sub], done := v.done + [Processed(c, a)], live := v.live * sub,
                inbox := v.inbox[1..]);
    if a.Silent? then w
    else Send(w, a.numbered, Control(Some(c.id), a.ok, if a.echoes then Some(sub) else None))
  }

  /** The tickers an ok speaks for that the venue did not apply, without the membership that would show it. */
  function Unmet(p: Processed): set<string> {
    if p.answer.Replied? && p.answer.ok && !p.answer.echoes then p.cmd.tickers - p.answer.applied else {}
  }

  predicate Bluff(p: Processed) {
    Unmet(p) != {}
  }

  /** Tickers the venue holds beyond the desired ones, and desired tickers it lacks. */
  datatype Drift = Drift(extra: set<string>, missing: set<string>)

  function Drifted(d: Drift, action: Action, named: set<string>, unmet: set<string>): Drift {
    if action == Delete then Drift((d.extra - named) + (unmet - d.missing), d.missing - named)
    else Drift(d.extra - named, (d.missing - named) + (unmet - d.extra))
  }

  /**
   * What the answers of a connection make of its subscription: each turns the
   * tickers it bluffs about and settles the others it names.
   */
  function DriftOf(done: seq<Processed>): Drift {
    if done == [] then Drift({}, {})
    else
      var d, p := DriftOf(done[..|done| - 1]), done[|done| - 1];
      Drifted(d, p.cmd.action, p.cmd.tickers, Unmet(p))
  }

  function AfterRead(s: State, j: nat): (State, Output)
    requires j < |s.v.log|
  {
    var (r, out) := OnMessage(s.r, s.v.log[j].msg);
    if out == Break then (Down(s.(r := r)), out)
    else (s.(r := r, pos := j + 1, last := if s.v.log[j].msg.seqNo.Some? then Some(j) else s.last,
             doubt := Cleared(s.doubt, s.v.log[j].msg.frame)), out)
  }

  /** A snapshot of a ticker leaves no doubt about it. */
  function Cleared(doubt: set<string>, f: Frame): set<string> {
    if f.Snapshot? then doubt - {f.ticker} else doubt
  }

  /** The tickers streaming at the last numbered frame read. */
  function Streaming(s: State): set<string> {
    if s.last.Some? && s.last.value < |s.v.log| then s.v.log[s.last.value].live else {}
  }

  /** The socket is gone: a mutation in flight has failed. */
  function Down(s: State): State {
    s.(up := false, phase := Idle, r := s.r.(waiting := None, reply := None))
  }

  /** The next connection subscribes exactly what is desired by then and starts from nothing. */
  function Connected(s: State, first: nat): State {
    State(Venue(s.v.truth, {}, [s.r.meta], [], first, [], []), Reader(map[], None, s.r.meta, s.r.pruned, None, None),
          true, 0, None, Idle, s.cmdId, 0, {})
  }

  /** One command goes out and its reply is awaited. */
  function Started(s: State, action: Action, tickers: set<string>, phase: Phase): State {
    State(s.v.(inbox := s.v.inbox + [Command(s.cmdId + 1, action, tickers)]),
          s.r.(waiting := Some(s.cmdId + 1), reply := None), s.up, s.pos, s.last, phase, s.cmdId + 1, s.sent + 1,
              s.doubt)
  }

  /** The desired set, recorded before anything is sent. */
  function Noted(s: State, desired: set<string>): State {
    s.(r := Wanting(s.r, desired), doubt := s.doubt * desired + (desired - s.r.meta) * Streaming(s))
  }

  /** A live subscription is told of the change, drops before adds. */
  function AfterResync(s: State, desired: set<string>): State {
    var added, dropped := desired - s.r.meta, s.r.meta - desired;
    var noted := Noted(s, desired);
    if !s.up then noted
    else if dropped != {} then Started(noted, Delete, dropped, Deleting(dropped, added))
    else if added != {} then Started(noted, Add, added, Adding(added))
    else noted
  }

  /** The waiting mutation sees its reply: anything but proof closes the connection. */
  function AfterResume(s: State): State
    requires s.phase != Idle && s.r.reply.Some?
  {
    var f := s.r.reply.value;
    match s.phase
    case Deleting(dropped, added) =>
      if !Proves(f, Delete, dropped) then Down(s)
      else if added != {} then Started(s, Add, added, Adding(added))
      else s.(phase := Idle, r := s.r.(reply := None))
    case Adding(added) =>
      if !Proves(f, Add, added) then Down(s) else s.(phase := Idle, r := s.r.(reply := None))
  }

  /** What can happen next. The venue may answer a command as it likes; an ok reply is numbered. */
  predicate Enabled(s: State, e: Event) {
    match e
    case Move(_, _, _, _) => s.up && s.v.subs != []
    case SendSnapshot(t) => s.up && s.v.subs != [] && t in Sub(s.v)
    case Chatter(_) => s.up && s.v.subs != []
    case Process(a) =>
      s.up && s.v.subs != [] && s.v.inbox != [] && (a.Replied? && a.ok ==> a.numbered)
    case Read(j) => s.up && s.pos <= j < |s.v.log| && (s.last.None? ==> Count(s.v.log, j) == 0)
    case Drop => s.up
    case Connect(_) => !s.up
    case Resync(_) => s.phase == Idle
    case Resume => s.up && s.phase != Idle && s.r.reply.Some?
  }

  function Next(s: State, e: Event): State
    requires Enabled(s, e)
  {
    match e
    case Move(t, side, price, change) => s.(v := AfterMove(s.v, t, side, price, change))
    case SendSnapshot(t) => s.(v := AfterSnapshot(s.v, t))
    case Chatter(numbered) => s.(v := Send(s.v, numbered, Control(None, false, None)))
    case Process(a) => s.(v := AfterProcess(s.v, a))
    case Read(j) => AfterRead(s, j).0
    case Drop => Down(s)
    case Connect(first) => Connected(s, first)
    case Resync(desired) => AfterResync(s, desired)
    case Resume => AfterResume(s)
  }

  function Initial(meta: set<string>, truth: map<string, Book>): State {
    State(Venue(truth, {}, [meta], [], 0, [], []), Reader(map[], None, meta, {}, None, None), false, 0, None, Idle, 1,
          0, {})
  }

  ghost predicate Run(states: seq<State>, events: seq<Event>) {
    && |states| == |events| + 1
    && (exists meta, truth :: states[0] == Initial(meta, truth))
    && forall i :: 0 <= i < |events| ==> Enabled(states[i], events[i]) && states[i + 1] == Next(states[i], events[i])
  }

  // ---- what holds of the venue's log ----

  /**
   * From one numbered frame to the next, every ticker still streaming
   * either kept its book or is the one the frame moves.
   */
  ghost predicate StepsTo(a: Entry, b: Entry) {
    match b.msg.frame
    case Snapshot(t, book) => t in b.live && Stamped(b, t) == book && Carries(a, b, t)
    case Delta(t, side, price, change) =>
      && side.Some? && price.Some? && Carries(a, b, t)
      && t in a.live && t in b.live && Stamped(b, t) == Adjusted(Stamped(a, t), side.value, price.value, change)
    case Control(_, _, _) => forall u {:trigger u in b.live} :: u in b.live ==>
      u in a.live && Stamped(b, u) == Stamped(a, u)
  }

  ghost predicate Carries(a: Entry, b: Entry, t: string) {
    forall u {:trigger u in b.live} :: u in b.live && u != t ==> u in a.live && Stamped(b, u) == Stamped(a, u)
  }

  ghost predicate StartsAt(e: Entry) {
    match e.msg.frame
    case Snapshot(t, book) => Stamped(e, t) == book && e.live <= {t}
    case Delta(_, _, _, _) => false
    case Control(_, _, _) => e.live == {}
  }

  ghost predicate Follows(a: Entry, b: Entry) {
    a.msg.seqNo.Some? && b.msg.seqNo.Some? && b.msg.seqNo.value == a.msg.seqNo.value + 1
  }

  /** The streaming tickers have not moved since this frame. */
  ghost predicate Current(e: Entry, truth: map<string, Book>, live: set<string>) {
    forall u {:trigger u in live} :: u in live ==> u in e.live && Stamped(e, u) == BookOf(truth, u)
  }

  ghost predicate Numbering(log: seq<Entry>, first: nat) {
    forall k :: 0 <= k < |log| && log[k].msg.seqNo.Some? ==> log[k].msg.seqNo.value == first + Count(log, k)
  }

  ghost predicate Epochs(log: seq<Entry>, subs: seq<set<string>>) {
    && (forall k :: 0 <= k < |log| ==> log[k].epoch < |subs| && log[k].live <= subs[log[k].epoch])
    && (forall i, j :: 0 <= i < j < |log| ==> log[i].epoch <= log[j].epoch)
    && (forall k :: 0 <= k < |log| && log[k].msg.seqNo.None? ==> log[k].msg.frame.Control?)
  }

  ghost predicate Steps(log: seq<Entry>) {
    forall i, j {:trigger Follows(log[i], log[j])} :: 0 <= i < |log| && 0 <= j < |log| && Follows(log[i], log[j]) ==>
        StepsTo(log[i], log[j])
  }

  ghost predicate Starts(log: seq<Entry>, first: nat) {
    forall k {:trigger StartsAt(log[k])} :: 0 <= k < |log| && log[k].msg.seqNo == Some(first) ==> StartsAt(log[k])
  }

  ghost predicate Latest(log: seq<Entry>, next: nat, truth: map<string, Book>, live: set<string>) {
    forall i {:trigger Current(log[i], truth, live)} ::
      0 <= i < |log| && log[i].msg.seqNo.Some? && log[i].msg.seqNo.value + 1 == next ==> Current(log[i], truth, live)
  }

  ghost predicate Chain(v: Venue) {
    Steps(v.log) && Starts(v.log, v.first) && Latest(v.log, NextSeq(v), v.truth, v.live)
        && (NextSeq(v) == v.first ==> v.live == {})
  }

  ghost predicate VenueOk(v: Venue) {
    v.subs != [] && v.live <= Sub(v) && Numbering(v.log, v.first) && Epochs(v.log, v.subs) && Chain(v)
  }

  lemma {:induction false} CountAppend(log: seq<Entry>, e: Entry, n: nat)
    requires n <= |log|
    ensures Count(log + [e], n) == Count(log, n)
  {
    if n > 0 { CountAppend(log, e, n - 1); }
  }

  lemma {:induction false} CountRises(log: seq<Entry>, m: nat, n: nat)
    requires m <= n <= |log|
    ensures Count(log, m) <= Count(log, n) <= Count(log, m) + n - m
    ensures m < n && log[m].msg.seqNo.Some? ==> Count(log, m) < Count(log, n)
  {
    if m < n { CountRises(log, m, n - 1); }
  }

  /** The entry a message becomes. */
  function Stamp(v: Venue, numbered: bool, f: Frame): Entry
    requires v.subs != []
  {
    Entry(Message(if numbered then Some(NextSeq(v)) else None, f), v.truth, v.live, |v.subs| - 1)
  }

  lemma AppendKeepsNumbering(log: seq<Entry>, first: nat, e: Entry)
    requires Numbering(log, first) && (e.msg.seqNo.Some? ==> e.msg.seqNo.value == first + Count(log, |log|))
    ensures Numbering(log + [e], first)
    ensures Count(log + [e], |log + [e]|) == Count(log, |log|) + if e.msg.seqNo.Some? then 1 else 0
  {
    CountAppend(log, e, |log|);
    forall k | 0 <= k < |log + [e]| && (log + [e])[k].msg.seqNo.Some?
      ensures (log + [e])[k].msg.seqNo.value == first + Count(log + [e], k)
    {
      CountAppend(log, e, k);
    }
  }

  lemma SendKeepsNumbering(v: Venue, numbered: bool, f: Frame)
    requires v.subs != [] && Numbering(v.log, v.first)
    ensures Numbering(Send(v, numbered, f).log, v.first)
    ensures NextSeq(Send(v, numbered, f)) == NextSeq(v) + if numbered then 1 else 0
  {
    AppendKeepsNumbering(v.log, v.first, Stamp(v, numbered, f));
  }

  lemma NumbersBelowNext(v: Venue)
    requires Numbering(v.log, v.first)
    ensures forall k :: 0 <= k < |v.log| && v.log[k].msg.seqNo.Some? ==> v.log[k].msg.seqNo.value < NextSeq(v)
  {
    forall k | 0 <= k < |v.log| && v.log[k].msg.seqNo.Some? ensures v.log[k].msg.seqNo.value < NextSeq(v) {
      CountRises(v.log, k, |v.log|);
    }
  }

  lemma SendKeepsEpochs(v: Venue, numbered: bool, f: Frame)
    requires v.subs != [] && v.live <= Sub(v) && Epochs(v.log, v.subs) && (numbered || f.Control?)
    ensures Epochs(Send(v, numbered, f).log, v.subs)
  {
    var w := Send(v, numbered, f);
    forall i, j | 0 <= i < j < |w.log| ensures w.log[i].epoch <= w.log[j].epoch {
      assert j < |v.log| ==> v.log[i].epoch <= v.log[j].epoch;
    }
  }

  /** Frame `f`, sent from `v`, moves every streaming ticker as it says, seen from the state `before` it. */
  ghost predicate Fits(before: Venue, v: Venue, f: Frame)
    requires v.subs != []
  {
    && (forall e {:trigger Current(e, before.truth, before.live)} :: Current(e, before.truth, before.live) ==>
        StepsTo(e, Stamp(v, true, f)))
    && (before.live == {} ==> StartsAt(Stamp(v, true, f)))
  }

  ghost predicate Unmoved(before: Venue, v: Venue) {
    forall u {:trigger u in v.live} :: u in v.live ==> u in before.live && Truth(v, u) == Truth(before, u)
  }

  lemma SendKeepsSteps(before: Venue, v: Venue, numbered: bool, f: Frame)
    requires Numbering(v.log, v.first) && Steps(v.log) && Latest(v.log, NextSeq(v), before.truth, before.live)
    requires v.subs != []
    requires numbered ==> Fits(before, v, f)
    ensures Steps(Send(v, numbered, f).log)
  {
    var w := Send(v, numbered, f);
    NumbersBelowNext(v);
    forall i, j | 0 <= i < |w.log| && 0 <= j < |w.log| && Follows(w.log[i], w.log[j])
      ensures StepsTo(w.log[i], w.log[j])
    {
      if j < |v.log| {
        assert i < |v.log|;
        assert Follows(v.log[i], v.log[j]);
      } else {
        assert Current(v.log[i], before.truth, before.live);
      }
    }
  }

  lemma SendKeepsLatest(before: Venue, v: Venue, numbered: bool, f: Frame)
    requires Numbering(v.log, v.first) && Starts(v.log, v.first) && Latest(v.log, NextSeq(v), before.truth, before.live)
    requires (NextSeq(v) == v.first ==> before.live == {}) && v.subs != []
    requires if numbered then Fits(before, v, f) else Unmoved(before, v)
    ensures var w := Send(v, numbered, f);
            Starts(w.log, w.first) && Latest(w.log, NextSeq(w), w.truth, w.live)
                && (NextSeq(w) == w.first ==> w.live == {})
  {
    var w := Send(v, numbered, f);
    SendKeepsNumbering(v, numbered, f);
    NumbersBelowNext(v);
    forall k | 0 <= k < |w.log| && w.log[k].msg.seqNo == Some(w.first) ensures StartsAt(w.log[k]) {
      assert k < |v.log| ==> StartsAt(v.log[k]);
    }
    forall i | 0 <= i < |w.log| && w.log[i].msg.seqNo.Some? && w.log[i].msg.seqNo.value + 1 == NextSeq(w)
      ensures Current(w.log[i], w.truth, w.live)
    {
      if i < |v.log| { assert Current(v.log[i], before.truth, before.live); }
    }
  }

  /** A frame that fits keeps everything that holds of the log. */
  lemma SendKeepsVenue(before: Venue, v: Venue, numbered: bool, f: Frame)
    requires VenueOk(before) && v.subs != [] && v.live <= Sub(v) && Epochs(v.log, v.subs) && (numbered || f.Control?)
    requires v.log == before.log && v.first == before.first
    requires (if numbered then Fits(before, v, f) else Unmoved(before, v))
    ensures VenueOk(Send(v, numbered, f))
  {
    assert NextSeq(v) == NextSeq(before);
    SendKeepsNumbering(v, numbered, f);
    SendKeepsEpochs(v, numbered, f);
    SendKeepsSteps(before, v, numbered, f);
    SendKeepsLatest(before, v, numbered, f);
  }

  lemma DeltaFits(v: Venue, w: Venue, t: string, side: Side, price: string, change: int, b: Book)
    requires v.subs != [] && t in v.live && w == WithBook(v, t, b)
    requires b == Adjusted(Truth(v, t), side, price, change)
    ensures Fits(v, w, Delta(t, Some(side), Some(price), change))
  {
    var e1 := Stamp(w, true, Delta(t, Some(side), Some(price), change));
    assert Stamped(e1, t) == b;
    forall e | Current(e, v.truth, v.live) ensures StepsTo(e, e1) {
      assert t in e.live && Stamped(e, t) == Truth(v, t);
      assert Carries(e, e1, t);
    }
  }

  lemma QuietKeepsVenue(v: Venue, w: Venue, t: string, b: Book)
    requires VenueOk(v) && t !in v.live && w == WithBook(v, t, b)
    ensures VenueOk(w)
  {
    forall i | 0 <= i < |v.log| && Current(v.log[i], v.truth, v.live) ensures Current(v.log[i], w.truth, w.live) {}
  }

  lemma MoveKeepsVenue(v: Venue, t: string, side: Side, price: string, change: int)
    requires VenueOk(v)
    ensures VenueOk(AfterMove(v, t, side, price, change))
  {
    var b := Adjusted(Truth(v, t), side, price, change);
    if t in v.live {
      DeltaFits(v, WithBook(v, t, b), t, side, price, change, b);
      SendKeepsVenue(v, WithBook(v, t, b), true, Delta(t, Some(side), Some(price), change));
    } else {
      QuietKeepsVenue(v, WithBook(v, t, b), t, b);
    }
  }

  lemma SnapshotKeepsVenue(v: Venue, t: string)
    requires VenueOk(v) && t in Sub(v)
    ensures VenueOk(AfterSnapshot(v, t))
  {
    var w, f := v.(live := v.live + {t}), Snapshot(t, Truth(v, t));
    var e1 := Stamp(w, true, f);
    forall e | Current(e, v.truth, v.live) ensures StepsTo(e, e1) {
      assert Carries(e, e1, t);
    }
    SendKeepsVenue(v, w, true, f);
  }

  lemma ControlKeepsVenue(before: Venue, v: Venue, numbered: bool, id: Option<nat>, ok: bool, echo: Option<set<string>>)
    requires VenueOk(before) && v.subs != [] && v.live <= Sub(v) && Epochs(v.log, v.subs)
    requires v.log == before.log && v.first == before.first && v.truth == before.truth && v.live <= before.live
    ensures VenueOk(Send(v, numbered, Control(id, ok, echo)))
  {
    var f := Control(id, ok, echo);
    forall e | Current(e, before.truth, before.live) ensures StepsTo(e, Stamp(v, true, f)) {}
    SendKeepsVenue(before, v, numbered, f);
  }

  /** The venue with its next command processed, before any reply. */
  function Done(v: Venue, a: Answer): Venue
    requires v.subs != [] && v.inbox != []
  {
    var sub := Applied(Sub(v), v.inbox[0], a.applied);
    v.(subs := v.subs + [sub], done := v.done + [Processed(v.inbox[0], a)], live := v.live * sub, inbox := v.inbox[1..])
  }

  lemma DoneKeepsVenue(v: Venue, a: Answer)
    requires VenueOk(v) && v.inbox != []
    ensures VenueOk(Done(v, a))
  {
    var w := Done(v, a);
    forall i | 0 <= i < |v.log| && Current(v.log[i], v.truth, v.live) ensures Current(v.log[i], w.truth, w.live) {}
    forall k | 0 <= k < |w.log| ensures w.log[k].epoch < |w.subs| && w.log[k].live <= w.subs[w.log[k].epoch] {
      assert w.subs[v.log[k].epoch] == v.subs[v.log[k].epoch];
    }
  }

  lemma ProcessKeepsVenue(v: Venue, a: Answer)
    requires VenueOk(v) && v.inbox != []
    ensures VenueOk(AfterProcess(v, a))
  {
    var w := Done(v, a);
    DoneKeepsVenue(v, a);
    if a.Replied? {
      ControlKeepsVenue(v, w, a.numbered, Some(v.inbox[0].id), a.ok, if a.echoes then Some(Sub(w)) else None);
    }
  }
}
