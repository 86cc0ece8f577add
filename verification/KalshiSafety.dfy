/** What every reachable state keeps, and what that makes of each book yielded and each resync reported live. */
module KalshiSafety {
  import opened Common
  import opened KalshiReader
  import opened KalshiFeed

  /** How many commands the venue had processed by the last numbered frame read. */
  function ReadEpoch(s: State): nat {
    if s.last.Some? && s.last.value < |s.v.log| then s.v.log[s.last.value].epoch else 0
  }

  predicate IsReply(e: Entry) {
    e.msg.frame.Control? && e.msg.frame.id.Some?
  }

  /**
   * Replies carry the id of the command they answer, in order; an echo is
   * the membership afterwards; ok replies are numbered.
   */
  ghost predicate RepliesOk(s: State) {
    forall k {:trigger IsReply(s.v.log[k])} :: 0 <= k < |s.v.log| && IsReply(s.v.log[k]) ==>
      ReplyOk(s.v.log[k], s.v.subs, s.cmdId, s.sent)
  }

  ghost predicate ReplyOk(e: Entry, subs: seq<set<string>>, cmdId: nat, sent: nat)
    requires IsReply(e)
  {
    && 1 <= e.epoch < |subs| && e.msg.frame.id.value + sent == cmdId + e.epoch
    && (e.msg.frame.echo.Some? ==> e.msg.frame.echo.value == subs[e.epoch])
    && (e.msg.frame.ok ==> e.msg.seqNo.Some?)
  }

  /** The ladders kept are the venue's own at this frame, for every ticker wanted and streaming and not in doubt. */
  ghost predicate Agrees(r: Reader, e: Entry, doubt: set<string>) {
    forall t {:trigger t in e.live} ::
      t in e.live && t in r.meta && t !in doubt ==> t in r.books && r.books[t] == Stamped(e, t)
  }

  /** The subscription is the desired set but for what the venue's answers made of it. */
  ghost predicate Tracks(sub: set<string>, wanted: set<string>, d: Drift) {
    sub == (wanted - d.missing) + d.extra && d.missing <= wanted && d.extra !! wanted
  }

  ghost predicate ReaderOk(s: State) {
    && s.pos <= |s.v.log|
    && match s.last
       case None => s.r.lastSeq.None? && s.r.books == map[] && Count(s.v.log, s.pos) == 0
       case Some(i) =>
         && i < s.pos && s.v.log[i].msg.seqNo.Some? && s.r.lastSeq == s.v.log[i].msg.seqNo
         && Agrees(s.r, s.v.log[i], s.doubt) && s.r.lastSeq.value + 1 <= s.v.first + Count(s.v.log, s.pos)
  }

  /** A mutation in flight: one command, its tickers, and what the subscription becomes once it is proved. */
  ghost predicate MutationOk(s: State, action: Action, tickers: set<string>, before: set<string>, target: set<string>) {
    && tickers != {} && s.sent >= 1 && |s.v.inbox| <= 1 && |s.v.subs| + |s.v.inbox| == s.sent + 1
    && |s.v.done| + 1 == |s.v.subs|
    && Tracks(s.v.subs[s.sent - 1], before, DriftOf(s.v.done[..s.sent - 1]))
    && (s.v.inbox != [] ==> s.v.inbox == [Command(s.cmdId, action, tickers)])
    && (s.r.reply.None? ==> s.r.waiting == Some(s.cmdId))
    && (forall k {:trigger IsReply(s.v.log[k])} ::
          0 <= k < |s.v.log| && IsReply(s.v.log[k]) && s.v.log[k].epoch == s.sent
              && Proves(s.v.log[k].msg.frame, action, tickers) ==>
            |s.v.subs| == s.sent + 1 && Tracks(s.v.subs[s.sent], target, DriftOf(s.v.done)))
    && (s.r.reply.Some? ==>
          && s.r.waiting.None? && s.v.inbox == [] && s.r.reply.value.Control? && s.r.reply.value.id == Some(s.cmdId)
          && (s.r.reply.value.ok ==> s.last.Some? && ReadEpoch(s) == s.sent)
          && (Proves(s.r.reply.value, action, tickers) ==> Tracks(s.v.subs[s.sent], target, DriftOf(s.v.done))))
    && ReadEpoch(s) + 1 >= s.sent
  }

  ghost predicate PhaseOk(s: State) {
    match s.phase
    case Idle =>
      && s.v.inbox == [] && |s.v.subs| == s.sent + 1 && |s.v.done| == s.sent && ReadEpoch(s) == s.sent
      && Tracks(Sub(s.v), s.r.meta, DriftOf(s.v.done))
      && s.r.waiting.None? && s.r.reply.None?
    case Deleting(dropped, added) =>
      && dropped !! s.r.meta && added <= s.r.meta
      && MutationOk(s, Delete, dropped, (s.r.meta - added) + dropped, s.r.meta - added)
    case Adding(added) =>
      && added <= s.r.meta
      && MutationOk(s, Add, added, s.r.meta - added, s.r.meta)
  }

  /** Tickers still to be forgotten are never both wanted and held. */
  ghost predicate PrunedOk(s: State) {
    s.last.Some? ==> if s.phase.Deleting? && s.r.reply.None? then s.r.pruned !! s.r.meta else s.r.pruned == {}
  }

  ghost predicate Inv(s: State) {
    if s.up then UpOk(s) else s.phase == Idle && s.r.waiting.None? && s.r.reply.None?
  }

  ghost predicate UpOk(s: State) {
    VenueOk(s.v) && RepliesOk(s) && ReaderOk(s) && PhaseOk(s) && PrunedOk(s) && DoubtOk(s)
  }

  /** Some delete of this connection was answered ok though not, or not wholly, applied. */
  predicate FalseDelete(done: seq<Processed>) {
    exists k :: 0 <= k < |done| && Bluff(done[k]) && done[k].cmd.action == Delete
  }

  ghost predicate DoubtOk(s: State) {
    s.doubt != {} ==> FalseDelete(s.v.done)
  }

  lemma {:induction false} ExtraNeedsFalseDelete(done: seq<Processed>)
    ensures DriftOf(done).extra != {} ==> FalseDelete(done)
  {
    if done != [] {
      var front := done[..|done| - 1];
      ExtraNeedsFalseDelete(front);
      assert forall k :: 0 <= k < |front| ==> front[k] == done[k];
      assert done[|done| - 1] == done[|done| - 1];
    }
  }

  // ---- the venue's steps ----

  /** More log, the same client: what the client knows still holds. */
  ghost predicate Extends(v: Venue, w: Venue) {
    && |v.log| <= |w.log| && w.log[..|v.log|] == v.log && w.first == v.first
  }

  lemma {:induction false} CountPrefix(a: seq<Entry>, b: seq<Entry>, n: nat)
    requires n <= |a| <= |b| && b[..|a|] == a
    ensures Count(a, n) == Count(b, n)
  {
    if n > 0 {
      CountPrefix(a, b, n - 1);
      assert b[n - 1] == a[n - 1];
    }
  }

  lemma VenueStepKeepsReader(s: State, w: Venue)
    requires ReaderOk(s) && PrunedOk(s) && Extends(s.v, w)
    ensures ReaderOk(s.(v := w)) && PrunedOk(s.(v := w)) && ReadEpoch(s.(v := w)) == ReadEpoch(s)
  {
    CountPrefix(s.v.log, w.log, s.pos);
    assert s.last.Some? ==> w.log[s.last.value] == s.v.log[s.last.value];
  }

  /** The venue sends book frames or chatter only: no command moves. */
  lemma QuietVenueStep(s: State, w: Venue)
    requires UpOk(s) && VenueOk(w) && Extends(s.v, w) && w.subs == s.v.subs && w.inbox == s.v.inbox
    requires w.done == s.v.done
    requires forall k :: |s.v.log| <= k < |w.log| ==> !IsReply(w.log[k])
    ensures UpOk(s.(v := w))
  {
    var z := s.(v := w);
    VenueStepKeepsReader(s, w);
    assert forall k :: 0 <= k < |s.v.log| ==> w.log[k] == s.v.log[k];
    forall k | 0 <= k < |w.log| && IsReply(w.log[k])
      ensures k < |s.v.log| && IsReply(s.v.log[k]) && w.log[k] == s.v.log[k]
    {
    }
  }

  /** The change a command asks for: from the tickers wanted before to those wanted after. */
  ghost predicate Asks(action: Action, tickers: set<string>, before: set<string>, target: set<string>) {
    if action == Delete then before == target + tickers && target !! tickers
    else target == before + tickers && before !! tickers
  }

  /** A reply that counts as proof leaves the subscription where the answers so far say, ticker by ticker. */
  lemma ReplyLands(sub: set<string>, d: Drift, e: Drift, c: Command, a: Answer, before: set<string>,
                   target: set<string>, after: set<string>)
    requires Tracks(sub, before, d) && Asks(c.action, c.tickers, before, target) && a.Replied? && a.ok
    requires after == Applied(sub, c, a.applied)
    requires a.echoes ==> if c.action == Delete then after !! c.tickers else c.tickers <= after
    requires e == Drifted(d, c.action, c.tickers, Unmet(Processed(c, a)))
    ensures Tracks(after, target, e)
  {
    forall t ensures t in after <==> t in (target - e.missing) + e.extra {
      assert t in sub <==> (t in before && t !in d.missing) || t in d.extra;
    }
  }

  lemma ProcessKeepsReplies(s: State, a: Answer)
    requires VenueOk(s.v) && RepliesOk(s) && Enabled(s, Process(a)) && |s.v.inbox| == 1 && s.v.inbox[0].id == s.cmdId
    requires |s.v.subs| == s.sent
    requires s.sent >= 1
    ensures RepliesOk(s.(v := AfterProcess(s.v, a)))
    ensures forall k :: 0 <= k < |s.v.log| && IsReply(s.v.log[k]) ==>
              AfterProcess(s.v, a).log[k] == s.v.log[k] && s.v.log[k].epoch < s.sent
  {
    var w := AfterProcess(s.v, a);
    var z := s.(v := w);
    assert w.log[..|s.v.log|] == s.v.log;
    assert w.subs[..|s.v.subs|] == s.v.subs;
    forall k | 0 <= k < |w.log| && IsReply(w.log[k]) ensures ReplyOk(w.log[k], w.subs, z.cmdId, z.sent) {
      if k < |s.v.log| {
        assert IsReply(s.v.log[k]) && w.subs[s.v.log[k].epoch] == s.v.subs[s.v.log[k].epoch];
      }
    }
    forall k | 0 <= k < |s.v.log| && IsReply(s.v.log[k]) ensures w.log[k] == s.v.log[k] && s.v.log[k].epoch < s.sent {}
  }

  lemma ProcessKeepsMutation(s: State, a: Answer, action: Action, tickers: set<string>, before: set<string>,
                             target: set<string>)
    requires VenueOk(s.v) && RepliesOk(s) && ReaderOk(s) && Enabled(s, Process(a))
    requires MutationOk(s, action, tickers, before, target)
    requires Asks(action, tickers, before, target)
    ensures RepliesOk(s.(v := AfterProcess(s.v, a)))
    ensures MutationOk(s.(v := AfterProcess(s.v, a)), action, tickers, before, target)
  {
    var w := AfterProcess(s.v, a);
    var z := s.(v := w);
    assert s.v.done[..s.sent - 1] == s.v.done && w.done[..z.sent - 1] == s.v.done && w.done[..z.sent] == w.done;
    var c := s.v.inbox[0];
    var after := Applied(Sub(s.v), c, a.applied);
    if a.Replied? && Proves(Control(Some(c.id), a.ok, if a.echoes then Some(after) else None), action, tickers) {
      assert w.done[..|s.v.done|] == s.v.done;
      ReplyLands(Sub(s.v), DriftOf(s.v.done), DriftOf(w.done), c, a, before, target, after);
    }
    ProcessKeepsReplies(s, a);
    assert w.log[..|s.v.log|] == s.v.log;
    assert s.last.Some? ==> w.log[s.last.value] == s.v.log[s.last.value];
  }

  lemma ProcessKeepsDoubt(s: State, a: Answer)
    requires DoubtOk(s) && s.v.subs != [] && s.v.inbox != []
    ensures DoubtOk(s.(v := AfterProcess(s.v, a)))
  {
    var done := AfterProcess(s.v, a).done;
    assert forall k :: 0 <= k < |s.v.done| ==> done[k] == s.v.done[k];
  }

  lemma ProcessKeepsPhase(s: State, a: Answer)
    requires UpOk(s) && Enabled(s, Process(a))
    ensures RepliesOk(s.(v := AfterProcess(s.v, a))) && PhaseOk(s.(v := AfterProcess(s.v, a)))
  {
    match s.phase
    case Deleting(dropped, added) =>
      ProcessKeepsMutation(s, a, Delete, dropped, (s.r.meta - added) + dropped, s.r.meta - added);
    case Adding(added) =>
      assert (s.r.meta - added) + added == s.r.meta;
      ProcessKeepsMutation(s, a, Add, added, s.r.meta - added, s.r.meta);
    case Idle =>
  }

  lemma ProcessKeepsInv(s: State, a: Answer)
    requires UpOk(s) && Enabled(s, Process(a))
    ensures UpOk(s.(v := AfterProcess(s.v, a)))
  {
    ProcessKeepsVenue(s.v, a);
    ProcessKeepsDoubt(s, a);
    assert AfterProcess(s.v, a).log[..|s.v.log|] == s.v.log;
    VenueStepKeepsReader(s, AfterProcess(s.v, a));
    ProcessKeepsPhase(s, a);
  }

  lemma MoveKeepsInv(s: State, t: string, side: Side, price: string, change: int)
    requires UpOk(s)
    ensures UpOk(s.(v := AfterMove(s.v, t, side, price, change)))
  {
    MoveKeepsVenue(s.v, t, side, price, change);
    MoveSendsBooks(s.v, t, side, price, change);
    QuietVenueStep(s, AfterMove(s.v, t, side, price, change));
  }

  lemma MoveSendsBooks(v: Venue, t: string, side: Side, price: string, change: int)
    requires v.subs != []
    ensures var w := AfterMove(v, t, side, price, change);
            Extends(v, w) && w.subs == v.subs && w.inbox == v.inbox && w.done == v.done
                && forall k :: |v.log| <= k < |w.log| ==> !IsReply(w.log[k])
  {
    assert AfterMove(v, t, side, price, change).log[..|v.log|] == v.log;
  }

  lemma SnapshotKeepsInv(s: State, t: string)
    requires UpOk(s) && t in Sub(s.v)
    ensures UpOk(s.(v := AfterSnapshot(s.v, t)))
  {
    SnapshotKeepsVenue(s.v, t);
    var w := AfterSnapshot(s.v, t);
    assert w.log[..|s.v.log|] == s.v.log;
    QuietVenueStep(s, w);
  }

  lemma ChatterKeepsInv(s: State, numbered: bool)
    requires UpOk(s)
    ensures UpOk(s.(v := Send(s.v, numbered, Control(None, false, None))))
  {
    ControlKeepsVenue(s.v, s.v, numbered, None, false, None);
    var w := Send(s.v, numbered, Control(None, false, None));
    assert w.log[..|s.v.log|] == s.v.log;
    QuietVenueStep(s, w);
  }

  // ---- the client's steps ----

  lemma ConnectKeepsInv(s: State, first: nat)
    ensures UpOk(Connected(s, first))
  {
  }

  /** Sending a command leaves the log, and what the reader has made of it, alone. */
  lemma StartKeepsRest(s: State, action: Action, tickers: set<string>, phase: Phase)
    requires VenueOk(s.v) && RepliesOk(s) && ReaderOk(s)
    ensures var z := Started(s, action, tickers, phase);
            VenueOk(z.v) && RepliesOk(z) && ReaderOk(z)
  {
    var z := Started(s, action, tickers, phase);
    assert NextSeq(z.v) == NextSeq(s.v);
    forall k | 0 <= k < |z.v.log| && IsReply(z.v.log[k]) ensures ReplyOk(z.v.log[k], z.v.subs, z.cmdId, z.sent) {
      assert IsReply(s.v.log[k]);
    }
  }

  /** A command sent from a settled subscription starts a mutation. */
  lemma StartsMutation(s: State, action: Action, tickers: set<string>, phase: Phase, before: set<string>,
                       target: set<string>)
    requires RepliesOk(s) && tickers != {} && s.v.inbox == [] && |s.v.subs| == s.sent + 1 && |s.v.done| == s.sent
    requires ReadEpoch(s) == s.sent && Tracks(Sub(s.v), before, DriftOf(s.v.done))
    ensures MutationOk(Started(s, action, tickers, phase), action, tickers, before, target)
  {
    var z := Started(s, action, tickers, phase);
    assert z.v.done[..z.sent - 1] == z.v.done;
    forall k | 0 <= k < |z.v.log| && IsReply(z.v.log[k]) ensures z.v.log[k].epoch < z.sent {
      assert IsReply(s.v.log[k]);
    }
  }

  /**
   * While a subscription is settled, what streamed at the last frame read
   * beyond the desired set was kept by a false delete.
   */
  lemma SettledStream(s: State)
    requires UpOk(s) && s.up && s.phase == Idle
    ensures Streaming(s) <= s.r.meta + DriftOf(s.v.done).extra
  {
  }

  lemma DeleteKeepsInv(s: State, dropped: set<string>, added: set<string>)
    requires VenueOk(s.v) && RepliesOk(s) && ReaderOk(s) && dropped != {}
    requires s.v.inbox == [] && |s.v.subs| == s.sent + 1 && |s.v.done| == s.sent && ReadEpoch(s) == s.sent && DoubtOk(s)
    requires dropped !! s.r.meta && added <= s.r.meta
    requires Tracks(Sub(s.v), (s.r.meta - added) + dropped, DriftOf(s.v.done))
    requires s.last.Some? ==> s.r.pruned !! s.r.meta
    ensures UpOk(Started(s, Delete, dropped, Deleting(dropped, added)))
  {
    StartsMutation(s, Delete, dropped, Deleting(dropped, added), (s.r.meta - added) + dropped, s.r.meta - added);
    StartKeepsRest(s, Delete, dropped, Deleting(dropped, added));
  }

  lemma AddKeepsInv(s: State, added: set<string>)
    requires VenueOk(s.v) && RepliesOk(s) && ReaderOk(s) && added != {}
    requires s.v.inbox == [] && |s.v.subs| == s.sent + 1 && |s.v.done| == s.sent && ReadEpoch(s) == s.sent && DoubtOk(s)
    requires added <= s.r.meta && Tracks(Sub(s.v), s.r.meta - added, DriftOf(s.v.done))
    requires s.last.Some? ==> s.r.pruned == {}
    ensures UpOk(Started(s, Add, added, Adding(added)))
  {
    StartsMutation(s, Add, added, Adding(added), s.r.meta - added, s.r.meta);
    StartKeepsRest(s, Add, added, Adding(added));
  }

  lemma NotedKeepsReader(s: State, desired: set<string>)
    requires UpOk(s) && s.up && s.phase == Idle
    ensures ReaderOk(Noted(s, desired)) && DoubtOk(Noted(s, desired))
  {
    var n := Noted(s, desired);
    if s.last.Some? {
      assert Agrees(n.r, n.v.log[n.last.value], n.doubt);
    }
    SettledStream(s);
    ExtraNeedsFalseDelete(s.v.done);
    assert n.doubt != {} ==> s.doubt != {} || DriftOf(s.v.done).extra != {} by {
      assert n.doubt <= s.doubt + DriftOf(s.v.done).extra;
    }
  }

  lemma NotedKeeps(s: State, desired: set<string>)
    requires UpOk(s) && s.up && s.phase == Idle
    ensures var n := Noted(s, desired);
            && RepliesOk(n) && ReaderOk(n) && VenueOk(n.v) && DoubtOk(n) && ReadEpoch(n) == n.sent
            && (n.last.Some? ==> n.r.pruned == s.r.meta - desired)
  {
    NotedKeepsReader(s, desired);
  }

  lemma ResyncKeepsInv(s: State, desired: set<string>, n: State, added: set<string>, dropped: set<string>)
    requires UpOk(s) && s.up && s.phase == Idle
    requires n == Noted(s, desired) && added == desired - s.r.meta && dropped == s.r.meta - desired
    ensures UpOk(AfterResync(s, desired)) && AfterResync(s, desired).up
  {
    NotedKeeps(s, desired);
    assert s.r.meta == (desired - added) + dropped;
    if dropped != {} {
      DeleteKeepsInv(n, dropped, added);
    } else if added != {} {
      assert s.r.meta == desired - added;
      AddKeepsInv(n, added);
    } else {
      assert s.r.meta == desired;
    }
  }

  lemma ResumeKeepsInv(s: State)
    requires UpOk(s) && Enabled(s, Resume)
    ensures Inv(AfterResume(s))
  {
    match s.phase
    case Deleting(dropped, added) =>
      if Proves(s.r.reply.value, Delete, dropped) {
        if added != {} {
          AddKeepsInv(s, added);
        } else {
          assert s.r.meta - added == s.r.meta;
        }
      }
    case Adding(added) =>
  }

  // ---- reading ----

  /** The next numbered frame after the last one read moves the ladders exactly as the venue's books moved. */
  lemma NextFrameAgrees(r: Reader, a: Entry, b: Entry, doubt: set<string>)
    requires Agrees(r, a, doubt) && StepsTo(a, b) && r.pruned !! r.meta && !Gap(r, b.msg) && b.msg.seqNo.Some?
    ensures Agrees(OnMessage(r, b.msg).0, b, Cleared(doubt, b.msg.frame))
    ensures YieldFits(r, b, doubt)
  {
    var forgot := Forget(r);
    forall t | t in a.live && t in r.meta && t !in doubt ensures t in forgot.books && forgot.books[t] == Stamped(a, t) {
      assert t !in r.pruned;
    }
  }

  /** A yield is of a wanted ticker, and of the venue's own book unless the ticker is in doubt. */
  ghost predicate YieldFits(r: Reader, b: Entry, doubt: set<string>) {
    var out := OnMessage(r, b.msg).1;
    out.Yield? ==>
        out.ticker in r.meta && (out.ticker !in Cleared(doubt, b.msg.frame) ==> out.book == Stamped(b, out.ticker))
  }

  /** The first numbered frame of a connection finds nothing streaming before it. */
  lemma FirstFrameAgrees(r: Reader, b: Entry, doubt: set<string>)
    requires StartsAt(b) && r.lastSeq.None? && b.msg.seqNo.Some?
    ensures OnMessage(r, b.msg).1 != Break
    ensures Agrees(OnMessage(r, b.msg).0, b, Cleared(doubt, b.msg.frame)) && YieldFits(r, b, doubt)
  {
  }

  lemma UnnumberedAgrees(r: Reader, a: Entry, m: Message, doubt: set<string>)
    requires Agrees(r, a, doubt) && r.pruned !! r.meta && m.seqNo.None? && m.frame.Control?
    ensures Agrees(OnMessage(r, m).0, a, doubt) && OnMessage(r, m).1 == Quiet
  {
    forall t | t in a.live && t in r.meta ensures t !in r.pruned {}
  }

  /** How many numbered frames the reader has taken in on this connection. */
  function Taken(s: State): int {
    if s.r.lastSeq.Some? then s.r.lastSeq.value + 1 - s.v.first else 0
  }

  /** Numbered frames lost on this connection so far. */
  function Missed(s: State): int
    requires s.pos <= |s.v.log|
  {
    Count(s.v.log, s.pos) - Taken(s)
  }

  /** A numbered frame shows a gap exactly when fewer frames were taken in than were sent before it. */
  lemma GapMeans(s: State, j: nat)
    requires ReaderOk(s) && Numbering(s.v.log, s.v.first) && s.pos <= j < |s.v.log|
    requires (s.last.None? ==> Count(s.v.log, j) == 0)
    requires s.v.log[j].msg.seqNo.Some?
    ensures Taken(s) <= Count(s.v.log, j) && Gap(s.r, s.v.log[j].msg) == (Taken(s) < Count(s.v.log, j))
  {
    CountRises(s.v.log, s.pos, j);
    assert s.v.log[j].msg.seqNo.value == s.v.first + Count(s.v.log, j);
  }

  lemma NoGapFollows(s: State, j: nat)
    requires ReaderOk(s) && Numbering(s.v.log, s.v.first) && s.pos <= j < |s.v.log|
    requires (s.last.None? ==> Count(s.v.log, j) == 0)
    requires s.v.log[j].msg.seqNo.Some? && Steps(s.v.log) && Starts(s.v.log, s.v.first)
    ensures s.last.None? ==> StartsAt(s.v.log[j])
    ensures s.last.Some? && !Gap(s.r, s.v.log[j].msg) ==> StepsTo(s.v.log[s.last.value], s.v.log[j])
  {
    var log := s.v.log;
    if s.last.Some? {
      assert !Gap(s.r, log[j].msg) ==> Follows(log[s.last.value], log[j]);
    } else {
      assert log[j].msg.seqNo.value == s.v.first + Count(log, j);
      assert log[j].msg.seqNo == Some(s.v.first);
    }
  }

  lemma PrunedApart(s: State)
    requires UpOk(s) && s.last.Some?
    ensures s.r.pruned !! s.r.meta
  {
  }

  /** The frame's numbers are right and the ladders it leaves are the venue's. */
  lemma NumberedReadAgrees(s: State, j: nat)
    requires UpOk(s) && Enabled(s, Read(j)) && s.v.log[j].msg.seqNo.Some? && !Gap(s.r, s.v.log[j].msg)
    ensures var (z, out) := OnMessage(s.r, s.v.log[j].msg);
            && out != Break && Agrees(z, s.v.log[j], Cleared(s.doubt, s.v.log[j].msg.frame))
            && z.lastSeq == s.v.log[j].msg.seqNo
            && YieldFits(s.r, s.v.log[j], s.doubt)
  {
    NoGapFollows(s, j);
    if s.last.Some? {
      PrunedApart(s);
      NextFrameAgrees(s.r, s.v.log[s.last.value], s.v.log[j], s.doubt);
    } else {
      FirstFrameAgrees(s.r, s.v.log[j], s.doubt);
    }
  }

  lemma BreakMeansGap(r: Reader, m: Message)
    ensures OnMessage(r, m).1 == Break <==> Gap(r, m)
    ensures m.seqNo.None? && m.frame.Control? ==> OnMessage(r, m).0.lastSeq == r.lastSeq && OnMessage(r, m).1 == Quiet
    ensures m.seqNo.None? && m.frame.Control? && r.books == map[] ==> OnMessage(r, m).0.books == map[]
  {
  }

  lemma NumberedReadKeepsReader(s: State, j: nat)
    requires UpOk(s) && Enabled(s, Read(j)) && s.v.log[j].msg.seqNo.Some? && !Gap(s.r, s.v.log[j].msg)
    ensures ReaderOk(AfterRead(s, j).0)
  {
    NumberedReadAgrees(s, j);
    assert s.v.log[j].msg.seqNo.value == s.v.first + Count(s.v.log, j);
  }

  lemma UnnumberedReadKeepsReader(s: State, j: nat)
    requires UpOk(s) && Enabled(s, Read(j)) && s.v.log[j].msg.seqNo.None?
    ensures ReaderOk(AfterRead(s, j).0)
  {
    BreakMeansGap(s.r, s.v.log[j].msg);
    CountRises(s.v.log, s.pos, j + 1);
    if s.last.Some? {
      PrunedApart(s);
      UnnumberedAgrees(s.r, s.v.log[s.last.value], s.v.log[j].msg, s.doubt);
    }
  }

  lemma ReadKeepsReader(s: State, j: nat)
    requires UpOk(s) && Enabled(s, Read(j)) && AfterRead(s, j).1 != Break
    ensures ReaderOk(AfterRead(s, j).0)
  {
    BreakMeansGap(s.r, s.v.log[j].msg);
    if s.v.log[j].msg.seqNo.Some? {
      NumberedReadKeepsReader(s, j);
    } else {
      UnnumberedReadKeepsReader(s, j);
    }
  }

  lemma ReadEpochRises(s: State, j: nat)
    requires UpOk(s) && Enabled(s, Read(j)) && AfterRead(s, j).1 != Break
    ensures ReadEpoch(s) <= ReadEpoch(AfterRead(s, j).0) < |s.v.subs|
    ensures s.v.log[j].msg.seqNo.Some? ==>
            AfterRead(s, j).0.last.Some? && ReadEpoch(AfterRead(s, j).0) == s.v.log[j].epoch
  {
    var log := s.v.log;
    if s.last.Some? { assert log[s.last.value].epoch <= log[j].epoch; }
  }

  /** Reading moves the reply slot only for the reply awaited. */
  lemma ReadMovesReply(r: Reader, m: Message)
    requires OnMessage(r, m).1 != Break
    ensures var z := OnMessage(r, m).0;
            && z.meta == r.meta && z.pruned == {}
            && if m.frame.Control? && m.frame.id.Some? && r.waiting == m.frame.id
               then z.waiting.None? && z.reply == Some(m.frame)
               else z.waiting == r.waiting && z.reply == r.reply
  {
  }

  lemma ReadKeepsMutation(s: State, j: nat, action: Action, tickers: set<string>, before: set<string>,
                          target: set<string>)
    requires UpOk(s) && Enabled(s, Read(j)) && AfterRead(s, j).1 != Break
    requires MutationOk(s, action, tickers, before, target)
    ensures MutationOk(AfterRead(s, j).0, action, tickers, before, target)
  {
    ReadEpochRises(s, j);
    ReadMovesReply(s.r, s.v.log[j].msg);
    if IsReply(s.v.log[j]) { assert ReplyOk(s.v.log[j], s.v.subs, s.cmdId, s.sent); }
  }

  lemma ReadKeepsInv(s: State, j: nat)
    requires UpOk(s) && Enabled(s, Read(j))
    ensures Inv(AfterRead(s, j).0)
  {
    var z := AfterRead(s, j).0;
    if AfterRead(s, j).1 != Break {
      ReadKeepsReader(s, j);
      ReadEpochRises(s, j);
      ReadMovesReply(s.r, s.v.log[j].msg);
      assert forall k :: 0 <= k < |z.v.log| && IsReply(z.v.log[k]) ==> IsReply(s.v.log[k]);
      match s.phase
      case Deleting(dropped, added) =>
        ReadKeepsMutation(s, j, Delete, dropped, (s.r.meta - added) + dropped, s.r.meta - added);
      case Adding(added) => ReadKeepsMutation(s, j, Add, added, s.r.meta - added, s.r.meta);
      case Idle => assert IsReply(s.v.log[j]) ==> s.r.waiting.None?;
    }
  }

  // ---- every run ----

  lemma VenueStep(s: State, e: Event)
    requires Inv(s) && Enabled(s, e) && (e.SendSnapshot? || e.Chatter? || e.Process?)
    ensures Inv(Next(s, e))
  {
    match e
    case SendSnapshot(t) => SnapshotKeepsInv(s, t);
    case Chatter(numbered) => ChatterKeepsInv(s, numbered);
    case Process(a) => ProcessKeepsInv(s, a);
  }

  lemma ReadStep(s: State, j: nat)
    requires Inv(s) && Enabled(s, Read(j))
    ensures Inv(Next(s, Read(j)))
  {
    ReadKeepsInv(s, j);
  }

  lemma ResyncStep(s: State, desired: set<string>)
    requires Inv(s) && Enabled(s, Resync(desired))
    ensures Inv(Next(s, Resync(desired)))
  {
    if s.up { ResyncKeepsInv(s, desired, Noted(s, desired), desired - s.r.meta, s.r.meta - desired); }
  }

  lemma StepKeepsInv(s: State, e: Event)
    requires Inv(s) && Enabled(s, e)
    ensures Inv(Next(s, e))
  {
    match e
    case Move(t, side, price, change) => MoveKeepsInv(s, t, side, price, change);
    case SendSnapshot(_) => VenueStep(s, e);
    case Chatter(_) => VenueStep(s, e);
    case Process(_) => VenueStep(s, e);
    case Read(j) => ReadStep(s, j);
    case Drop =>
    case Connect(first) => ConnectKeepsInv(s, first);
    case Resync(desired) => ResyncStep(s, desired);
    case Resume => ResumeKeepsInv(s);
  }

  lemma {:induction false} InvAlways(states: seq<State>, events: seq<Event>, i: nat)
    requires Run(states, events) && i < |states|
    ensures Inv(states[i])
  {
    if i > 0 {
      InvAlways(states, events, i - 1);
      StepKeepsInv(states[i - 1], events[i - 1]);
    }
  }

  /**
   * In every run, whatever is lost and whatever the venue answers, a book yielded has no numbered frame missing
   * before it, and is the venue's own book at that frame unless its ticker is in doubt. Without a false delete on
   * the connection no ticker is.
   */
  lemma YieldedBooksAreTrue(states: seq<State>, events: seq<Event>, i: nat)
    requires Run(states, events) && i < |events| && events[i].Read?
    ensures var s, e := states[i], states[i].v.log[events[i].index];
            var out := AfterRead(s, events[i].index).1;
            out.Yield? ==>
              && out.ticker in s.r.meta && e.msg.seqNo.Some? && e.msg.seqNo.value == s.v.first + Taken(s)
              && Missed(s) == 0
              && (out.ticker !in s.doubt || !FalseDelete(s.v.done) ==> out.book == Stamped(e, out.ticker))
  {
    var s, j := states[i], events[i].index;
    InvAlways(states, events, i);
    assert Enabled(s, events[i]);
    YieldIsTrue(s, j);
  }

  lemma YieldIsTrue(s: State, j: nat)
    requires UpOk(s) && Enabled(s, Read(j))
    ensures var out, e := AfterRead(s, j).1, s.v.log[j];
            out.Yield? ==>
              && out.ticker in s.r.meta && e.msg.seqNo.Some? && e.msg.seqNo.value == s.v.first + Taken(s)
              && Missed(s) == 0
              && (out.ticker !in s.doubt ==> out.book == Stamped(e, out.ticker))
  {
    var m := s.v.log[j].msg;
    BreakMeansGap(s.r, m);
    if m.seqNo.Some? && !Gap(s.r, m) {
      NumberedReadAgrees(s, j);
      GapMeans(s, j);
      MissedRange(s, j);
      assert m.seqNo.value == s.v.first + Count(s.v.log, j);
    }
  }

  lemma MissedRange(s: State, j: nat)
    requires ReaderOk(s) && s.pos <= j < |s.v.log|
    ensures 0 <= Missed(s) <= Count(s.v.log, j) - Taken(s)
  {
    CountRises(s.v.log, s.pos, j);
  }

  /**
   * A numbered frame breaks the connection exactly when one before it was
   * lost: no loss goes unnoticed, and no frame is a false alarm.
   */
  lemma LossIsNoticed(s: State, j: nat)
    requires UpOk(s) && Enabled(s, Read(j))
    ensures AfterRead(s, j).1 == Break
            <==> s.v.log[j].msg.seqNo.Some? && (Missed(s) > 0 || Count(s.v.log, s.pos) < Count(s.v.log, j))
    ensures Missed(s) > 0 && AfterRead(s, j).1 != Break ==> AfterRead(s, j).1 == Quiet
  {
    var m := s.v.log[j].msg;
    BreakMeansGap(s.r, m);
    MissedRange(s, j);
    CountRises(s.v.log, s.pos, j);
    if m.seqNo.Some? { GapMeans(s, j); }
  }

  /**
   * A settled live connection is subscribed to the desired set but for what the venue's answers made of it, so to
   * exactly that set if and only if the answers leave no drift.
   */
  lemma SettledMeansSubscribed(states: seq<State>, events: seq<Event>, i: nat)
    requires Run(states, events) && i < |states| && states[i].up && states[i].phase == Idle
    ensures states[i].v.subs != [] && states[i].v.inbox == []
    ensures Tracks(Sub(states[i].v), states[i].r.meta, DriftOf(states[i].v.done))
    ensures Sub(states[i].v) == states[i].r.meta <==> DriftOf(states[i].v.done) == Drift({}, {})
  {
    InvAlways(states, events, i);
  }

  predicate Bluffed(done: seq<Processed>) {
    exists k :: 0 <= k < |done| && Bluff(done[k])
  }

  /** Answers without a bluff leave no drift. */
  lemma {:induction false} HonestAnswersDoNotDrift(done: seq<Processed>)
    requires !Bluffed(done)
    ensures DriftOf(done) == Drift({}, {})
  {
    if done != [] {
      var front := done[..|done| - 1];
      assert forall k :: 0 <= k < |front| ==> front[k] == done[k];
      HonestAnswersDoNotDrift(front);
    }
  }

  /** The first bluff of a connection always drifts; later answers may settle or cancel it. */
  lemma FirstBluffDrifts(done: seq<Processed>, p: Processed)
    requires !Bluffed(done) && Bluff(p)
    ensures DriftOf(done + [p]) != Drift({}, {})
  {
    HonestAnswersDoNotDrift(done);
    assert (done + [p])[..|done|] == done;
    assert {} - p.cmd.tickers + (Unmet(p) - {}) == Unmet(p);
  }

  /** The command in flight: deletes go out before adds. */
  function ActionOf(p: Phase): Action
    requires p != Idle
  {
    if p.Deleting? then Delete else Add
  }

  function TickersOf(p: Phase): set<string>
    requires p != Idle
  {
    if p.Deleting? then p.dropped else p.added
  }

  /**
   * A mutation is believed exactly on an ok reply whose membership, if it gives one, shows the change, and the reply is
   * its own; anything else closes the connection. What is believed leaves the subscription where the answers say.
   */
  lemma ResumeMeans(s: State)
    requires UpOk(s) && Enabled(s, Resume)
    ensures var z, f := AfterResume(s), s.r.reply.value;
            && z.r.meta == s.r.meta
            && (z.up <==> Proves(f, ActionOf(s.phase), TickersOf(s.phase))) && f.id == Some(s.cmdId)
            && (z.up && z.phase == Idle ==> Tracks(Sub(z.v), z.r.meta, DriftOf(z.v.done)))
            && (z.up && z.phase == Idle && !Bluffed(z.v.done) ==> Sub(z.v) == z.r.meta)
  {
    ResumeKeepsInv(s);
    if !Bluffed(s.v.done) { HonestAnswersDoNotDrift(s.v.done); }
  }

  /** Only a resync changes the desired set, and a connection always starts from it. */
  lemma DesiredSetIsKept(s: State, e: Event)
    requires Enabled(s, e)
    ensures Next(s, e).r.meta == if e.Resync? then e.desired else s.r.meta
    ensures e.Connect? ==> Next(s, e).v.subs == [s.r.meta]
  {
  }

  /**
   * Why the first numbered frame must arrive: were a snapshot lost before it, the
   * first delta would be yielded on an empty book, with no alarm.
   */
  lemma FirstLossGoesUnnoticed(r: Reader, t: string, price: string, size: nat, change: nat, n: nat)
    requires r.books == map[] && r.lastSeq.None? && t in r.meta && size > 0 && change > 0
    ensures var truth := Book(map[price := size], map[]);
            var (_, out) := OnMessage(r, Message(Some(n), Delta(t, Some(Yes), Some(price), change)));
            out.Yield? && out.ticker == t && out.book != Adjusted(truth, Yes, price, change)
  {
    var truth := Book(map[price := size], map[]);
    assert Adjusted(truth, Yes, price, change).yes[price] == size + change;
    assert Adjusted(EMPTY_BOOK, Yes, price, change).yes[price] == change;
  }
}
