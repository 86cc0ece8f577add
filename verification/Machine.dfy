/**
 * The collector and its daily refresh as one state machine (pmarb/main.py, pmarb/refresh.py). Evaluations may
 * happen between any two steps of a refresh; the close markers and the rewrite of the live state are one step.
 */
module Machine {
  import opened Common
  import opened Samples
  import opened Sampling
  import opened MatchSets
  import opened SurvivalLaw

  datatype Cycle =
    | Idle
    | Diffed(diff: Diff)
    | Synced(diff: Diff, newIds: Option<map<PairKey, int>>)

  /** `written` is the observation table; `all` is what it would hold had every evaluation been written. */
  datatype State = State(
    tracked: map<PairKey, Match>,
    entries: map<PairKey, Append>,
    ids: map<PairKey, int>,
    written: set<Sample>,
    all: set<Sample>,
    windows: nat,
    cycle: Cycle)

  datatype Event =
    | Evaluate(k: PairKey, ev: Evaluation, wall: int, mono: int)
    | StartRefresh(trusted: seq<Match>, listed: set<string>)
    | SyncDb(newIds: Option<map<PairKey, int>>)
    | CloseAndApply(wall: int)

  function Entry(s: State, k: PairKey): Append {
    if k in s.entries then s.entries[k] else ABSENT
  }

  function Marker(k: PairKey, wall: int, yesVenue: string): Sample {
    Sample(k, wall, Some(Unsubscribed), 0, 0, if yesVenue == "" then "kalshi" else yesVenue)
  }

  /** The dropped pairs with a window to close and a row to attach its end to. */
  function ToClose(s: State, dropped: map<PairKey, Match>): set<PairKey> {
    set k | k in dropped && k in s.entries && s.entries[k].wasViable && k in s.ids
  }

  function Markers(s: State, dropped: map<PairKey, Match>, wall: int): set<Sample> {
    set k | k in ToClose(s, dropped) :: Marker(k, wall, Entry(s, k).yesVenue)
  }

  function ReasonOf(s: State, e: Event): Option<Reason>
    requires e.Evaluate? && e.k in s.tracked
  {
    ReasonFor(Entry(s, e.k), e.ev, s.tracked[e.k].structured, e.mono)
  }

  function RowOf(s: State, e: Event): Sample
    requires e.Evaluate? && e.k in s.tracked
  {
    Sample(e.k, e.wall, ReasonOf(s, e), e.ev.size, e.ev.spread, e.ev.yesVenue)
  }

  function Evaluated(s: State, e: Event): State
    requires e.Evaluate? && e.k in s.tracked
  {
    var row := RowOf(s, e);
    var opens := row.reason.Some? && e.ev.size > 0 && !Entry(s, e.k).wasViable;
    s.(entries := s.entries[e.k := Advance(Entry(s, e.k), e.ev, s.tracked[e.k].structured, e.mono)],
       written := if row.reason.Some? && e.k in s.ids then s.written + {row} else s.written,
       all := s.all + {row},
       windows := if opens then s.windows + 1 else s.windows)
  }

  function Applied(s: State, diff: Diff, newIds: Option<map<PairKey, int>>, wall: int): State {
    var live := diff.Live();
    s.(tracked := live,
       entries := Restrict(s.entries, live.Keys),
       ids := if newIds.Some? then newIds.value else s.ids,
       written := s.written + Markers(s, diff.dropped, wall),
       all := s.all + Markers(s, diff.dropped, wall),
       cycle := Idle)
  }

  /** Every earlier row of the pair is strictly older. */
  ghost predicate After(rows: set<Sample>, k: PairKey, wall: int) {
    forall x :: x in rows && x.pair == k ==> x.at < wall
  }

  ghost predicate Enabled(s: State, e: Event) {
    match e
    case Evaluate(k, ev, wall, mono) => k in s.tracked && After(s.all, k, wall) && (ev.size > 0 ==> ev.spread > 0)
    case StartRefresh(_, _) => s.cycle.Idle?
    case SyncDb(newIds) => s.cycle.Diffed? && (newIds.Some? ==> s.ids.Keys <= newIds.value.Keys)
    case CloseAndApply(wall) => s.cycle.Synced? && forall k :: k in s.cycle.diff.dropped ==> After(s.all, k, wall)
  }

  ghost function Next(s: State, e: Event): State
    requires Enabled(s, e)
  {
    match e
    case Evaluate(_, _, _, _) => Evaluated(s, e)
    case StartRefresh(trusted, listed) => s.(cycle := Diffed(PairDiff(s.tracked, trusted, listed)))
    case SyncDb(newIds) => s.(cycle := Synced(s.cycle.diff, newIds))
    case CloseAndApply(wall) => Applied(s, s.cycle.diff, s.cycle.newIds, wall)
  }

  ghost predicate Initial(s: State) {
    ByKey(s.tracked) && s.entries == map[] && s.written == {} && s.all == {} && s.windows == 0 && s.cycle.Idle?
  }

  /** The events, one after another, are enabled, satisfy `ok`, and lead from `s0` to `s`. */
  ghost predicate Run(s0: State, events: seq<Event>, s: State, ok: (State, Event) -> bool)
    decreases |events|
  {
    if events == [] then s == s0
    else
      var front, e := events[..|events| - 1], events[|events| - 1];
      exists t {:trigger Run(s0, front, t, ok)} :: Run(s0, front, t, ok) && Enabled(t, e) && ok(t, e) && s == Next(t, e)
  }

  // ---- rows appended at the end of their pair's history ----

  ghost predicate Newest(R: set<Sample>, r: Sample) {
    r in R && forall x :: x in R && x.pair == r.pair ==> x.at <= r.at
  }

  ghost predicate Appends(R: set<Sample>, M: set<Sample>) {
    && (forall m {:trigger m in M} :: m in M ==> After(R, m.pair, m.at))
    && (forall m, n {:trigger SamePair(m, n)} :: m in M && n in M && SamePair(m, n) ==> m == n)
  }

  ghost predicate SamePair(r: Sample, s: Sample) {
    r.pair == s.pair
  }

  lemma NewestAppended(R: set<Sample>, M: set<Sample>, r: Sample)
    requires Appends(R, M) && Newest(R + M, r)
    ensures r in M || (Newest(R, r) && forall m :: m in M ==> m.pair != r.pair)
  {
    if r !in M {
      forall m | m in M ensures m.pair != r.pair {
        assert m in R + M;
      }
      forall x | x in R && x.pair == r.pair ensures x.at <= r.at {
        assert x in R + M;
      }
    }
  }

  lemma AppendedIsNewest(R: set<Sample>, M: set<Sample>, m: Sample)
    requires Appends(R, M) && m in M
    ensures Newest(R + M, m)
  {
    forall x | x in R + M && x.pair == m.pair ensures x.at <= m.at {
      if x in M { assert SamePair(x, m); }
    }
  }

  lemma OldPredecessors(R: set<Sample>, M: set<Sample>, x: Sample, s: Sample)
    requires Appends(R, M) && x in R
    ensures Precedes(R + M, s, x) <==> Precedes(R, s, x)
  {
    forall m | m in M && m.pair == x.pair ensures m.at > x.at {}
    if Precedes(R + M, s, x) {
      forall y | y in R && y.pair == x.pair && y.at < x.at ensures y.at <= s.at {
        assert y in R + M;
      }
    }
  }

  lemma NewPredecessors(R: set<Sample>, M: set<Sample>, m: Sample, s: Sample)
    requires Appends(R, M) && m in M
    ensures Precedes(R + M, s, m) <==> Newest(R, s) && s.pair == m.pair
  {
    forall y | y in R + M && y.pair == m.pair && y.at < m.at ensures y in R {
      if y in M { assert SamePair(y, m); }
    }
    if Precedes(R + M, s, m) {
      forall y | y in R && y.pair == s.pair ensures y.at <= s.at {
        assert y in R + M;
      }
    }
  }

  lemma OldOpenings(R: set<Sample>, M: set<Sample>, x: Sample)
    requires Appends(R, M) && x in R
    ensures Opens(R + M, x) <==> Opens(R, x)
  {
    forall s ensures Precedes(R + M, s, x) <==> Precedes(R, s, x) {
      OldPredecessors(R, M, x, s);
    }
  }

  lemma KeyedAppended(R: set<Sample>, M: set<Sample>)
    requires Keyed(R) && Appends(R, M)
    ensures Keyed(R + M)
  {
    forall r, s | r in R + M && s in R + M && SameKey(r, s) ensures r == s {
      if r in M && s in M {
        assert SamePair(r, s);
      }
    }
  }
}
