# Cross-venue hedge detector: a verified model

This project models the collector that watches one event on two prediction venues (Kalshi and Polymarket US),
decides whether buying YES on one and NO on the other costs less than the dollar it pays, and records what it saw.
It proves what the repository relies on: that the lossy log loses nothing, that no window dangles, that a book
yielded is the venue's book, when a connection keeps its cap, that the depth walk finds the best size, that a
matched pair is a hedge at every final score, and that a percentile is a ceiling.

`dafny verify dfyconfig.toml` checks the whole project.

## How the files fit together

| concern | files |
|---|---|
| shared datatypes and the stable sort | `Common.dfy` |
| the survival curve: loops, specification, and its meaning over a set of rows | `Survival.dfy`, `SurvivalLaw.dfy` |
| what a log may leave out without changing the curve | `LosslessLog.dfy` |
| the write policy | `Sampling.dfy` |
| the daily diff of the match set | `Refresh.dfy` |
| collector and refresh as one state machine: its invariants, its lossless runs, how far apart its rows are | `Machine.dfy`, `NoDangling.dfy`, `LosslessRuns.dfy`, `SpacedRuns.dfy` |
| the shared in-memory state and the tables, rewritten in place, and one whole refresh over both | `Collector.dfy`, `DbSync.dfy`, `Refresher.dfy` |
| fees, the depth walk, its laws, the fixed-size fill price, the detector | `Fees.dfy`, `Spread.dfy`, `WalkLaws.dfy`, `FillPrice.dfy`, `Detection.dfy` |
| spread and total matching, its payoff, and the money it makes | `Lines.dfy`, `LineLaws.dfy`, `LineHedge.dfy` |
| the 1:1 reduction and the lexical matcher | `Dedupe.dfy`, `DedupeLaws.dfy`, `Lexical.dfy`, `LexicalLaws.dfy` |
| the latency histogram | `Latency.dfy` |
| the Kalshi subscription: reader, venue and channel, safety, runs that show its limits | `KalshiReader.dfy`, `KalshiFeed.dfy`, `KalshiSafety.dfy`, `KalshiWitness.dfy` |
| the Polymarket shards: one shard, its laws, all of them, their laws | `PolyShard.dfy`, `PolyShardLaws.dfy`, `PolyFeed.dfy`, `PolyFeedLaws.dfy` |
| every run of the shards, one send at a time: the machine, what every run keeps, the cap, the one-step resync as a run, where the cap is passed | `PolyRuns.dfy`, `PolyRunLaws.dfy`, `PolyCap.dfy`, `PolyWhole.dfy`, `PolyCrash.dfy` |

Code that updates state is a class or a loop proved equal to a specification function; the laws are about those
functions. Units: prices, fees and money are in ticks of 1e-4 dollars, times are integer microseconds, latencies are
milliseconds as exact reals, sizes on a ladder are reals of which the walk takes the whole part. A per-share value is
kept as a total over a number of shares (`Edge`), so nothing is lost to division.

## Where the code and its own words differ

Each of these is stated by a lemma, with the exact condition where one exists.

- The survival curve of the written rows equals the curve of every evaluation exactly when the first evaluation after
  each close marker was itself recorded (`LossyLogIsLossless`, `ResumedExactlyWhen`), and at one delta exactly when no
  window is seen wrongly there (`LossyLogAtDelta`). A pair re-added within five minutes of the monotonic clock's start
  can break it (`EarlyResumptionLoses`); the daily schedule never refreshes twice so early, so that run needs the
  `interval` override of `run` (pmarb/refresh.py:363). "Every delta" counts microseconds; the report's own deltas are
  whole milliseconds, and a difference that lies between two of them is one it does not show (`LosslessAtDelta`).
- A throttled row is a throttle after every earlier row of its pair unless a refresh dropped the pair in between
  (`ThrottledRowsKeepDistance`); across a drop and a re-add any distance is possible (`ReAddedPairMayRepeatAtOnce`).
- `_prune_shard` says the desired set is corrected first either way. It is corrected batch by batch: no dead slug is
  left exactly when every stale batch but the last is torn down without failing (`PruneLeavesDeadSlugs`), and a dead
  slug that lies in no batch is never seen (`ThroughPruneIsExact`).
- "live" means every mutation was confirmed, says the Polymarket resync. It reads the error counter only after its
  last send, so an error frame that arrives earlier is counted but not noticed (`EarlyRefusalGoesUnnoticed`): after a
  live resync an old shard is settled exactly when none of its subscribes was refused (`LiveMeansCovered`). And it
  covers exactly the desired slugs if and only if each slug to drop lay in a batch (`LiveCoversExactlyWhenBatched`),
  which fails for a shard that has not connected yet (`UnconnectedShardKeepsDead`).
- A resync's send that finds no socket at all raises an error `_prune_shard` and `resync` do not expect, which ends the
  resync before the shards that already failed are recycled. Until that strands a failed shard on its old connection no
  run passes the cap, whatever drops and reconnects between two sends (`RunsKeepTheCap`). After it a later resync can
  (`StrandedShardPassesTheCap`): placing new slugs keeps the cap whatever they are if and only if no healthy connection
  with room is held for more than its shard has desired (`AddingKeepsTheCapExactly`).
- A Kalshi reply that says ok without echoing the membership is believed, applied or not (`BareOkIsBelieved`). A
  settled connection holds exactly the desired set if and only if the answers so far leave no drift
  (`SettledMeansSubscribed`): none do while there is no such bluff (`HonestAnswersDoNotDrift`), the first one always
  does (`FirstBluffDrifts`), and a later command on the same ticker may cancel it (`BluffMayCancel`). A yielded book
  is the venue's unless its ticker is in doubt after a falsely confirmed delete (`YieldedBooksAreTrue`,
  `DoubtfulBookIsFalse`).
- "The fee on the average price overstates the true fee" holds for the curve (`PerLevelFeeIsCheaper`), and up to one
  tick a share once fees are rounded (`RoundedPerLevelFee`); rounding can reverse it (`AverageMayUnderstate`), but not
  where the curve saves a tick a share (`SlackSurvivesRounding`).
- `evaluate_pair` can report size 0 for a pair `detect_pair` finds. The two disagree exactly when the direction that
  clears is outbid by one contract of the other (`DisagreeExactlyWhenOutbid`), as half a share at a fine price can
  (`ThinTopHidesOpportunity`); with whole shares at the top they agree (`SizeExactlyWhenDetected`).
- An inverted line pair is a hedge at every score exactly when no score can land on the line (`PayoffIdentity`).
- A market two pairs contest is refused to both, but a lower-ranked pair may still take it
  (`ContestedMarketMayGoLower`).
- The distance between two dates in days floors before it drops the sign, so it depends on the order unless the
  distance is a whole number of days (`DeltaIsNotSymmetric`).

## Assumptions

- Rows of one pair have distinct times, as the table's key demands; evaluations and markers of a pair are in
  increasing time.
- Runs start with an empty log and a writer that loses no row. For the lossless theorem every evaluated pair has a
  database id; the no-dangling theorem does not need it.
- The detector reports a size only with a positive spread, which holds for any buffer that is not negative
  (`SizeMeansPositiveSpread`); the collector's machine takes it as given.
- The Kalshi venue numbers book frames and ok replies from one counter, sends a snapshot for each ticker it adds
  before any delta, and echoes its real membership when it echoes at all; it may say ok to what it did not do. The
  channel may lose any frame except the first numbered one of a connection (`FirstLossGoesUnnoticed` shows why). A
  connection reads the desired set and subscribes it in one step, and nothing is read from a socket after it was told
  to close.
- One resync runs at a time on each feed.
- In the Polymarket runs every send is a step, and any shard may drop or reconnect between two of them, with one
  exception: a dropped shard does not connect again before the resync has resumed from the send or the answer it was
  waiting for on that shard, because the drop ends that wait at once and a reader sleeps its backoff, at least a second,
  before it connects (pmarb/feeds/polymarket.py:757-761, 782-795).
- Competitor likeness is a table; where a payoff is claimed, it tells the two sides of the game apart. Tokens and
  character ratios are tables too, the ratio in [0, 1].

## Model

| member | source | states |
|---|---|---|
| Survival.SurvivalCurve | pmarb/backtest/survival.py:61-121 | the whole report is one point per delta over the windows of the grouped, sorted rows |
| Survival.GroupByPair | pmarb/backtest/survival.py:67-73 | grouping puts each row in its own pair's list, in arrival order, pairs in order of first sight |
| Survival.SortGroups | pmarb/backtest/survival.py:70-73 | each pair's list is put in time order by a stable sort, nothing else moves |
| Survival.FindInSeries | pmarb/backtest/survival.py:75-84 | the windows of one series are the viable rows whose predecessor is not viable |
| Survival.StateAt | pmarb/backtest/survival.py:90-95 | the scan finds the last row no later than the target |
| Survival.WindowFate | pmarb/backtest/survival.py:85-116 | a window is censored by a close marker or by running out of rows, else survived or closed by its state at the target |
| Survival.CountFates | pmarb/backtest/survival.py:86-121 | the counters are the numbers of windows of each fate |
| SurvivalLaw.CurveMeaning | pmarb/backtest/survival.py:61-121 | grouping, sorting and scanning count exactly the openings of the set of rows that have each fate, defined with no order or grouping |
| CurveCorollaries.EveryWindowCounted | pmarb/backtest/survival.py:86-121 | known plus censored is the number of windows at every delta, and survived never exceeds known |
| CurveCorollaries.PctInRange | pmarb/backtest/survival.py:48-55 | the rate is between 0 and 100 percent, and absent exactly when nothing is known |
| CurveCorollaries.ArrivalOrderIrrelevant | pmarb/backtest/survival.py:67-73 | the same rows in any order give the same curve |
| CurveCorollaries.DeltaZeroIsEveryWindow | pmarb/backtest/survival.py:86-121 | at delta 0 every window survives and none is censored |
| CurveCorollaries.PairsAreIndependent | pmarb/backtest/survival.py:67-84 | the curve of two groups of pairs is the sum of their curves |
| LosslessLog.LosslessExactlyWhenResumed | pmarb/backtest/survival.py:61-121 | a log that keeps viable rows, closes and markers gives the full curve at every delta, in microseconds, if and only if it keeps the first row after each marker |
| LosslessLog.LosslessAtDelta | pmarb/backtest/survival.py:96-116 | at any one delta, the source's whole milliseconds included, such a log gives the full curve's point if and only if no window there has a marker as its last row in the log and a skipped row since |
| LosslessLog.SkippedResumptionShows | pmarb/backtest/survival.py:96-103 | a skipped resumption is visible at a delta the lemma constructs |
| Sampling.ReasonsMean | pmarb/main.py:57-95 | each reason exactly when it applies and no more specific one does; a marker is never given here |
| SpacedRuns.ThrottledRowsKeepDistance | pmarb/main.py:86-95 | in every run an edge-change or heartbeat row is at least the throttle after every earlier row of its pair, unless a refresh dropped the pair between them |
| SpacedRuns.SkippedIsQuiet | pmarb/main.py:86-95 | in every run an evaluation that is not recorded is not viable, follows a non-viable one, and comes within a heartbeat of a row recorded since the last drop or of the clock's start |
| SpacedRuns.ThrottleBoundsRows | pmarb/main.py:91-94 | over any stretch of any run n such rows of a pair take at least n - 1 throttles, less one for each drop between the first and the last of them |
| SpacedRuns.ReAddedPairMayRepeatAtOnce | pmarb/main.py:266-268 | for every gap, a run that drops and re-adds a pair and writes two of its rows that far apart |
| SpacedRuns.RunIsTrace | pmarb/main.py:255-300 | the states these laws speak of are those of every run of the machine |
| MatchSets.Fresh | pmarb/refresh.py:125-150 | the wanted pairs are the trusted ones with both legs listed |
| MatchSets.DiffMeaning | pmarb/refresh.py:108-150 | live is old minus dropped plus added, dropped pairs are exactly those untrusted or unlisted, and fresh metadata wins |
| MatchSets.DiffIsIdempotent | pmarb/refresh.py:125-150 | refreshing again against the same inputs changes nothing |
| NoDanglingWindows.NoDanglingAlways | pmarb/refresh.py:255-343 | in every reachable state, with evaluations between any two steps and a failed database sync, a pair whose newest stored row is viable is tracked and its entry says so |
| NoDanglingWindows.DroppedPairsAreClosed | pmarb/refresh.py:296-320 | a pair no longer tracked has no open window in the log |
| LosslessRuns.FaithfulAlways | pmarb/main.py:263-300 | in every run the entry of a pair speaks of its newest row and the log is one the lossless law covers |
| LosslessRuns.LossyLogIsLossless | pmarb/main.py:263-300 | over every run the curve of the written rows equals the curve of all evaluations plus markers, at every delta, if and only if each resumption was recorded |
| LosslessRuns.ResumedExactlyWhen | pmarb/main.py:86-95 | a resumption is recorded exactly when there was no marker, or it is viable, or a throttle has passed for a live game, or a heartbeat has |
| LosslessRuns.LateStartResumes | pmarb/main.py:266-268 | a clock one heartbeat old at a pair's first evaluation is enough |
| LosslessRuns.LossyLogAtDelta | pmarb/main.py:263-300 | over every run the two curves agree at a delta if and only if no window is seen wrongly at it |
| LosslessRuns.EarlyResumptionLoses | pmarb/main.py:57-95 | a concrete run, with two refreshes in the first 30 milliseconds of the monotonic clock, whose written rows give a different curve at 30 milliseconds |
| LosslessRuns.WindowsCounted | pmarb/main.py:263-300 | the windows counter equals the runs of viable rows in the written rows |
| CollectorState.Collector.Tracked | pmarb/refresh.py:210-216 | the pairs derived from the index are exactly the live ones |
| CollectorState.Collector.Record | pmarb/main.py:255-300 | one evaluation changes the log, the entry and the counter as the machine's step does |
| CollectorState.Collector.CloseOpenWindows | pmarb/refresh.py:296-320 | one marker for each dropped pair that was viable and has an id, and no other |
| CollectorState.Collector.Apply | pmarb/refresh.py:322-360 | the index lists each live pair once per leg, dead keys leave the entries, cache and latest log, surviving entries are unchanged, and a failed sync keeps the old ids |
| CollectorState.Collector.CloseAndApply | pmarb/refresh.py:255-259 | markers and rewrite together are one step of the machine; the entries, cache and latest log keep exactly the live pairs and their legs, unchanged |
| CollectorState.BuildIndex | pmarb/refresh.py:335-340 | the rebuilt index lists every live pair under both legs and nothing else |
| CollectorState.LegsIndexed | pmarb/refresh.py:335-340 | appending one pair to both lists keeps the index exact |
| DbSync.Database.UpsertMarkets | pmarb/db/sync.py:20-55 | each listed market shows the question, date, category and structured id of its last listing, keeps its venue and first sighting, and the others keep their rows |
| DbSync.Database.UpsertRows | pmarb/db/sync.py:85-121 | each usable pair shows its last candidate, date distance and hazards included, and its last review, un-retracted, under the id it had, and the others keep their rows |
| DbSync.Database.UpsertMatchPairs | pmarb/db/sync.py:58-130 | after it the un-retracted pairs are exactly the usable ones, and ids and first sightings never change |
| DbSync.Database.RetractOthers | pmarb/db/sync.py:122-129 | exactly the un-retracted pairs outside the set are retracted, now |
| DbSync.Database.Sync | pmarb/refresh.py:277-294 | afterwards every live pair has an id, no pair lost or changed its own, each listed market shows its last listing, and the un-retracted pairs are exactly the usable ones, each showing its last candidate and review |
| Refresher.RefreshOnce | pmarb/refresh.py:219-258 | over the live state and the database together, whether or not the database fails, one refresh is three steps of the machine: exactly the trusted, listed pairs are tracked, cache, latest log and market lists are cut down to them, every id in use is the database's, unless it failed every live pair has one, and once it committed its un-retracted pairs are exactly the usable ones of the file |
| Refresher.SyncDatabase | pmarb/refresh.py:242-253 | a failed transaction leaves the database as it was, one that fails after the commit leaves the rows and no ids, and after a commit the un-retracted pairs are exactly the usable ones, each showing its last candidate and review |
| Refresher.LiveIsBacked | pmarb/refresh.py:125-150 | every live pair is in the file handed to the sync and both its markets are among those upserted |
| Fees.DocumentedPeaks | pmarb/fees.py:31-38 | the two taker fees at the even price are 1.75 and 1.25 cents |
| Fees.MakerRebateIsCredit | pmarb/fees.py:41-48 | the maker rebate is never a charge |
| Fees.TakerFeeRange | pmarb/fees.py:15-38 | a taker fee is never negative and peaks at the even price |
| Fees.CostWithFeeRises | pmarb/fees.py:15-28 | price plus rounded fee never falls as the tick price rises, for any coefficient in [0, 1) |
| Fees.CurveSlope | pmarb/fees.py:15-28 | the unrounded fee falls more slowly than the price rises |
| Fees.FeeIsSymmetric | pmarb/fees.py:15-28 | both sides of a contract pay the same fee, and are refused alike |
| DepthWalk.MaxFillableSize | pmarb/detection/spread.py:117-165 | the loop's plan is the largest clearing size before the early exit, with its totals and frontier |
| DepthWalk.WalkLadders | pmarb/detection/spread.py:134-163 | the accumulators are the prefix sums and the best plan so far is the largest size that clears |
| DepthWalk.BestIsLargest | pmarb/detection/spread.py:158-163 | the size kept clears and no larger size walked does |
| WalkLaws.EarlyExitLosesNothing | pmarb/detection/spread.py:128-156 | for ascending ladders and non-negative fees no size beyond the early exit clears, up to the cap and the thinner book |
| WalkLaws.TooDearStays | pmarb/detection/spread.py:153-156 | once the average legs cost too much they do at every larger size |
| WalkLaws.EdgeNeverRises | pmarb/detection/spread.py:141-165 | the per-share edge never rises with size |
| WalkLaws.ClearingSizesArePrefix | pmarb/detection/spread.py:158-163 | the sizes that clear form a prefix |
| WalkLaws.FrontierFalls | pmarb/detection/spread.py:87-107 | the three frontier edges do not increase, clear the buffer, and are at least the plan's own edge |
| WalkLaws.SharesRise | pmarb/detection/spread.py:110-114 | an ascending ladder read share by share is ascending and never beats its best level |
| WalkLaws.TakersNeverRebate | pmarb/fees.py:31-38 | with the venues' taker fees the early exit's condition holds |
| WalkLaws.TakerCostsRise | pmarb/fees.py:31-38 | with the venues' taker fees what the next hedge costs never falls |
| WalkLaws.PerLevelFeeIsCheaper | pmarb/fees.py:15-24 | unrounded, the fee charged level by level never exceeds the fee on the average fill price |
| WalkLaws.RoundedPerLevelFee | pmarb/detection/spread.py:147-163 | rounded, it exceeds it by at most one tick a share |
| WalkLaws.SlackSurvivesRounding | pmarb/fees.py:15-28 | where the unrounded fee level by level is a tick a share below the curve at the average, the rounded one does not exceed the fee on the average |
| WalkLaws.AverageMayUnderstate | pmarb/fees.py:15-28 | two shares whose accumulated fee exceeds the fee on their average |
| FillPrice.ComputeFillPrice | pmarb/detection/spread.py:68-81 | the loop returns the walked cost over the shares, or nothing for a non-positive size or a thin book |
| FillPrice.FilledWhenDeep | pmarb/detection/spread.py:68-81 | a price exists exactly when the whole book holds enough |
| FillPrice.WalkIsCheapest | pmarb/detection/spread.py:68-81 | no other way of buying the same shares from the book is cheaper |
| FillPrice.WalksAgree | pmarb/detection/spread.py:68-114 | on whole sizes the share-by-share walk spends what the fixed-size walk does |
| Detection.DetectPair | pmarb/detection/spread.py:168-211 | nothing when either leg is stale, else the opportunities of both directions in order |
| Detection.EvaluatePair | pmarb/detection/spread.py:241-310 | the better of the two directions' records, one-sided books skipped, none when stale or when an edge is required and absent |
| Detection.PlanIsLargest | pmarb/detection/spread.py:117-165 | on sorted books a size clears exactly when it is at most the size reported |
| Detection.FunnelOnlyNarrows | pmarb/detection/spread.py:214-310 | top of book is at least the depth-adjusted spread, which is at least the fee-adjusted one |
| Detection.GreatestIsChosen | pmarb/detection/spread.py:265-303 | the record kept is at least as good as both directions', and the first wins a tie |
| Detection.SizeExactlyWhenDetected | pmarb/detection/spread.py:168-310 | with whole shares at the top a pair is detected exactly when its record reports a size, whether or not an edge is required |
| Detection.DisagreeExactlyWhenOutbid | pmarb/detection/spread.py:168-310 | on sorted books, with or without an edge required, detection and reported size disagree if and only if the pair is fresh and the direction that clears is outbid by one contract of the other |
| Detection.ThinTopHidesOpportunity | pmarb/detection/spread.py:285-303 | half a share at a fine price outbids a direction that clears |
| Detection.SizeMeansPositiveSpread | pmarb/detection/spread.py:265-303 | on any books a size is reported only with a positive fee-adjusted spread |
| Lines.BuildBlocks | pmarb/matching/lines.py:124-130 | the block under a contract holds exactly its Poly listings, in order |
| Lines.Match | pmarb/matching/lines.py:121-192 | the loops compute the best claim of each Kalshi line, resolved best first |
| LineLaws.KeptIsLinked | pmarb/matching/lines.py:132-165 | every pair emitted joins listed markets on one contract, aligned, oriented and close in time |
| LineLaws.KeptAreOneToOne | pmarb/matching/lines.py:167-192 | no market is used by two pairs |
| LineLaws.LostToABetterClaim | pmarb/matching/lines.py:167-180 | a claim is lost only to a kept one that shares a market and is at least as good |
| LineLaws.ClaimIsBest | pmarb/matching/lines.py:151-165 | a Kalshi market claims its best-scoring, then closest listing |
| LineLaws.TieIsRefused | pmarb/matching/lines.py:156-164 | two indistinguishable best listings leave the Kalshi market without a claim |
| LinePayoff.AlignmentKeepsSides | pmarb/matching/lines.py:46-67 | an alignment maps each Poly name to the Kalshi name of the same side |
| LinePayoff.KalshiOrderIsIrrelevant | pmarb/matching/lines.py:46-67 | the order in which Kalshi lists the competitors does not change the alignment |
| LinePayoff.PolyOrderIsIrrelevant | pmarb/matching/lines.py:46-67 | nor does the order in which Poly lists them |
| LinePayoff.OrientationMeans | pmarb/matching/lines.py:76-112 | direct pairs name one event; inverted ones are complements except where the margin lands on the line |
| LinePayoff.PayoffIdentity | pmarb/matching/lines.py:76-112 | the two YESes agree after orientation at every integer score if and only if the pair is direct or the line is not a whole number |
| LinePayoff.HalfPointsAlwaysHedge | pmarb/matching/lines.py:76-112 | half-point lines always hedge |
| LineHedge.MatchedPairsNetTheBuffer | pmarb/main.py:98-116 | from the catalogs to the money: on any pair the line matcher emits, any size the detector reports, in either direction, nets more than the buffer on each share at every final score, inverted whole-number lines aside |
| LineHedge.EveryOutcomeNetsTheBuffer | pmarb/main.py:98-116 | the same of any oriented pair that is direct or off the whole numbers |
| LineHedge.OpportunityClears | pmarb/detection/spread.py:168-211 | what an opportunity pays out less what it costs exceeds the buffer on each share |
| Dedupe.ClaimSets.DedupeOneToOne | pmarb/matching/matcher.py:206-281 | the loops compute the block-by-block walk, and the claim sets grow by exactly the kept ids |
| Dedupe.ClaimSets.KeepUncontested | pmarb/matching/matcher.py:263-278 | a block keeps exactly its uncontested pairs, and its second claim check never fires |
| Dedupe.NeverTakenInBlock | pmarb/matching/matcher.py:273-275 | inside a block no uncontested pair finds its market taken |
| DedupeLaws.DedupedIsAssignment | pmarb/matching/matcher.py:206-281 | the result is an assignment: kept exactly when listed once, free of seeds and better-ranked kept pairs, and without a free rival of its rank |
| DedupeLaws.AssignmentsAgree | pmarb/matching/matcher.py:206-281 | there is only one assignment |
| DedupeLaws.AssignmentIsOneToOne | pmarb/matching/matcher.py:206-242 | an assignment is one to one and avoids the seeds |
| DedupeLaws.InputOrderIsIrrelevant | pmarb/matching/matcher.py:236-242 | the same candidates in any order give the same list |
| DedupeLaws.LayersStayOneToOne | pmarb/matching/matcher.py:229-234 | layers chained through the claim sets stay one to one together |
| DedupeLaws.ContestedMarketMayGoLower | pmarb/matching/matcher.py:263-278 | two contenders are refused and a lower-ranked pair keeps the market |
| Lexical.BuildIndex | pmarb/matching/matcher.py:144-148 | a token's entry holds exactly the markets some text of which has it |
| Lexical.BlockFor | pmarb/matching/matcher.py:159-162 | the block is the markets sharing a token that is not too common |
| Lexical.BestWithCut | pmarb/matching/matcher.py:169-177 | skipping on the Jaccard cut gives the same best score and text whenever the threshold is reached, and never a better one |
| Lexical.CutIsSafe | pmarb/matching/matcher.py:151-154 | a pair below the cut cannot reach the threshold |
| Lexical.Match | pmarb/matching/matcher.py:107-185 | the result is exactly the pairs sharing a rare token that score in full at least the threshold, each once, best rounded score first |
| LexicalLaws.RoundingBlursTheOrder | pmarb/matching/matcher.py:178-185 | a hit listed before another falls short of it by at most a ten-thousandth, and only where the two round alike |
| LexicalLaws.BestIsFirstGreatest | pmarb/matching/matcher.py:166-177 | the text kept is the first of the greatest score |
| LexicalLaws.BlockingLosesNothing | pmarb/matching/matcher.py:107-185 | above one half with no common token, the result is the full cross product's |
| LexicalLaws.PassedOverOnlyWhenCommon | pmarb/matching/matcher.py:149-162 | a scoring pair that shares words is passed over only if every shared word is too common |
| LexicalLaws.DeltaIsNotSymmetric | pmarb/matching/matcher.py:63-66 | the distance in days is symmetric exactly for whole days |
| Latency.LatencyHistogram.Observe | pmarb/latency.py:41-48 | one more observation, a negative one as zero, in its bucket, count and maximum |
| Latency.LatencyHistogram.Percentile | pmarb/latency.py:50-68 | the loop returns the edge of the first bucket that reaches the rank, or the maximum |
| LatencyLaws.IndexMeans | pmarb/latency.py:79-89 | a duration is at most its bucket's edge and above the one before, the last and first buckets aside |
| LatencyLaws.QuantileIsUnique | pmarb/latency.py:50-57 | the nearest-rank quantile is one value |
| LatencyLaws.StopsAtTheQuantile | pmarb/latency.py:57-60 | the walk stops in the bucket of the exact nearest-rank quantile |
| LatencyLaws.PercentileIsACeiling | pmarb/latency.py:50-68 | the report is at least the quantile, at most the maximum, and within ten percent between floor and last bucket |
| LatencyLaws.EveryPercentileIsACeiling | pmarb/latency.py:50-68 | for 0 < q <= 1 and any observations the quantile exists and is so bounded |
| LatencyLaws.CountsAddUp | pmarb/latency.py:36-46 | the bucket counts add up to the count |
| KalshiAsks.AsksMean | pmarb/feeds/kalshi.py:329-337 | asks are the complements of the bids, none lost, cheapest first, the best from the best bid |
| KalshiReader.Stream.Receive | pmarb/feeds/kalshi.py:568-621 | one frame updates ladders, sequence number, pruned set and pending reply as the specification says |
| KalshiReader.Stream.Want | pmarb/feeds/kalshi.py:718-732 | a resync records the desired tickers and those to forget before anything is sent |
| KalshiFeed.MoveKeepsVenue | pmarb/feeds/kalshi.py:604-614 | a level change keeps the log's invariants: numbered without a gap, each numbered frame stepping the venue's books from the one before |
| KalshiSafety.InvAlways | pmarb/feeds/kalshi.py:524-761 | the invariants of log, reader and mutation hold in every state of every run |
| KalshiSafety.YieldedBooksAreTrue | pmarb/feeds/kalshi.py:568-621 | every book yielded in any run is for a desired ticker, with no numbered frame missing before it, and is the venue's own at that number unless the ticker is in doubt after a falsely confirmed delete |
| KalshiSafety.LossIsNoticed | pmarb/feeds/kalshi.py:580-584 | a numbered frame breaks the connection exactly when one before it was lost, and after a loss nothing is yielded |
| KalshiSafety.SettledMeansSubscribed | pmarb/feeds/kalshi.py:644-761 | whenever no mutation is in flight on a live connection the venue's set is the desired set moved by the drift of its answers, so equal to it if and only if they leave none |
| KalshiSafety.HonestAnswersDoNotDrift | pmarb/feeds/kalshi.py:683-697 | while no ok without an echo leaves a ticker unapplied there is no drift |
| KalshiSafety.FirstBluffDrifts | pmarb/feeds/kalshi.py:683-697 | the first ok of a connection that leaves a ticker unapplied without an echo always drifts |
| KalshiSafety.ResumeMeans | pmarb/feeds/kalshi.py:644-697 | the connection survives a reply if and only if it is ok, under the command's own id, and does not echo a membership that contradicts the change; then the venue's set is the desired one but for the drift, and otherwise the desired set is kept for the next connection |
| KalshiWitness.BareOkIsBelieved | pmarb/feeds/kalshi.py:685-687 | a run that settles, live, on a subscription that lacks the desired ticker |
| KalshiWitness.BluffMayCancel | pmarb/feeds/kalshi.py:685-687 | a run with such an ok that ends on the right subscription all the same |
| KalshiWitness.DoubtfulBookIsFalse | pmarb/feeds/kalshi.py:604-621 | a run in which a ticker in doubt is yielded with a book the venue does not have |
| KalshiSafety.DesiredSetIsKept | pmarb/feeds/kalshi.py:718-732 | only a resync changes the desired set, and every connection starts from it |
| KalshiSafety.FirstLossGoesUnnoticed | pmarb/feeds/kalshi.py:580-584 | were the first frame lost, a delta would be yielded on an empty book |
| PolyShard.ShardState.SendSubscribe | pmarb/feeds/polymarket.py:797-812 | one batch under a fresh request id, recorded only if the send succeeds |
| PolyShard.ShardState.SendUnsubscribe | pmarb/feeds/polymarket.py:814-834 | true only on the venue's confirmation |
| PolyShard.ShardState.PruneShard | pmarb/feeds/polymarket.py:939-968 | stale batches are forgotten, torn down and their survivors resubscribed, up to the first failure |
| PolyShard.ShardState.Connect | pmarb/feeds/polymarket.py:698-717 | a connection clears its batches and subscribes the desired set in batches |
| PolyShardLaws.SubscribeKeepsPartial | pmarb/feeds/polymarket.py:797-812 | a subscribe moves slugs into a batch of its own under an id no earlier batch has |
| PolyShardLaws.MintedIsNew | pmarb/feeds/polymarket.py:483-487 | a minted request id differs from that of every batch the shard or the venue holds |
| PolyShardLaws.LoadWithinMeta | pmarb/feeds/polymarket.py:575-588 | what the venue holds, what the connection's own loop has still to send and what a resync has still to send never exceed the desired set together |
| PolyShardLaws.ConnectSettles | pmarb/feeds/polymarket.py:698-717 | a connection neither cut nor refused is settled: batches partition the set, match the venue, and respect both limits |
| PolyShardLaws.ConfirmedPruneSettles | pmarb/feeds/polymarket.py:939-968 | a confirmed prune of a settled shard leaves it settled, holding exactly the slugs still wanted |
| PolyShardLaws.PruneLeavesDeadSlugs | pmarb/feeds/polymarket.py:939-968 | a prune of a settled shard leaves no dead slug if and only if every stale batch but the last is confirmed torn down and its survivors' subscribe is not cut off |
| PolyShardLaws.PruneRemoves | pmarb/feeds/polymarket.py:948-968 | for any shard, pruning removes exactly the unwanted slugs of the batches visited, whose number is read off the counter and the network's answers |
| PolyShardLaws.ThroughPruneIsExact | pmarb/feeds/polymarket.py:948-968 | for any shard, a prune that gets through leaves no dead slug if and only if each lay in some batch |
| PolyFeed.Feed.Resync | pmarb/feeds/polymarket.py:838-937 | over shard objects, the loops compute the resync: prune, place by room, start new shards, watch for errors, recycle |
| PolyFeed.Feed.AddAll | pmarb/feeds/polymarket.py:884-903 | new slugs go to healthy shards up to their room, in order |
| PolyFeed.Feed.SpawnShards | pmarb/feeds/polymarket.py:905-914 | the overflow starts shards within the cap under new indices |
| PolyFeedLaws.ResyncKeepsFeed | pmarb/feeds/polymarket.py:838-937 | whatever the venue answers: no connection ever passes the cap, no slug is on two shards, every desired slug is placed or reported, and nothing new is undesired |
| PolyFeedLaws.ReconnectKeepsFeed | pmarb/feeds/polymarket.py:698-760 | a drop or a reconnect between resyncs keeps that too |
| PolyFeedLaws.LiveMeansCovered | pmarb/feeds/polymarket.py:838-937 | from a settled feed, whatever the venue answered, a resync reported live ends with disjoint shards whose union is exactly the desired slugs, and an old shard is settled if and only if none of its subscribes was refused |
| PolyFeedLaws.SettledExactlyWhenAccepted | pmarb/feeds/polymarket.py:918-930 | the same for one shard whose prune and adds went through |
| PolyFeedLaws.LiveCoversExactlyWhenBatched | pmarb/feeds/polymarket.py:838-937 | from any sound feed, a resync reported live covers exactly the desired slugs if and only if each slug to drop lay in a batch, as all do when every shard is connected and done subscribing |
| PolyFeedLaws.EarlyRefusalGoesUnnoticed | pmarb/feeds/polymarket.py:918-930 | an error frame before the grace period is not noticed and the resync reports live |
| PolyCap.RunsKeepTheCap | pmarb/feeds/polymarket.py:590-937 | in every state of every run from the initial shards, with drops and reconnects between any two sends, until a crash strands a failed shard: no connection was ever asked to hold more than the cap, no slug is on two shards, and between resyncs every shard is sound |
| PolyCap.RunsStayApart | pmarb/feeds/polymarket.py:838-937 | in every run at all the desired sets are duplicate-free, within the cap and disjoint |
| PolyRunLaws.NoRequestIdTwice | pmarb/feeds/polymarket.py:483-487 | in no run do two subscribes ever go out under the same rendered id, on one shard or on two |
| PolyRunLaws.RunsPlaceTheDesired | pmarb/feeds/polymarket.py:884-916 | when a resync closes, whatever happened meanwhile, each desired slug is on a shard or reported, not both, and nothing undesired is new |
| PolyWhole.ResyncIsARun | pmarb/feeds/polymarket.py:838-937 | the resync in one step is the run in which nothing drops or connects meanwhile, live exactly when every shard is judged healthy |
| PolyWhole.ConnectIsARun | pmarb/feeds/polymarket.py:698-717 | a connection subscribing its desired set in one step is its opening and its loop's sends |
| PolyCrash.AddsKeepTheCapExactly | pmarb/feeds/polymarket.py:886-903 | adding slugs to a connected shard keeps the cap whatever the network does if and only if they fit beside what the venue really holds; filling it does if and only if the venue holds no more than the shard has desired |
| PolyCrash.AddingKeepsTheCapExactly | pmarb/feeds/polymarket.py:884-903 | placing new slugs over all shards keeps the cap for every list and every network if and only if no healthy connection with room is held for more than its shard has desired |
| PolyCrash.StrandedShardPassesTheCap | pmarb/feeds/polymarket.py:807-812 | a run in which a send without a socket ends a resync before a failed, full shard is recycled, and the next resync asks that connection for one slug past the cap |
| PolyCrash.UnconnectedShardKeepsDead | pmarb/feeds/polymarket.py:948-958 | a shard not yet connected keeps a dropped slug through a resync reported live, and subscribes it |
| RequestIds.RenderIsInjective | pmarb/feeds/polymarket.py:483-487 | different request ids never render alike |
| RequestIds.PrefixIsExact | pmarb/feeds/polymarket.py:782-795 | failing a shard's pending requests by prefix touches that shard's alone |

## Left out

- WebSocket, REST, signing, credentials, JSON parsing, sleeps, backoff and task scheduling: message-level steps only, with timeouts and closes as events that may happen at any time.
- Text and regex work (names, titles, tickers, tokenizing, accent folding, the sequence matcher): tables of tokens, ratios and likeness stand for it.
- Futures, props and structured moneyline matchers, and settlement hazards: they repeat the one-to-one and tie-refusing shapes of the line matcher and the reduction.
- SQL, migrations, partitions, the API, the JSONL sinks and the writer thread with its queue: the tables are maps and the log is a list of rows.
- Report assembly, printing, the latency summaries and the shell scripts: reporting and operations.
- Floating-point error and the 1e-9 margins: exact arithmetic, where a margin is equality; the reduction takes scores as already rounded to four places.
- A price outside [0, 1] inside a walk, which raises in the code: a ladder's prices are ticks from 0 to 10000.
- Iteration order of dictionaries and sets where it does not reach a result: the lexical matcher's block and the refresh's dictionaries are walked in any order.
- Survival.SurvivalCurve: does not model the latency summary of the same file, which is reporting.
- CollectorState.Collector.Record: leaves out the JSONL event log, detection latency and resolution dates, which the policy never reads.
- CollectorState.Collector.Apply: the prune of the keyed snapshot file is modelled as a map.
- KalshiSafety.YieldedBooksAreTrue: the desired set is read and subscribed in one step, so a resync that lands between the two, before the subscription id is known, is not covered.
- KalshiReader.Stream.Receive: the metadata attached to a yielded book and its normalization are left out; `AsksMean` covers the ladders.
- PolyFeedLaws.ResyncKeepsFeed: a shard started by the resync connects afterwards; `PolyRuns` lets it connect, and report errors, before the resync closes.
- PolyFeed.Feed.Resync: one uninterrupted call; its interleavings with drops, reconnects and other connections' sends are the runs of `PolyRuns`.
- PolyWhole.ConnectIsARun: a resync that recycles a shard while that connection is still subscribing makes the connection's own next send fail on a missing socket, which ends the stream in the code; the runs go on with the shard down.
- Refresher.RefreshOnce: one uninterrupted cycle up to the rewrite; the machine covers evaluations in between, and the two venues' resyncs are the subject of the feed modules.
- Lines.Match: candidate metadata other than ids, score, orientation and start distance is left out of the result.
- Lexical.Match: candidate metadata other than positions, score, text and date distance is left out of the result.
- DbSync.Database.UpsertMarkets: the structured records are kept as text, not as JSON.
