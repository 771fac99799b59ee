# A verified model of the trading desktop's backend

The application is a desktop host (Rust) that supervises a Python backend: a sidecar with the history cache and
option analytics, and worker processes that hold broker connections. This project models the parts of it whose
correctness depends on order, time or interleaving, and proves what they keep. One module per component; `dafny
verify dfyconfig.toml` checks them all.

- `WatchlistData`, `WatchlistWorker`, `WatchlistRuns`: the quote worker. Its closures over shared state are a class
  whose methods say what becomes of each symbol; its coroutines are a step system with one step per stretch between
  two awaits.
- `SingleFlight`: the per-key lock dictionary around HTTP fetches, for any number of threads.
- `ChartIntents`: the eagerly pruned table of recently viewed charts, against its touch history.
- `Bars`, `BarAggregation`, `BarRuns`: the three ways the application builds larger bars, and how they relate.
- `HistoryPagination`, `HistoricalCache`: walking back through broker history, source precedence, the daily view.
- `ClientLeases`: leasing of broker client ids between processes, and the two connect loops that use it.
- `Supervisor`: spawn, kill, restart, shutdown, and the sidecar watchdog.
- `StrategyEvaluator`, `PercentCodec`, `SlotAllocator`, `RoundRobin`, `Bisection`: the remaining algorithms.

## What turned out not to hold, and the exact condition

- The quote worker can lose a watched symbol silently. `WatchlistRuns.StepLosesExactly` names the three steps that do
  it, and in the model there are no others: a refresh that resumes after its await and cancels, as removed, a symbol
  the other refresh has made tracked again; a late tick that overwrites a reported error with "live"; and the end of
  the whole worker, when a connection comes back whose shard slot was torn down meanwhile. Runs without such a step
  never lose a symbol (`RunsLoseExactly`). All three happen in runs from the start (`OverlappingRefreshLoses`,
  `LateTickLoses`, `CrashHappens`). A reconnect of the primary connection repairs the first two (`ReconnectHeals`).
- A subscription can outlive its connection. The reconnect loop queues the symbols of a shard that is back, so dead
  subscriptions stay confined to connections that are down or just coming back (`WatchlistRuns.StepFreshExactly`,
  `SubscriptionsAreFresh`), with one exception, which happens in a run from the start (`RevivalHappens`): the refresher
  that made a shard is still connecting it when the reconnect loop has already brought it up; if it drops again after
  symbols were subscribed on it and the refresher brings it back, nobody renews them.
- The streaming bar roll equals the clock aggregate if and only if every bar that re-enters a bucket forgets nothing:
  it opens where the bucket opened, spans its range, and the bucket has no volume yet
  (`BarAggregation.StreamingMatchesIffHarmless`). For bars that traded, that means no bucket is ever re-entered
  (`StreamingMatchesIffNoReturn`); a series in time order never re-enters one.
- Run grouping equals the clock aggregate on a strictly increasing series if and only if the runs start where the
  buckets start, whatever the gaps (`BarRuns.RunsEqualClockIffSameStarts`); on gap-free input that means that the
  first bar starts a bucket (`RunsEqualClockIffAligned`). With equal times it fails (`EqualTimesDisagree`).
- Paginated history is complete if and only if no wanted bar lies below a hole wider than one chunk and one second
  (`HistoryPagination.PaginationExactIffNoWideHole`).
- The daily read shows a stored day if and only if the day's last row is at or after the cutoff, which for rows the
  application writes means that the day begins there; the day that contains the cutoff shows the fold of its later
  minutes instead (`HistoricalCache.StoredDayShown`, `ShownAfterWrites`).
- Percent encoding round-trips bytes always, but text if and only if it is ASCII, because the decoder reads the
  bytes of a longer UTF-8 sequence one by one (`PercentCodec.TextRoundTripIffAscii`).
- The supervisor's invariants hold when its operations do not overlap (`Supervisor.ReachableSound`). A spawn takes up
  to 90 s and holds no lock, so another thread may shut the app down, kill the stack, restart it, spawn it or report a
  probe meanwhile. `InterruptedSoundIff` says, for each such operation at each point of the spawn, exactly when the end
  is sound. Many combinations are not: for instance a kill between "sidecar ready" and the start of the workers leaves
  two workers without a sidecar, marked healthy, and no poll ever touches that again (`KilledDuringSpawnSticks`);
  `RaceLeaves` says what is left in each case. In the same way a kill or a failed restart while a successful probe is
  in flight, the first one or the confirming one, leaves an empty stack marked healthy for all later polls
  (`ReportSoundIffStillPresent`, `KilledDuringProbeSticks`). Two operations that overlap step by step, and more than
  one interruption, are not classified.
- BUY and SELL markers alternate in signal mode always. In score mode they do, for every choice of `n` conditions, if
  and only if no attainable score lies strictly between the thresholds (`StrategyEvaluator.AlternatesIffDecisive`),
  as long as judging does not lapse after the warm-up; with the default thresholds that is for `n <= 1` only. When
  judging may lapse, only strategies that cannot take a side at all keep its markers alternating
  (`AlternatesAnywayIff`).

## Model

| member | source | states |
|---|---|---|
| `WatchlistRuns.StepLosesExactly` | backend/worker_watchlist.py:1558-1764 | from a state with the worker alive and each tracked symbol subscribed, queued, failed or about to be queued, a step breaks that if and only if it is one of the three losing steps |
| `WatchlistRuns.RunsLoseExactly` | backend/worker_watchlist.py:1558-1764 | for every run: no state has a lost symbol if and only if no step is a losing one |
| `WatchlistRuns.ReachableStates` | backend/worker_watchlist.py:1200-1328 | every reachable state has the structural invariants, and, between rounds with the primary in sync, no losing step having occurred, each tracked symbol is subscribed, in the queue or failed |
| `WatchlistRuns.StepKeepsSound` | backend/worker_watchlist.py:1280-1328 | each step keeps: queued flags within the queue, equal key sets of tickers, contracts and shard map, shard numbers in range, 1 to 3 shards with as many client ids, at most 25 realtime subscriptions |
| `WatchlistRuns.RunKeepsSound` | backend/worker_watchlist.py:1667-1716 | the same for whole runs, whatever shards grow, shrink, connect or drop meanwhile |
| `WatchlistRuns.ReconnectHeals` | backend/worker_watchlist.py:2044-2066 | when the primary is back nothing is lost, every tracked symbol is about to be queued, and the queueing step serves them all |
| `WatchlistRuns.RequeueServes` | backend/worker_watchlist.py:2063-2066 | whatever happened during the await, the queueing step serves every symbol that was waiting for it |
| `WatchlistRuns.SecondaryRequeues` | backend/worker_watchlist.py:2067-2072 | when a secondary shard is back, every symbol on it has lost its subscription and waits in the queue; all others keep subscription and shard, the queue keeps its entries, the new client id is stored, and nothing else changes |
| `WatchlistRuns.StepFreshExactly` | backend/worker_watchlist.py:2026-2072 | dead subscriptions stay confined to connections that are down or just coming back, if and only if the step is not one in which a refresher revives a connection that dropped while it was still connecting it |
| `WatchlistRuns.SubscriptionsAreFresh` | backend/worker_watchlist.py:2026-2072 | in every run from the start without such a step: a symbol on a connection that is up, and not just coming back, was subscribed since the connection last came up |
| `WatchlistRuns.RevivalHappens` | backend/worker_watchlist.py:1682-1700 | a run from the start with such a step: the symbol keeps a dead subscription on a connection that is up, and nobody queues it |
| `WatchlistRuns.StepKeepsNoLeak` | backend/worker_watchlist.py:1623-1764 | each step keeps: every subscription is for a tracked symbol or one a refresher is about to drop; every realtime subscription for an active one or likewise |
| `WatchlistRuns.NothingLeaks` | backend/worker_watchlist.py:1623-1764 | after every run from the start: once the refreshers have dropped what they noticed, only tracked symbols are subscribed, and only active ones have realtime bars |
| `WatchlistRuns.ReadsNotice` | backend/worker_watchlist.py:1633-1641 | a read of another list is taken over with exactly the symbols it adds and removes, realtime ones included; a read of the same list changes nothing |
| `WatchlistRuns.AdjustGoesOn` | backend/worker_watchlist.py:1667-1716 | a refresher asks for a shard while there are too few and ids are left, then tears one down while there are too many, and only then queues the added symbols |
| `WatchlistRuns.LoopsWait` | backend/worker_watchlist.py:1558-1566 | nothing is subscribed while every connection is down, only a connection that is down is visited, only one being made comes up, and a worker that has ended does nothing |
| `WatchlistRuns.ConnectOutcome` | backend/worker_watchlist.py:1687-1699 | a new shard that is up gets its client id unless its slot is gone, which ends the growing; one that is down stays |
| `WatchlistRuns.QueueAddedOutcome` | backend/worker_watchlist.py:1656-1663 | every added symbol is reported as queued, and is subscribed or in the queue if the connection asked about is up; realtime symbols likewise; else the queue stays |
| `WatchlistRuns.TicksReport` | backend/worker_watchlist.py:1486-1506 | a tick reports live, or waiting without a price while subscribed; a failed reconnect ends the visit; nothing else changes |
| `WatchlistData.DesiredInRange` | backend/worker_watchlist.py:1669-1672 | the fewest shards of at most 20 symbols each, up to three |
| `WatchlistData.DedupeIsDistinct` | backend/worker_watchlist.py:1244-1245 | each symbol once, in the order of first occurrence |
| `WatchlistData.NeighboursSpread` | backend/worker_watchlist.py:1253-1266 | any as many neighbours of the watchlist as there are shards, none with a shard yet, go to different shards |
| `WatchlistRuns.QueueDrains` | backend/worker_watchlist.py:1558-1621 | after as many turns as entries, plus one for each rate-limited answer, the queue is empty and every served symbol is subscribed or failed |
| `WatchlistRuns.OverlappingRefreshLoses` | backend/worker_watchlist.py:1638-1650 | a run from the start: a symbol moved from watchlist to chart while both refreshes wait for their threads ends tracked with no subscription, queue entry or error |
| `WatchlistRuns.LateTickLoses` | backend/worker_watchlist.py:1486-1506 | a run from the start: after a reconnect the symbol is refused, and a late tick of its old subscription replaces the error by live |
| `WatchlistRuns.CrashHappens` | backend/worker_watchlist.py:2037-2043 | a run from the start, for every watchlist of more than 20 symbols: its second shard is torn down while the reconnect loop is connecting it, and the worker ends |
| `WatchlistWorker.WorkerLoop.QueueQuote` | backend/worker_watchlist.py:1280-1292 | the symbol is served afterwards, nobody loses, and one entry joins the queue unless it is subscribed or waiting; keeps the structural invariants |
| `WatchlistWorker.WorkerLoop.QueueRealtime` | backend/worker_watchlist.py:1280-1292 | the symbol is subscribed or waiting for realtime bars afterwards; no quote is affected; keeps the invariants |
| `WatchlistWorker.WorkerLoop.CancelQuoteSubscription` | backend/worker_watchlist.py:1294-1303 | nothing is left of the symbol but a stale queue entry; everyone else is served as before; keeps the invariants |
| `WatchlistWorker.WorkerLoop.CancelRealtimeSubscription` | backend/worker_watchlist.py:1305-1319 | no realtime subscription or flag is left; no quote is affected; keeps the invariants |
| `WatchlistWorker.WorkerLoop.SubscribeQuote` | backend/worker_watchlist.py:1406-1424 | the subscription goes to a connected shard whenever there is one, and stays on its own if that one is connected |
| `WatchlistWorker.WorkerLoop.PopQuote` | backend/worker_watchlist.py:1571-1591 | whatever TWS answers, a tracked symbol ends subscribed, queued again or failed, and nobody else is affected; restores the invariants |
| `WatchlistWorker.WorkerLoop.PopRealtime` | backend/worker_watchlist.py:1592-1619 | subscribed afterwards iff it was, or is wanted, accepted and below the cap of 25; no quote is affected |
| `WatchlistWorker.WorkerLoop.PopSubscription` | backend/worker_watchlist.py:1558-1621 | every tracked symbol that was served still is, and the entry is gone unless it was rate limited |
| `WatchlistWorker.WorkerLoop.DropAfterRefresh` | backend/worker_watchlist.py:1737-1744 | exactly the removed symbols lose what served them, tracked again or not |
| `WatchlistWorker.WorkerLoop.QueueAfterWatchlistRefresh` | backend/worker_watchlist.py:1656-1663 | with some shard connected every added symbol is served and nobody loses |
| `WatchlistWorker.WorkerLoop.QueueAfterActiveRefresh` | backend/worker_watchlist.py:1748-1756 | with the primary shard connected every added symbol is served and nobody loses |
| `WatchlistWorker.WorkerLoop.RemoveLastShard` | backend/worker_watchlist.py:1701-1716 | the symbols of the last shard wait in the queue, nobody loses, and no symbol is left on a shard that is gone |
| `WatchlistWorker.WorkerLoop.Requeue` | backend/worker_watchlist.py:2067-2072 | cancels and requeues the symbols of a shard that is back |
| `WatchlistWorker.WorkerLoop.ClearAfterReconnect` | backend/worker_watchlist.py:2044-2060 | nothing is left but reported errors, and the symbols taken down to queue again are exactly the tracked ones |
| `WatchlistWorker.WorkerLoop.QueueAfterReconnect` | backend/worker_watchlist.py:2063-2066 | all the symbols taken down before the await are served and nobody loses |
| `SingleFlight.FetchesBounded` | backend/dailyiq_provider.py:155-230 | for every interleaving: concurrent requests for a key are at most 1 + failures, requests ever sent at most 1 + 2 · failures |
| `SingleFlight.SingleFlightUntilFailure` | backend/dailyiq_provider.py:167-184 | while none has failed, at most one request is ever sent per key |
| `SingleFlight.NoFetchOnceCached` | backend/dailyiq_provider.py:173-184 | once cached, no continuation sends another request |
| `SingleFlight.CachedCallReturns` | backend/dailyiq_provider.py:155-164 | a call for a cached key returns without a lock and changes nothing else |
| `SingleFlight.SomeCallCanMove` | backend/dailyiq_provider.py:167-230 | no deadlock: while a call has not returned, some call can act |
| `SingleFlight.BoundsAreTight` | backend/dailyiq_provider.py:228-230 | both bounds are reached for every number n of failures: some run has n failures, n + 1 requests in progress and 2n + 1 sent, since the entry is popped before the lock is released |
| `SingleFlight.RunKeepsInv` | backend/dailyiq_provider.py:155-230 | in every run locks, holders, pops and requests agree; every lock beyond the first was paid for by a failure |
| `ChartIntents.ChartIntentsRefineHistory` | backend/historical.py:624-776 | after any touches, prunes and reads with default limits, the table is exactly the 6 most recently touched keys within the TTL at the last operation, ranked 1..n by time descending, key ascending |
| `ChartIntents.EagerMatchesLazy` | backend/historical.py:644-674 | pruning what was already pruned keeps exactly what pruning the full history keeps |
| `ChartIntents.MissingIsBehindSix` | backend/historical.py:655-671 | a fresh key missing from the table has six kept keys ahead of it, and they stay ahead |
| `ChartIntents.RanksAreDense` | backend/historical.py:624-641 | ranks are exactly 1..n |
| `ChartIntents.AheadTotal` | backend/historical.py:656-661 | the ORDER BY is a strict total order on keys |
| `ChartIntents.ChartIntents.RecomputePriority` | backend/historical.py:624-641 | each row's rank is 1 + the number of rows ahead of it |
| `ChartIntents.ChartIntents.DeleteOverflow` | backend/historical.py:655-671 | keeps exactly the rows with fewer than `max_rows` ahead |
| `ChartIntents.ChartIntents.PruneInTransaction` | backend/historical.py:644-674 | expired rows go, then the overflow, the rest is ranked; returns how many went |
| `ChartIntents.ChartIntents.Touch` | backend/historical.py:677-707 | upserts the key, keeping its last-served time, then prunes; the rows that stay keep both their times |
| `ChartIntents.ChartIntents.Prune` | backend/historical.py:710-722 | prunes with the caller's limits: no expired row stays, without a cap no other goes, with a cap of zero all go, and the rows that stay keep both their times |
| `ChartIntents.ChartIntents.ReadFresh` | backend/historical.py:725-776 | returns the first `limit` rows by rank after pruning; exactly the returned rows carry the time of the read as last served |
| `BarAggregation.AggregateClock` | backend/main.py:1591-1604 | the method's result lists the bucket table in time order |
| `BarAggregation.BucketMeaning` | backend/main.py:1591-1604 | a bucket exists iff a bar falls in it, and is first open, highest high, lowest low, last close and total volume of those bars |
| `Bars.EnvelopeIsTight` | backend/main.py:1598-1602 | the highest high and the lowest low are reached and not passed |
| `BarAggregation.RealtimeRoller.RollBar` | backend/worker_watchlist.py:1335-1351 | if the open aggregate sums up some bars of the bucket, the result sums up those and the new one; else it sums up the new one alone |
| `BarAggregation.RealtimeRoller.OnRealtimeBar` | backend/worker_watchlist.py:1353-1374 | one 5-second bar goes into the 5s, 1m, 5m and 15m tables |
| `BarAggregation.StreamingRefinesBatch` | backend/worker_watchlist.py:1335-1376 | after every bar of a stream whose returns are harmless, the upserted table is the old table overlaid with the clock aggregate of the stream so far |
| `BarAggregation.StreamingMatchesIffHarmless` | backend/worker_watchlist.py:1335-1376 | table equals clock aggregate after every prefix if and only if every return to a bucket forgets nothing |
| `BarAggregation.InOrderNeverReturns` | backend/worker_watchlist.py:1353-1374 | a time-ordered stream never returns to a bucket |
| `BarAggregation.StreamingMatchesIffNoReturn` | backend/historical.py:1205-1215 | for positive volumes: table equals clock aggregate after every prefix if and only if no bucket is returned to |
| `BarAggregation.AggregateInOrder` | backend/main.py:1591-1604 | on ordered input the dictionary's sorted values are what one left-to-right pass builds |
| `BarAggregation.AggregationComposes` | backend/main.py:1591-1604 | for ordered bars, aggregating to p and then to k·p equals aggregating to k·p |
| `BarAggregation.CompositionNeedsOrder` | backend/main.py:1591-1604 | for two bars of one coarse bucket, listed later first and opening differently, it does not |
| `BarRuns.GroupRuns` | backend/dailyiq_provider.py:645-686 | the flush loop yields one summary per run of the split |
| `BarRuns.AggregateFromLower` | backend/dailyiq_provider.py:645-686 | a ratio of at most one returns the bars unchanged, any other the run summaries |
| `BarRuns.RollupIntraday` | backend/historical.py:208-265 | sizes that do not divide return the bars unchanged, others the run summaries of the sorted bars |
| `BarRuns.RunsSplit` | backend/dailyiq_provider.py:645-686 | the runs concatenate to the input, have 1 to k bars with inner gaps in (0, 2·step], and end only when full or at a gap |
| `BarRuns.SplitUnique` | backend/historical.py:236-265 | that split is the only one: runs are maximal |
| `BarRuns.RollupsAgree` | backend/historical.py:208-265 | on ordered input the two rollups group alike |
| `BarRuns.SortSorts` | backend/historical.py:235 | the sort orders the bars and keeps them as a multiset |
| `BarRuns.SortIsStable` | backend/historical.py:235 | bars of equal time keep their order |
| `BarRuns.RollupConserves` | backend/historical.py:240-251 | total volume, high and low envelope, first open, last close and start are conserved |
| `BarRuns.RunsEqualClockIffSameStarts` | backend/historical.py:208-265 | on any strictly increasing series, gaps included, and for any bucket width: equal to the clock aggregate iff the runs start where the buckets start |
| `BarRuns.EqualTimesDisagree` | backend/historical.py:254-262 | with two bars at one bucket start the rows start alike and still differ |
| `BarRuns.RunsEqualClockIffAligned` | backend/historical.py:208-265 | on gap-free input, equal to the clock aggregate iff the first bar starts a bucket |
| `BarRuns.RollupIsClock` | backend/historical.py:208-265 | each named rollup (1m, 5m, 15m, 1h, 4h) is what its name says: from aligned gap-free bars it makes the clock aggregate of that many milliseconds |
| `HistoryPagination.DedupeBars` | backend/historical.py:319-325 | the last bar of each time, in time order |
| `HistoryPagination.Walk` | backend/historical.py:1364-1383 | whatever the broker answers, the requests form one complete walk, at most one more than there are start times |
| `HistoryPagination.FetchPaginated` | backend/historical.py:1332-1385 | the result is the deduplicated walk at or after the cutoff |
| `Bars.FromMeaning` | backend/historical.py:1385 | the cutoff keeps exactly the bars at or after it |
| `HistoryPagination.WalkUnique` | backend/historical.py:1364-1383 | the broker's answers determine the walk, hence the result |
| `HistoryPagination.StartsFit` | backend/historical.py:1380-1382 | `seen_earliest` grows with each request, which bounds the walk |
| `HistoryPagination.EndIsWholeSecond` | backend/historical.py:1383 | the next request ends at the latest whole second at least one second before the earliest bar, never before 1970 |
| `HistoryPagination.WalkCollects` | backend/historical.py:1364-1383 | an unfinished walk holds exactly the newest part of an honest broker's series |
| `HistoryPagination.PaginationExactIffNoWideHole` | backend/historical.py:1332-1385 | the result is exactly the series at or after the cutoff iff no wanted bar lies below a wide hole; it is strictly increasing in any case |
| `HistoricalCache.ShownAfterWrites` | backend/historical.py:818-1262 | end to end, after any write calls from empty tables: each daily row is the last TWS row of its day or else the first row written, and the read shows it iff the day begins at or after the cutoff |
| `HistoricalCache.PrecedenceHolds` | backend/historical.py:1205-1262 | after any rows written into one table, a stored row is the last TWS row of its time, or else the first row |
| `HistoricalCache.AllWrittenStored` | backend/historical.py:1152-1262 | a run of calls leaves in each table what its rows, call after call, leave |
| `HistoricalCache.AllWrittenKeeps` | backend/historical.py:1184-1188 | after any calls every row is under its own time and every daily row at midnight |
| `HistoricalCache.HistoryStore.WriteBars` | backend/historical.py:1152-1262 | one call writes its rows one by one with that precedence, keeps rows under their times, and daily rows at midnight if they were |
| `HistoricalCache.HistoryStore.ReadDaily` | backend/historical.py:818-853 | the daily read lists the daily view |
| `HistoricalCache.HistoryStore.FillGapsFromMinutes` | backend/historical.py:856-910 | merges native days with folded minutes of the other days, in time order |
| `HistoricalCache.DailyViewMeaning` | backend/historical.py:844-910 | a day with native rows in range shows the last of them unchanged; another shows the fold of its minutes in range; else it is absent |
| `HistoricalCache.DailyReadOrdered` | backend/historical.py:844-910 | the read is strictly increasing, one bar per UTC day, each at midnight |
| `HistoricalCache.StoredDayShown` | backend/historical.py:820-853 | for any table, rows stored within the day included: a stored day is shown, by its last row, iff that row is at or after the cutoff; otherwise its later minutes are folded |
| `ClientLeases.LeaseSafety` | backend/ibkr_utils.py:89-134 | in every multi-process run, grants of one id to two owners are separated by a release of the first owner, or by a full TTL since its last grant, with nothing of that owner in between |
| `ClientLeases.GrantStands` | backend/ibkr_utils.py:103-134 | a granted row stays as written until released, renewed or expired, whatever others do |
| `ClientLeases.RefusedIffBlocked` | backend/ibkr_utils.py:103-134 | a claim is refused if and only if some other owner was granted the id less than 60 s before and has neither released it nor been granted it again since |
| `ClientLeases.GrantedIffSucceeds` | backend/ibkr_utils.py:103-134 | the table decides every claim of a run as the events and their times alone say |
| `ClientLeases.LeaseTable.TryClaim` | backend/ibkr_utils.py:103-134 | adds one claim to the run, reports exactly whether it was granted, which is what the events and their times say, and leaves the row of whoever holds the id |
| `ClientLeases.ClientIdManager.Acquire` | backend/ibkr_utils.py:73-87 | the result is the claim granted last in the run, never retired, and not below the first id, the preferred one, or the role's own; every such id passed over is retired or was claimed and refused |
| `ClientLeases.AcquiredIsGranted` | backend/ibkr_utils.py:79-87 | the granted claim is the last event of the run the call makes |
| `ClientLeases.EarlierRefused` | backend/ibkr_utils.py:79-87 | every earlier id that is not retired has a refused claim in that run; without a result, every id up to the end |
| `ClientLeases.ClientIdManager.Release` | backend/ibkr_utils.py:89-97 | no row of this owner is left for the id, and no role holds it |
| `ClientLeases.ClientIdManager.MarkRejected` | backend/ibkr_utils.py:99-101 | the id is retired, and no row of this owner and no role holds it |
| `ClientLeases.TryPorts` | backend/worker_watchlist.py:1170-1197 | an id's verdict is the first port answer that is not a plain failure |
| `ClientLeases.ConnectWithManager` | backend/worker_watchlist.py:1156-1197 | terminates; ids tried increase, each rejected one is tried once and retired; success iff the last one was accepted; it does not end early: every id before its end is retired or was refused during the call |
| `ClientLeases.RisingMeans` | backend/worker_watchlist.py:1187-1193 | the ids tried are strictly increasing and within the range |
| `ClientLeases.ConnectionPool.GetOrCreate` | backend/connection_pool.py:114-186 | a connected role keeps its id; else at most 10000 distinct ids are tried, exactly the rejected ones retired, and the role is connected iff the last was accepted; it gives up only on a plain failure, at that limit, or when every id left is retired or was refused; no connection of a failed id stays; other roles keep their ids, and connections under ids not tried stay |
| `ClientLeases.AllPassedMeans` | backend/ibkr_utils.py:79-87 | what "does not end early" says: each id of the stretch is retired or was refused since the call began |
| `Supervisor.ReachableSound` | src-tauri/src/main.rs:845-866 | in every reachable state sidecar, workers and port are all present or all absent, healthy implies present on the reported port, an empty stack is recoverable; once shutdown began the stack stays empty |
| `Supervisor.OperationsOutcome` | src-tauri/src/main.rs:845-866 | from every reachable state: what an automatic start, a start, a restart, a kill and a shutdown each leave |
| `Supervisor.EmptyStackRecovers` | src-tauri/src/main.rs:1644-1671 | from every reachable empty state one poll outside the backoff with a working start restores the whole stack |
| `Supervisor.RestartsSpaced` | src-tauri/src/main.rs:781-843 | two restart attempts of one watchdog start at least 60 s apart, whatever else happens; for the sidecar watchdog and for the worker watchdog, which may try twice in a pass |
| `Supervisor.HealthRestartsJustified` | src-tauri/src/main.rs:1548-1643 | each health-driven attempt follows at least 8 counted failed probes since the last success, then a dead process or a failed confirming probe |
| `Supervisor.PollAttemptsWhenDue` | src-tauri/src/main.rs:1505-1671 | from every reachable state a poll makes exactly the attempt that is due (empty stack, exited sidecar, eighth failure with the process dead or the confirming probe failed; none within 60 s of the last), and the stack is then replaced |
| `Supervisor.FailuresRestart` | src-tauri/src/main.rs:1548-1643 | a whole stack with n failures counted that fails 8 - n more probes is restarted in the last of these polls, and not before |
| `Supervisor.UnansweredIsRestarted` | src-tauri/src/main.rs:1548-1643 | from every reachable whole stack, eight unanswered polls in a row outside grace and backoff bring a restart |
| `Supervisor.PollReports` | src-tauri/src/main.rs:1548-1613 | an answer makes the stack healthy and starts the count over, a failure makes it unhealthy and is counted, and inside the grace period nothing changes |
| `Supervisor.GraceHolds` | src-tauri/src/main.rs:1560-1566 | after a restart for an exit or for failed probes has succeeded, failed probes in the next 90 s change nothing |
| `Supervisor.WorkerPassAttempts` | src-tauri/src/main.rs:1674-1727 | from every state, also after a race: one attempt for each stored worker that has exited, outside the backoff, the second one looked for in what the first restart left |
| `Supervisor.WorkerExitRestarts` | src-tauri/src/main.rs:1674-1727 | from every reachable whole stack, the exit of either worker outside the backoff replaces the stack |
| `Supervisor.SidecarState.StopBackendStack` | src-tauri/src/main.rs:858-866 | from any state the host is shutting down, empty and sound afterwards |
| `Supervisor.SidecarState.KillSidecar` | src-tauri/src/main.rs:1385-1391 | from any state the host is empty, sound and meets the watchdog's recovery test afterwards; the shutdown flag stays |
| `Supervisor.SidecarState.SpawnSidecar` | src-tauri/src/main.rs:1096-1159 | succeeds iff not shutting down and a port is there or a sidecar comes up; failure leaves everything as it was |
| `Supervisor.SidecarState.SpawnWorker` | src-tauri/src/main.rs:1219-1242 | keeps a stored worker, else stores one that starts |
| `Supervisor.SidecarState.SpawnValuationWorker` | src-tauri/src/main.rs:1244-1261 | the same for the valuation worker |
| `Supervisor.SidecarState.SpawnBackendStack` | src-tauri/src/main.rs:1263-1307 | all or nothing: from a sound state, present and healthy on the returned port iff not shutting down and the stack was there or all of it comes up; else empty; sound in any case |
| `Supervisor.SidecarState.RestartBackendStack` | src-tauri/src/main.rs:1309-1352 | unless shutting down: from any state, a whole healthy stack iff all of it comes up, else empty and failed; sound in any case |
| `Supervisor.StepsAddUp` | src-tauri/src/main.rs:1263-1307 | from any state the spawn broken into its steps is the atomic spawn, with or without the failure report of its caller |
| `Supervisor.UninterruptedIsSound` | src-tauri/src/main.rs:1263-1307 | from a sound state each point of a spawn has a known standing, and the end is sound |
| `Supervisor.InterruptedSoundIff` | src-tauri/src/main.rs:1096-1307 | wherever a thread stands in a spawn and whatever one operation another thread does there (shutdown, kill, restart, spawn, healthy report): the exact condition under which the spawn ends in a sound state |
| `Supervisor.RaceLeaves` | src-tauri/src/main.rs:1153-1156 | when it does not, and no shutdown was involved: a stack that no poll probes or recovers, or a whole stack reported on the wrong port |
| `Supervisor.KilledDuringSpawnSticks` | src-tauri/src/main.rs:1281-1289 | from the start: a kill after the sidecar became ready leaves workers without a sidecar, marked healthy, over any number of polls |
| `Supervisor.ShutdownDuringSpawn` | src-tauri/src/main.rs:1281-1289 | from any state: a shutdown during a spawn leaves an empty stack except exactly when a worker is still to be stored and starts |
| `Supervisor.ProbeThenReport` | src-tauri/src/main.rs:1548-1613 | a poll that sees success is its probe, first or confirming, followed by its report |
| `Supervisor.ReportSoundIffStillPresent` | src-tauri/src/main.rs:1548-1613 | from every reachable state, whatever is done during a successful probe, the first or the confirming one: the report leaves a sound state iff the probed stack is still there |
| `Supervisor.KilledDuringProbeSticks` | src-tauri/src/main.rs:1548-1613 | from every reachable state with a stack, a kill or failed restart during such a probe leaves it empty and marked healthy, and no later poll starts anything |
| `Supervisor.RaceHappens` | src-tauri/src/main.rs:1489-1490 | a first start leads to such a state |
| `StrategyEvaluator.EvaluateCustomStrategy` | src/chart/customStrategies.ts:258-385 | states, scores, markers, latest score and state equal the bar-by-bar meaning: the cache changes nothing |
| `StrategyEvaluator.EvaluateSource` | src/chart/customStrategies.ts:213-227 | returns the source's series whether cached or not, and keeps the cache right |
| `StrategyEvaluator.JudgeCondition` | src/chart/customStrategies.ts:166-177 | no verdict unless both sides are finite, else the comparison that each of the four operators names |
| `StrategyEvaluator.OperatorsExclude` | src/chart/customStrategies.ts:166-177 | of finite sides exactly one of above, below and equal is met, and not-equal exactly when equal is not |
| `StrategyEvaluator.MirrorEvaluates` | src/chart/customStrategies.ts:258-385 | writing any conditions from the other side (`r below l` for `l above r`) leaves the whole evaluation unchanged, in both modes |
| `StrategyEvaluator.MarkersAreFlags` | src/chart/customStrategies.ts:201-211 | a marker output can always be judged; above 0 and equal to 1 both say that the indicator put a marker there |
| `StrategyEvaluator.PricesFollow` | src/chart/customStrategies.ts:179-197 | previous close, change and change in per cent follow from the last prices of two bars; the first bar has none |
| `StrategyEvaluator.PricesOfSummary` | src/chart/customStrategies.ts:179-197 | of a larger bar: the first open, the last price, the envelope of highs and lows, and the total volume of its bars |
| `StrategyEvaluator.ScoreIsNearest` | src/chart/customStrategies.ts:309-330 | the score is the whole number nearest to the share of judged conditions met, halves up; none without a judged condition |
| `StrategyEvaluator.DefaultThresholds` | src/chart/customStrategies.ts:236-239 | thresholds that are not numbers stand for 70 and 30 |
| `StrategyEvaluator.ThresholdMeaning` | src/chart/customStrategies.ts:236-239 | thresholds are kept within 0 to 100 |
| `StrategyEvaluator.LatestScoreIsLast` | src/chart/customStrategies.ts:348-349 | the latest score is the last finite one |
| `StrategyEvaluator.PrefixStable` | src/chart/customStrategies.ts:258-385 | with causal indicators a prefix of the bars gives that prefix of states, scores and markers |
| `StrategyEvaluator.StateIsLastSignal` | src/chart/customStrategies.ts:301-307 | in signal mode the state is the side of the last bar where exactly one side fired |
| `StrategyEvaluator.LatestStateIsLast` | src/chart/customStrategies.ts:350-352 | in signal mode the latest state is the last bar's state |
| `StrategyEvaluator.MarkersAreTurns` | src/chart/customStrategies.ts:339-347 | in both modes the markers stand exactly at the turns of the state to BUY or SELL, at the bar's low or high |
| `StrategyEvaluator.OppositeBetweenIffState` | src/chart/customStrategies.ts:339-347 | for both sides and any series of states, so in both modes, a turn to the other side lies between two to one side iff some bar between them has the other state |
| `StrategyEvaluator.MarkersAlternate` | src/chart/customStrategies.ts:339-347 | in signal mode a SELL marker lies between any two BUY markers, and a BUY marker between any two SELL markers |
| `StrategyEvaluator.AlternatesIffDecisive` | src/chart/customStrategies.ts:309-347 | for each side: score mode alternates for every choice of n conditions and every market in which judging does not lapse after the warm-up, iff no attainable score lies strictly between the thresholds |
| `StrategyEvaluator.AlternatesAnywayIff` | src/chart/customStrategies.ts:309-347 | for each side, with nothing assumed of the market: iff there are no conditions, or, for SELL, the buy threshold is zero |
| `StrategyEvaluator.DecisiveAlternates` | src/chart/customStrategies.ts:309-347 | a strategy whose attainable scores all buy or sell alternates on any series in which judging, once started, does not lapse |
| `StrategyEvaluator.NeutralScoreBreaks` | src/chart/customStrategies.ts:309-347 | for any neutral attainable score and either side, conditions and four bars give two markers of that side with none between |
| `StrategyEvaluator.GappyBreaks` | src/chart/customStrategies.ts:318-335 | an indicator that lapses twice resets the state, so any four bars give two markers of one side with none between |
| `StrategyEvaluator.DefaultsAlternateIffOneCondition` | src/chart/customStrategies.ts:268-269 | with thresholds 70 and 30 that is exactly for at most one condition |
| `StrategyEvaluator.FillSignalMode` | src/chart/customStrategies.ts:271-308 | fills states and scores with the latched state of each bar |
| `StrategyEvaluator.FillScoreMode` | src/chart/customStrategies.ts:309-337 | fills states and scores with the rounded share of conditions met |
| `StrategyEvaluator.FillMarkers` | src/chart/customStrategies.ts:339-347 | a marker exactly where the state turns to BUY or SELL |
| `RoundRobin.TechnicalsScorer.NextUniverseBatch` | backend/score_worker.py:418-433 | the next stretch of the eligible list, wrapping around, at most the whole list once; the cursor moves by its length; no excluded symbol, and empty only if all are excluded |
| `RoundRobin.TechnicalsScorer.SetUniverse` | backend/score_worker.py:409-413 | replaces the list and resets a cursor past its end |
| `RoundRobin.EligibleMeaning` | backend/score_worker.py:418-420 | excluded symbols are left out, all others stay as often as they are listed |
| `RoundRobin.EligibleConcat` | backend/score_worker.py:418-420 | and in their order |
| `RoundRobin.BatchesAreCyclic` | backend/score_worker.py:418-433 | successive batches are one cyclic walk |
| `RoundRobin.BatchesAreFair` | backend/score_worker.py:418-433 | over a fixed list, visits of any two symbols differ by at most one |
| `RoundRobin.NextWorkerBatch` | backend/worker_watchlist.py:1912-1918 | a round is the next stretch of the cyclic walk: eight positions of a list of at least eight, every symbol of a shorter one |
| `RoundRobin.WorkerBatchMeaning` | backend/worker_watchlist.py:1980-1985 | a round visits the next eight symbols, or all if fewer |
| `RoundRobin.WorkerRoundsCover` | backend/worker_watchlist.py:1980-1985 | from any cursor ceil(n/8) rounds visit every symbol |
| `PercentCodec.EncodeQueryComponent` | src-tauri/src/main.rs:415-427 | the loop encodes byte by byte; only letters, digits, `-_.~` and percent signs are left |
| `PercentCodec.ByteMeaning` | src-tauri/src/main.rs:415-427 | each of the 66 plain bytes encodes to itself, every other one to a percent sign and two upper-case hexadecimal digits of its value |
| `PercentCodec.EncodedAlphabet` | src-tauri/src/main.rs:415-427 | nothing but plain bytes and percent signs appears in an encoded string |
| `PercentCodec.DecodeFront` | src-tauri/src/main.rs:214-237 | an escape in either case becomes its value, a plus sign a blank, and everything else stays, a percent sign without two digits included |
| `PercentCodec.SplitMeaning` | src-tauri/src/main.rs:204-206 | splitting cuts at every separator and loses nothing else |
| `PercentCodec.Utf8Meaning` | src-tauri/src/main.rs:417 | the bytes of a code point are its shortest well-formed UTF-8 |
| `PercentCodec.UrlDecode` | src-tauri/src/main.rs:214-237 | the index loop decodes escapes, plus signs and everything else |
| `PercentCodec.DecodeEncode` | src-tauri/src/main.rs:214-237 | decoding an encoded byte string gives back its bytes |
| `PercentCodec.TextRoundTripIffAscii` | src-tauri/src/main.rs:415-427 | text round-trips iff it is ASCII |
| `PercentCodec.ExtractParam` | src-tauri/src/main.rs:204-212 | the value of the first parameter with the name; a first one without equals sign hides later ones |
| `PercentCodec.ExtractFindsFirst` | src-tauri/src/main.rs:204-212 | in a query of encoded pairs with unreserved names it finds the first value of the name |
| `PercentCodec.ExtractThenDecode` | src-tauri/src/main.rs:204-237 | extracting and decoding returns that value, for all values |
| `SlotAllocator.SubscriptionManager.FindOrCreateSlot` | backend/subscriptions.py:104-114 | the first slot with room; earlier ones are full |
| `SlotAllocator.SubscriptionManager.WatchlistSub` | backend/subscriptions.py:71-90 | adds the symbol if it can be subscribed; slots stay disjoint and within 20 |
| `SlotAllocator.SubscriptionManager.WatchlistUnsub` | backend/subscriptions.py:92-102 | removes the symbol and its ticker |
| `SlotAllocator.SubscriptionManager.UpdateWatchlist` | backend/subscriptions.py:47-69 | the union becomes the requested symbols that were there or can be subscribed, with no empty slot |
| `SlotAllocator.SubscriptionManager.QuoteSubscribe` | backend/subscriptions.py:122-145 | the card shows the symbol even when subscribing fails; others are untouched |
| `SlotAllocator.SubscriptionManager.QuoteUnsubscribe` | backend/subscriptions.py:147-154 | removes that card only |
| `SlotAllocator.SubscriptionManager.ResubscribeAll` | backend/subscriptions.py:186-203 | preserves the quote map; the watchlist keeps what can be subscribed, in as few slots as possible |
| `SlotAllocator.PackedUsesFewest` | backend/subscriptions.py:104-108 | slots filled first-fit number ceil(symbols / 20) |
| `SlotAllocator.UnionOfUpdate` | backend/subscriptions.py:71-102 | changing one of disjoint slots changes the union by what that slot gained and lost |
| `Bisection.SolveImpliedVolatility` | backend/options_collector.py:342-369 | the bracket has opposite signs and width (5 − 1e-6)/2^k after k rounds; a found value has an objective below 1e-8; the two no-bracket exits happen exactly when stated |
| `Bisection.BracketHoldsZero` | backend/options_collector.py:358-369 | for a strictly increasing objective each bracket holds its zero, and the final middle is within (5 − 1e-6)/2^201 of it |
| `Bisection.NoSignChange` | backend/options_collector.py:350-357 | the fallback is taken iff every volatility prices too high, the exception raised iff each prices too low |

## Left out

- React components, Tauri windows, HTTP routing and providers, the OAuth pages, SQL text, process start-up and logging: only the state they read and write is modelled.
- scipy `brentq`, pandas and numpy code and the normal CDF; rounding: prices, volumes and volatilities are exact reals, and a price is always finite.
- SingleFlight: no time-to-live lapse of a cached answer; a `null` answer or a failed cache write counts as a failed request; the POST twin runs the same protocol.
- WatchlistRuns: a step never spans an await but may be finer than the program's; a connect call that reports failure leaves its connection down; `clear_statuses_not_in` and status rows are not modelled.
- WatchlistRuns: a database error inside the lease manager, which also ends the worker, and every other exception that leaves a coroutine.
- WatchlistRuns: realtime symbols are not covered by the no-loss result, since the program drops them at the cap on purpose.
- WatchlistWorker: within one stretch the marking, queueing and cancelling of several symbols is taken loop by loop, not symbol by symbol.
- WatchlistWorker.WorkerLoop.CancelRealtimeSubscription: the open aggregates it also discards live in BarAggregation; quotes, throttling, synthetic bars, and the chart and backfill clients are not modelled.
- BarAggregation: writes land in call order and do not share the mutable aggregate; the synthetic flag of a row is not modelled.
- HistoricalCache: fetch metadata and depth flags; rows before 1970, for which SQL division truncates where Python's rounds down.
- HistoryPagination: the cutoff and the chunk length computed from a duration string are parameters, the cutoff not negative; bar times are whole seconds, as the broker sends them.
- HistoryPagination.Walk: bounds the requests for brokers whose batches start at finitely many times, which is what `seen_earliest` gives; for others the loop need not end.
- ClientLeases.LeaseSafety: exclusivity holds across owners only, since an owner's claim of its own id always succeeds, and needs one shared clock that never goes back.
- ClientLeases.LeaseTable: keeps the run of transactions instead of its rows, which are a function of it; the update in place is SQL.
- ClientLeases.ConnectionPool.GetOrCreate: client states, reconnect bookkeeping, the inverse role map and the background reconnect loop are not modelled.
- Supervisor: overlapping operations are covered as one operation taken whole within a spawn or within a probe; finer interleavings and several interruptions are not. Manual restarts and spawns are unconstrained.
- StrategyEvaluator: the cache is keyed by the source itself, for which the JSON text stands in the program; indicators are a parameter.
- SlotAllocator: calls do not overlap, and a connection call is its outcome.
- RoundRobin: rate limits and duplicate suppression inside a round; `request_refresh` and its pending sets, plain set updates.
- The guard that keeps fallback quotes from replacing broker quotes, Supertrend bands, and the daylight-saving rules: they have no invariant worth stating.
