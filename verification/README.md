# Verified models of a trading agent

The repository runs an autonomous trading agent: a runner on a user's machine or in a shared cloud worker, a control plane
that configures it and stores what it reports, and a web front end. This project models the parts of it that are
algorithms and protocols in their own right, and proves what they are for. Each module models one component; loops and
objects that change in place are methods and classes proved against functions, and what the component promises is proved
about those functions, mostly over all runs.

| module | component |
|---|---|
| `MonotonePath`, `PathShape`, `NiceTicks` | the chart line with the Fritsch-Carlson tangent limiter, and the axis ticks |
| `Outbox` | the runner's store |
| `UploadProtocol`, `UploadOrder`, `UploadPrograms` | the upload of events to a server that ingests behind a watermark: nothing lost, in which order, and the two ends as programs |
| `Commands` | remote commands: redelivery, lost acknowledgements, restarts |
| `LiveExecution` | interleaved live orders over one claim store |
| `LogFetch` | `eth_getLogs` in chunks that narrow when a provider refuses |
| `Windows`, `SwapStatistics`, `History` | statistics over a truncated trade list, growth over a thinned sample list |
| `BestFirst`, `Ranking` | which tokens a worker cycle evaluates |
| `Rotation` | in how many cycles all of them get a turn |
| `TenantLease` | the lease that keeps two workers off one tenant |
| `RateLimit` | the fixed-window limiter, in Redis and in its fallback |
| `Monitoring` | the life of a token under monitoring |
| `Paper`, `PaperOverlap` | accounting of simulated fills, and orders that overlap |

`Common` holds `Option` and the type `Key` of strings of which only identity matters. Money, prices and fractional times are
`real`; whole times are `int`. `dafny verify dfyconfig.toml` checks everything.

Where the code does not do what its comments or documentation say, the code is modelled, a lemma shows an input, and
another says exactly when the promise is kept:

- the tick helper says "3 to 6 ticks" for a count of four; it is 2 to 7 (`ExtremesForFour`, `ThreeToSixTicksIff`);
- `get_logs` never finishes if every configured range is zero or negative (`ServedCallsFinishIff`);
- a full page of trades without a readable one is taken to cover the whole day, and a window that begins at most a second
  before the oldest trade is reported too (`ExactIffReachesBack`);
- an execution that fails before its claim releases the key all the same, also when another execution holds it
  (`BrokenOnlyByForeignRelease`, `ForeignReleaseDoubles`);
- batches without a run id, which the server accepts from older runners, can make it drop events of this one
  (`LegacyBatchIsSafeIff`); batches of another run can bring old rows back (`HandledOnceInOrderIff`, `OtherRunSetsBackIff`);
- the keep-alive of a tenant lease is meant to let a cycle outlast the lease; it never extends it (`KeepAlivesDoNotExtend`,
  `TakeoverIffOverrun`), and a release that takes longer than the lease removes somebody else's
  (`LateDeleteHarmsIffRunOut`, `LateReleaseHarmsIffRunOut`);
- "every eligible token is rotated through" holds up to a number of tokens, and beyond it not for every run; the number
  shrinks with the tokens a cycle leaves without a stamp (`RotationReachesAllIff`);
- the price of a trade is meant to be the target token's; if the row lacks it, it is the other token's
  (`ParsedTellsSwaps`);
- "COLD" means slow monitoring, but a token that becomes COLD because its score dropped is never monitored again
  (`DeclinedIsNeverFetchedAgain`, `ColdIsQueuedIffMonitored`); errors of the scorer are not counted as failures in a row (`ScoreErrorsAlone`);
- a paper sale can cost cash when the caller tolerates more than 100 percent of slippage (`SellKeepsBooksIff`,
  `CarelessSaleCostsCash`); two overlapping calls of one idempotency key can both fill (`EachKeyFillsOnceIff`,
  `OverlappingPurchasesFillTwice`).

## Model

| member | source | states |
|---|---|---|
| MonotonePath.Draw | frontend/lib/chart.ts:20-42 | the loops produce the path the functions describe: nothing, a dot, a line, or one cubic per segment with limited tangents |
| MonotonePath.LimitTangents | frontend/lib/chart.ts:30-34 | overwriting the tangent array in place, left to right, gives the limiter's result |
| MonotonePath.CutBackSettles | frontend/lib/chart.ts:31-33 | the rule brings both end slopes of its segment into the circle of radius 3 and only shrinks them |
| MonotonePath.StepKeepsSettled | frontend/lib/chart.ts:30-34 | a later step, although it rewrites a tangent of the segment before, breaks no earlier segment |
| MonotonePath.LimiterInvariant | frontend/lib/chart.ts:25-34 | after the whole loop every segment satisfies the criterion |
| MonotonePath.LimiterKeepsSettledData | frontend/lib/chart.ts:30-34 | tangents that satisfy it already are left alone |
| MonotonePath.RateNonNegative | frontend/lib/chart.ts:18-19 | the criterion itself: inside the circle the rate of change of the cubic has no wrong sign |
| MonotonePath.NeverOvershoots | frontend/lib/chart.ts:18-42 | every segment's curve is monotone between its end points, its control ordinates lie between theirs, a flat segment is constant |
| MonotonePath.EvenAbscissa | frontend/lib/chart.ts:37-39 | x advances evenly along each curve, so it is the graph of a function |
| MonotonePath.SmoothAtInnerPoints | frontend/lib/chart.ts:18-42 | the path has no kink: control points around an inner point lie on one line through it |
| PathShape.LinesAreDrawnAsLines | frontend/lib/chart.ts:26-42 | points on one line are drawn as that line, every point of the curve |
| PathShape.ParabolasKeepTheirSlopes | frontend/lib/chart.ts:26-42 | evenly spaced points on a parabola that does not turn between them are drawn with its derivative at inner points and the chords' slopes at the ends, if these lie in the circles |
| PathShape.ParabolaDirections | frontend/lib/chart.ts:36-42 | in terms of the control points: on both sides of an inner point they lie on the parabola's tangent |
| PathShape.DrawnAsWanted | frontend/lib/chart.ts:26-34 | wherever the limiter has no work, an inner tangent is the mean of its chords, or zero at a turning point |
| PathShape.LevelAroundFlatChords | frontend/lib/chart.ts:25-34 | around a flat or a vertical chord the curve runs level |
| PathShape.LandsOnCircle | frontend/lib/chart.ts:31-33 | a pair of slopes outside the circle lands on it in the same proportion and direction; one inside is left alone |
| NiceTicks.Compute | frontend/lib/chart.ts:6-16 | the program returns the ticks the functions describe |
| NiceTicks.Walk | frontend/lib/chart.ts:13-15 | the accumulating loop ends and yields consecutive multiples of the step |
| NiceTicks.StepFitsRough | frontend/lib/chart.ts:9-12 | the 1/2/5 step is within 2/3 and 5/3 of the rough step, for every magnitude |
| NiceTicks.TicksAreMultiples | frontend/lib/chart.ts:13-15 | the ticks are exactly the multiples of the step on the axis, increasing |
| NiceTicks.TickCount | frontend/lib/chart.ts:5-16 | between 3c/5 and 3c/2 + 1 ticks for a count of c |
| NiceTicks.TicksByNorm | frontend/lib/chart.ts:5-16 | the exact number of ticks of every axis, from the norm of its spacing, the count, and how far its first tick is from its lower end |
| NiceTicks.ExtremesForFour | frontend/lib/chart.ts:12 | axes with 2 and with 7 ticks for a count of four |
| NiceTicks.ThreeToSixTicksIff | frontend/lib/chart.ts:9-15 | an axis four spacings long has the comment's 3 to 6 ticks wherever it lies if and only if the spacing's norm is not just above 3 or 7, nor just below 1.5 or 3 |
| NiceTicks.TwoTicks | frontend/lib/chart.ts:12 | every norm just above 3 or 7 has an axis with two ticks |
| NiceTicks.SevenTicks | frontend/lib/chart.ts:12-14 | every norm just below 1.5 or 3 has an axis with seven |
| LogFetch.EvmRpcClient.GetLogs | backend/app/chains/evm.py:120-147 | it terminates; a normal return is the logs of the whole range in order, from requests that tile it; an error is the provider's; it goes on exactly after replies that serve or refuse a range, and narrows once for each such refusal |
| LogFetch.TraceMeans | backend/app/chains/evm.py:130-146 | spelled out over the spans asked for: every reply before the last serves or refuses a range; any other error ends the call at once and is what it raises; the narrowings are the refusals gone on after |
| LogFetch.EvmRpcClient.FetchNext | backend/app/chains/evm.py:131-146 | one turn of the loop: on, the same block again with a smaller chunk, or the error |
| LogFetch.EvmRpcClient.GetLogsRepeatedly | backend/app/chains/evm.py:64-72 | over any number of calls the cap never grows and retries stay within the number of halvings between the first cap and the floor |
| LogFetch.EvmRpcClient.Narrow | backend/app/chains/evm.py:135-143 | halve the cap, not below the floor, and remember it |
| LogFetch.LogsOfSplit | backend/app/chains/evm.py:130-146 | logs of adjoining ranges concatenate to those of the union |
| LogFetch.TilesCoverOnce | backend/app/chains/evm.py:130-146 | requests that tile a range contain each of its blocks exactly once |
| LogFetch.HalvingsIsLog2 | backend/app/chains/evm.py:135-137 | the number of halvings is the rounded-up base-2 logarithm of cap over floor |
| LogFetch.NarrowingPays | backend/app/chains/evm.py:135-137 | each narrowing uses up one halving |
| LogFetch.ServedCallsFinishIff | backend/app/chains/evm.py:60-71 | with a provider that refuses nothing the loop ends if and only if a configured range is positive |
| Outbox.LocalStore.OutboxAdd | backend/runner/store.py:55-58 | a coalescing event replaces the pending one of its key and gets a new, higher number |
| Outbox.LocalStore.OutboxAck | backend/runner/store.py:63-64 | exactly the rows up to a number go |
| Outbox.LocalStore.IdemClaim | backend/runner/store.py:37-38 | a claim succeeds only where there was none, and keeps an older one |
| Outbox.LocalStore.IdemSeed | backend/runner/store.py:50-52 | restoring a claim never overwrites one |
| Outbox.TablesStayWellformed | backend/runner/store.py:55-64 | adds and acks keep the queue in number order and every number below the next |
| Outbox.AddCoalesces | backend/runner/store.py:55-58 | after an add no other pending row has its dedupe key |
| UploadPrograms.ControlPlane.Ingest | backend/app/services/ingest.py:70-117 | the batch is sorted, exactly its rows above the mark are handed over and the mark moves; the answer counts what the handler accepted and what was skipped |
| UploadPrograms.EveryNewNumberIsHandled | backend/app/services/ingest.py:91-108 | in whatever order a batch comes, each of its numbers above the mark is handled |
| UploadPrograms.OneMoreProcessed | backend/app/services/ingest.py:95-107 | a row counts as accepted exactly if the handler accepts it |
| UploadPrograms.PostBatch | backend/runner/runtime.py:972-987 | one round, under any network outcome, is a run of protocol steps; rows leave the queue only when the server has answered |
| UploadPrograms.UploadOnce | backend/runner/runtime.py:969-988 | the whole call is a run of the protocol, the one the network's behaviour decides: queue, server and report |
| UploadPrograms.UploadTakesTheFront | backend/runner/runtime.py:969-988 | whatever the network does, exactly the rows reported as uploaded leave the front of the queue |
| UploadPrograms.UndisturbedUploadDrains | backend/runner/runtime.py:969-988 | an undisturbed call drains up to 100 rows per batch, all of them if they fit |
| UploadProtocol.StepKeepsInv | backend/runner/runtime.py:969-988 | every event is pending or settled and each batch is a complete front part of the queue; a step keeps this if and only if it is not a harmful batch without a run id |
| UploadProtocol.NoEventIsLost | backend/runner/runtime.py:969-988 | in every state reached without such a batch each event ever added was handled, is pending, or is replaced by a later one of its key |
| UploadProtocol.AcksDeleteOnlySentRows | backend/runner/store.py:63-64 | whichever uploader acks, a deleted row was in the batch it answers and had reached the server or been replaced |
| UploadProtocol.LegacyBatchIsSafeIff | backend/app/services/ingest.py:82-89 | a batch without a run id can lead to no loss if and only if it leaves the mark alone, the mark is another run's, or all rows it skips have been handled or replaced |
| UploadProtocol.HigherMarkLosesAnEvent | backend/app/services/ingest.py:82-89 | from every state in which the server last heard from this run, a batch without a run id numbered above everything added leads to the loss of an event |
| UploadOrder.HandledOnceInOrderIff | backend/app/services/ingest.py:91-108 | rows are handled in strictly increasing order, so none twice, if and only if every delivery is on time: what it hands over is newer than all that was handled |
| UploadOrder.SoleRunIsOnTime | backend/app/services/ingest.py:86-89 | every delivery is on time while no other run interferes |
| UploadOrder.LateRowsAreOld | backend/app/services/ingest.py:86-108 | in every reachable state a row that comes too late was handled before, or replaced by a later event of its key |
| UploadOrder.PlainOnceInOrderIff | backend/app/services/ingest.py:91-108 | each uncoalesced event is handled once, in order, if and only if no delivery hands one over again |
| UploadOrder.StepKeepsNewestIff | backend/app/services/ingest.py:86-108 | a reader for whom the newest event of a key wins is set back exactly by a delivery whose last row of the key is above the mark and older than a handled one |
| UploadOrder.DrainedRefinesLog | backend/runner/store.py:55-58 | once everything pending is handled, the server has had the uncoalesced events in order if and only if none was repeated, and the last event of each dedupe key if and only if the newest handled one won, as it does unless set back |
| UploadOrder.SoleRunRefinesLog | backend/runner/store.py:55-58 | both hold while this run is the only one |
| UploadOrder.OtherRunSetsBackIff | backend/app/services/ingest.py:86-89 | a batch of another run lets a delivery set a reader back if and only if some earlier batch ends, for that key, with a row older than a handled one |
| UploadOrder.OtherRunBreaksNewestWins | backend/app/services/ingest.py:86-89 | a concrete run in which a stale duplicate overwrites newer data for good |
| Commands.CommandLoop.EnqueueCommands | backend/runner/runtime.py:706-716 | commands already queued, in hand or executed are ignored, the rest queue up in order |
| Commands.CommandLoop.HandleCommand | backend/runner/runtime.py:773-811 | an executed command is only acknowledged again, as DONE; another runs, is marked however it ends, and is acknowledged with its own status |
| Commands.CommandLoop.DrainCommands | backend/runner/runtime.py:718-729 | with heartbeats arriving meanwhile: the queue runs empty, exactly the queued and delivered commands are marked, each newly marked one ran once |
| Commands.TurnsAreARun | backend/runner/runtime.py:718-729 | the turns of that loop are a run of the model, so all that holds of runs holds of it |
| Commands.DeliveredIsHeld | backend/runner/runtime.py:706-716 | after a heartbeat each command it brought is queued, in hand or executed, and nothing else was added |
| Commands.NewCommandsQueueInOrder | backend/runner/runtime.py:706-716 | new commands line up behind the others in the order they come |
| Commands.RunsOncePlusInterruptions | backend/runner/store.py:69-74 | a command starts once, plus exactly once per death of the process between its start and its mark |
| Commands.AcknowledgedCommandsRan | backend/runner/runtime.py:773-811 | no acknowledgement without a run up to the mark |
| Commands.MarkedNeverRunsAgain | backend/runner/runtime.py:774-775 | once marked, never started again, across restarts and redelivery |
| Commands.RedeliveryReportsDone | backend/runner/runtime.py:774-775 | a failed command is acknowledged DONE when it comes again |
| LiveExecution.BrokenOnlyByForeignRelease | backend/app/execution/live.py:184-191 | the claim invariant survives a step exactly if it is not the release of a claim another execution relies on |
| LiveExecution.AtMostOneOpenSubmission | backend/app/execution/live.py:112-207 | without such a release, in every interleaving: at most one submission per key beyond the definitive reverts, at most one fill, only on a receipt with status 1 |
| LiveExecution.OnlyClearedIsSent | backend/app/execution/live.py:112-178 | in every run, an execution that owns a claim or whose swap was handed to the wallet had passed its last preflight, its last build, its simulation and its claim, with at most one approval after the first build |
| LiveExecution.OrphanedClaimsBlock | backend/app/execution/live.py:176-178 | a claim nobody owns keeps its key from being submitted until some execution's early failure releases it |
| LiveExecution.ForeignReleaseIsReachable | backend/app/execution/live.py:190 | while a submission is open, a second execution of its key that breaks while building gets to such a release |
| LiveExecution.ForeignReleaseDoubles | backend/app/execution/live.py:184-191 | from any state, such a release has a continuation with two open submissions of one key |
| LiveExecution.LiveEngine.Build | backend/app/execution/live.py:136-168 | at most two attempts to build, the second only after an approval and a preflight that passed; which answers end it, and how |
| LiveExecution.LiveEngine.Claim | backend/app/execution/live.py:176-178 | only an unclaimed key gets past the claim |
| LiveExecution.LiveEngine.Submit | backend/app/execution/live.py:179-194 | one call of the wallet; any doubt about it keeps the claim |
| LiveExecution.LiveEngine.Confirm | backend/app/execution/live.py:195-207 | only a revert gives the key back, only a receipt with status 1 is booked |
| LiveExecution.LiveEngine.Execute | backend/app/execution/live.py:112-207 | over the answers: the swap is handed to the wallet if and only if the key is free and all went well up to the claim; which answers make it FILLED or FAILED, which leave it open, and which release the key; the program is the model's run on these answers |
| LiveExecution.ReadyIsCleared | backend/app/execution/live.py:112-178 | that all went well means: every answer up to the claim passed, except one missing allowance of the first build directly followed by an approval that passed |
| Windows.ParseTrades | backend/app/domain/windows.py:88-111 | the loop yields the trades of the readable rows, in their order |
| Windows.ParsedTellsSwaps | backend/app/domain/windows.py:100-110 | parsing undoes the provider's listing of swaps: one trade per readable swap, bought exactly if the target token was taken out, with its volume, trader and the target's own price, or the other token's if that is missing |
| Windows.ParsedSkipsUnreadable | backend/app/domain/windows.py:91-99 | a row without a readable time or of another kind leaves no trace |
| Windows.VolumeFallsBack | backend/app/domain/windows.py:101 | a missing or zero volume is taken from the other field |
| Windows.WindowsFromTrades | backend/app/domain/windows.py:114-147 | which windows are reported, and with which statistics |
| SwapStatistics.OneMoreSwap | backend/app/domain/windows.py:133-146 | one more swap in the window adds one trade and its dollars to the side it is on and nothing to the other; before the window it adds nothing |
| SwapStatistics.TradersAreThose | backend/app/domain/windows.py:142 | buyers are the traders who took the target out within the window, sellers those who put it in, each once |
| SwapStatistics.ChangeLeadsToNewest | backend/app/domain/windows.py:124-140 | the price change leads from the last price before the window, or else the first one inside, to the newest price |
| SwapStatistics.ChangeIsKnownIff | backend/app/domain/windows.py:136-140 | there is a change if and only if the window has a trade and the page a price |
| Windows.ReportedIff | backend/app/domain/windows.py:119-132 | which windows are reported, in terms of the page and its trades |
| Windows.CoveredWindowIsExact | backend/app/domain/windows.py:116-118 | a window the page reaches back beyond has the trade counts, unique traders and volumes of the whole history |
| Windows.ExactIffReachesBack | backend/app/domain/windows.py:121-132 | a reported window agrees with every history the page can be the newest part of if and only if the page reaches back beyond its start |
| Windows.SlackMissesOnlyItsSecond | backend/app/domain/windows.py:131-132 | the slack misses at most trades between the window's start and the oldest trade of the page, one second apart at most |
| Windows.PriceChangeIsExact | backend/app/domain/windows.py:127-140 | with a priced trade strictly between coverage and window the price change is that of the whole history |
| Windows.ReportedWindowsArePrefix | backend/app/domain/windows.py:129-132 | with a window every shorter one is reported |
| Windows.CountsGrowWithWindow | backend/app/domain/windows.py:133-146 | counts and unique traders do not shrink with a longer window |
| History.TokenHistory.Update | backend/app/domain/history.py:21-31 | append if due, then drop what is too old |
| History.TokenHistory.Growth | backend/app/domain/history.py:34-52 | a window is reported exactly if an eligible sample exists, as the change since the one nearest to the window's age |
| History.NearestInHours | backend/app/domain/history.py:40-52 | a reported window goes back to a sample of 85 to 160 percent of its age, and to the nearest one; the percentage leads from its value to the current one |
| History.TokenHistory.ClosestTo | backend/app/domain/history.py:42-49 | the inner loop finds the nearest eligible sample or establishes that there is none |
| History.AlwaysWellSpaced | backend/app/domain/history.py:21-31 | whatever times it is called with, even going back: samples increase by 600 s at least and span 26 h at most |
| History.AtMost157Samples | backend/app/domain/history.py:12-13 | hence at most 157 samples |
| History.UpdateContents | backend/app/domain/history.py:21-31 | which samples an update keeps, both ways |
| History.RegularIsDense | backend/app/domain/history.py:21-31 | fed every 2100 s at least, kept samples are less than 2700 s apart |
| History.GrowthIsReported | backend/app/domain/history.py:34-52 | then a window is answered from the moment the oldest sample has 0.85 of its age |
| History.LongerIntervalsFail | backend/app/domain/history.py:34-52 | for every longer interval there is a feed that leaves the one-hour window unanswered |
| Ranking.RankCandidates | backend/app/discovery/ranking.py:128-161 | the loop and the sort select the first entries of the ranked eligible tokens; the call fails exactly if the interval is zero and an eligible token was evaluated before |
| Ranking.SelectedAreSound | backend/app/discovery/ranking.py:139-161 | a selected address is that of a living token, seen within the retention time, with no known liquidity or market cap under its floor, and not evaluated within the interval |
| Ranking.SelectedAreComplete | backend/app/discovery/ranking.py:139-161 | a token that meets all of this is left out only if as many others were taken as a cycle allows |
| Ranking.LongerWaitIsNotPassed | backend/app/discovery/ranking.py:153-161 | with equal balance scores a token that waited longer, or was never evaluated, is not passed over, except by address among those that have waited for six intervals |
| Ranking.BetterBaseIsNotPassed | backend/app/discovery/ranking.py:153-161 | with equal waits a better balance score is not passed over |
| BestFirst.BestIsOrdered | backend/app/discovery/ranking.py:160 | the ranking is a permutation in order of descending score, then address |
| Ranking.LeftOutRanksBehind | backend/app/discovery/ranking.py:160-161 | an eligible token that is left out ranks behind every selected one |
| Ranking.ChosenFillsTheCycle | backend/app/discovery/ranking.py:140-161 | only eligible tokens are chosen, as many as there are or as the limit allows |
| Rotation.EveryDueTokenIsChosen | backend/runner/cloud_worker.py:240-255 | no starvation: K cycles inside one interval reach every due token if at most (K - 1) * (limit - missed) + limit tokens are eligible, where each cycle leaves at most `missed` of its tokens unstamped |
| Rotation.RotationReachesAllIff | backend/runner/cloud_worker.py:240-255 | this bound is exact for every K, limit and `missed` |
| Rotation.OneMoreIsPassedOver | backend/runner/cloud_worker.py:240-255 | with one eligible token more there is a run, at any times inside an interval, that never chooses a token that is due in each cycle |
| Rotation.PassedOverMeansProgress | backend/runner/cloud_worker.py:240-255 | while a due token is passed over every cycle evaluates limit - missed new tokens |
| Rotation.WorkerCycle | backend/runner/cloud_worker.py:252-255 | a cycle as the program runs it: it leaves unstamped at most the chosen tokens with open positions, those without data, and those behind the place where the cap or the deadline cut the list |
| Ranking.EvaluateCandidates | backend/runner/runtime.py:1086-1119 | exactly which of the tokens it is given the evaluation loop stamps before the cap or the deadline |
| TenantLease.LeaseKey.Acquire | backend/app/api/routes_platform.py:280-287 | set if absent, for as long as asked between 30 and 300 seconds, refusal without a worker id |
| TenantLease.StepKeepsHolds | backend/runner/cloud_worker.py:257-420 | while cycles and releases end before their lease does, a worker inside is the holder, on the lease it entered on, and no release is on its way |
| TenantLease.AtMostOneInside | backend/runner/cloud_worker.py:257-420 | then no two workers are inside at once, and none while another's release is under way, although requests land late, are lost, or outlive their worker |
| TenantLease.TakeoverIffOverrun | backend/app/api/routes_platform.py:284-287 | another worker gets in exactly from the moment the lease has run out |
| TenantLease.KeepAlivesDoNotExtend | backend/runner/cloud_worker.py:449-453 | while a lease lives no keep-alive changes it |
| TenantLease.LateKeepAliveLocksEverybodyOut | backend/runner/cloud_worker.py:449-453 | a keep-alive that lands after its worker left keeps everybody out until it runs out |
| TenantLease.LateDeleteHarmsIffRunOut | backend/app/api/routes_platform.py:291-296 | a delete on its way removes the lease of the next worker, and lets a third in beside it, if and only if its own lease has run out |
| TenantLease.LateReleaseHarmsIffRunOut | backend/app/api/routes_platform.py:291-296 | so does a release that is read when its worker is back under its id |
| TenantLease.LeaseKey.ReleaseUndisturbed | backend/app/api/routes_platform.py:291-297 | a release that nothing comes between takes its own lease and leaves another worker's |
| RateLimit.RateLimiter.Hit | backend/app/infra/redis.py:68-83 | a hit that Redis answers is decided by the window's counter, any other by the fallback, also one that Redis has counted, with or without an expiry; no other key is touched |
| RateLimit.LocalBound | backend/app/infra/redis.py:77-83 | the fallback lets through at most twice the limit in any interval as long as the window |
| RateLimit.LocalBoundInPractice | backend/app/infra/redis.py:66-83 | one less than twice the limit with a clock past its first window |
| RateLimit.FallbackRecovers | backend/app/infra/redis.py:77-83 | once its window has passed the fallback lets the whole limit through again |
| RateLimit.RedisBound | backend/app/infra/redis.py:72-76 | the same bound for the Redis buckets, in whatever order the hits come, expiry included, whichever commands fail half-way |
| RateLimit.MixedBound | backend/app/infra/redis.py:66-83 | Redis and the fallback together let through at most four times the limit, wherever the failures fall |
| RateLimit.RedisBoundIsTight | backend/app/infra/redis.py:72-76 | two bursts reach it, for every limit and window |
| Monitoring.Monitor.DueCandidates | backend/app/discovery/monitoring.py:89-108 | the queue: monitored, not dead, interval over; best priority first, cut at the cap |
| Monitoring.Monitor.Refresh | backend/app/discovery/monitoring.py:130-183 | what one result does to a token, field by field |
| Monitoring.Monitor.RunOnce | backend/app/discovery/monitoring.py:117-192 | exactly the queued tokens change, each by its own result; the count is that of the fetches that went well |
| Monitoring.FailingTokensRetire | backend/app/discovery/monitoring.py:161-187 | a token whose fetch always fails is fetched at most maxFailures times, then dead and rejected for ever |
| Monitoring.ScoreErrorsRetireIffLimitIsOne | backend/app/discovery/monitoring.py:130-181 | an error of the scorer leaves the count at one, so it retires a token only with a limit of one |
| Monitoring.ScoreErrorsAlone | backend/app/discovery/monitoring.py:130-181 | scorer errors alone never retire a token with a higher limit |
| Monitoring.FetchesAreSpaced | backend/app/discovery/monitoring.py:99-104 | two fetches of a token are at least the interval of its current priority apart, after failures too |
| Monitoring.BestPriorityFirst | backend/app/discovery/monitoring.py:106-108 | at most maxPerCycle tokens; a due token left out has no better priority than a fetched one |
| Monitoring.FetchedIsInPlay | backend/app/discovery/monitoring.py:89-105 | whatever is fetched has a monitored status, is not dead, and has waited for the interval of its priority |
| Monitoring.ScoreMoves | backend/app/discovery/monitoring.py:135-152 | a score that rose makes a token HOT and IMPROVING, one that dropped COLD and LOST_MOMENTUM, and one between neither |
| Monitoring.DeclinedIsNeverFetchedAgain | backend/app/discovery/monitoring.py:148-150 | a token whose score dropped is COLD and never monitored again |
| Monitoring.ColdIsQueuedIffMonitored | backend/app/discovery/monitoring.py:89-108 | a COLD token whose interval has passed is queued if and only if its status is monitored |
| Monitoring.ColdMeansLost | backend/app/discovery/monitoring.py:143-150 | monitoring makes no token both COLD and monitored, in any run |
| Paper.PaperEngine.BuyToken | backend/app/execution/paper.py:63-89 | replay, rejections, fill, impact, fee and the whole new state, for every configuration; a division fails only with settings out of bounds |
| Paper.PaperEngine.SellToken | backend/app/execution/paper.py:91-114 | likewise for a sale, with closing at dust and the failing division |
| Paper.ImpactRange | backend/app/execution/math.py:1-9 | a trade of a positive amount moves the price by 0 to less than 100 percent |
| Paper.PurchasePays | backend/app/execution/paper.py:73-89 | what is spent, the fee that comes off it, the price paid for the rest, and the slippage by the constant-product formula within the tolerance |
| Paper.SaleBringsIn | backend/app/execution/paper.py:102-114 | how much is sold, what it brings in after slippage and fee, and what is left of the position |
| Paper.BuyKeepsBooksIff | backend/app/execution/paper.py:63-89 | a purchase at the marked price creates no value if and only if the liquidity is positive (or fills are off); then the books stay solvent |
| Paper.SellKeepsBooksIff | backend/app/execution/paper.py:91-114 | a sale costs no cash, leaves no negative quantity and creates no value if and only if it sells nothing, or a positive quantity within 100 percent of slippage |
| Paper.CarefulRunsKeepBooks | backend/app/execution/paper.py:63-114 | over any run of callers that tolerate less than 100 percent: cash above minus 1e-9, no negative quantity, cash plus marked holdings never increases |
| Paper.CarelessSaleCostsCash | backend/app/execution/paper.py:102-111 | a sale with the runner's settings that makes cash negative |
| Paper.EachKeyFillsOnce | backend/app/execution/paper.py:38-114 | each idempotency key fills at most once in any sequence of calls |
| Paper.FilledKeysAreReplayed | backend/app/execution/paper.py:63-94 | a call whose key has filled changes nothing |
| PaperOverlap.UndisturbedCall | backend/app/execution/paper.py:63-114 | a call in two steps that is left alone is the undivided call |
| PaperOverlap.EachKeyFillsOnceIff | backend/app/execution/paper.py:63-114 | in every interleaving each key fills at most once if and only if no call goes through whose key filled while it waited for the market |
| PaperOverlap.OnceWithoutOverlap | backend/app/execution/paper.py:63-114 | so it is if no two calls of one key overlap |
| PaperOverlap.OverlappingPurchasesFillTwice | backend/app/execution/paper.py:65-68 | two overlapping purchases of one key, with money for both and some tolerance, can always both fill |
| PaperOverlap.CarefulInterleavingsKeepBooks | backend/app/execution/paper.py:63-114 | in every interleaving of such callers, overlapping calls of one key and sales of a position closed meanwhile included, the books stay solvent and gain no value |

## Left out

- HTTP, SQL, Redis and provider clients, chain and wallet calls: their answers are parameters, or steps that may happen in any order and number.
- React components, formatting, LLM prompts and analyzers, contract probes, database schema: no protocol to prove.
- Floating-point rounding, the rounding of reported numbers, date parsing and JSON: reals and parsed values stand for them.
- MonotonePath: the square root is any function whose squared value is its positive argument; control points stand for the path string.
- UploadProtocol: posting the operational audit and reading it into the bus before an upload, streaming and webhooks, and what the event handler does with a row beyond accepting it or not; a row it rejects counts as handled, as the watermark treats it.
- Outbox: the key-value table, the outbox size, and SQLite's own durability; each operation is one atomic step.
- Commands: what the command types do and what text they answer; a started command ends in success or failure, or with the process. The bookkeeping of contact times in `heartbeat_once` is not modelled.
- LiveExecution: the individual checks of the preflight (it passes, refuses or breaks), the approval transactions, and the seven-day lifetime of claims in the Redis store; the claims here are the durable ones of the runner.
- LiveExecution.LiveEngine.Execute: does not interleave with other executions, because it is one call; the interleavings are those of the step system it is shown to be a run of.
- LogFetch: retries of one request across URLs; a request succeeds, is refused as too wide, or fails. The callback that persists the cap is not modelled.
- Windows: pool statistics of the providers and the field-by-field merge of the two sources; sums are not rounded.
- Ranking: the balance score of a snapshot (base-10 logarithms and means) is a given number per token; pruning of evaluation times of tokens that left the registry is not modelled.
- TenantLease: one tenant; distinct worker ids are an assumption: ARC_RUNNER_WORKER_ID may set them, and only without it are they drawn at random.
- RateLimit: several processes, each with its own fallback; the bounds on the fallback are per process.
- Monitoring: the cycle lock, persistence, and changes by discovery between cycles.
- Paper: approvals are a yes or no; profit figures of the portfolio.
- Paper.SellKeepsBooksIff: leaves out a negative sale that leaves no more than dust, because closing the position then rounds its quantity away, and a fee of the whole.
