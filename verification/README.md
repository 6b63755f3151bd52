# Maybech: protocols and incremental state, verified

Maybech is a trading daemon. What is hard about it is not one computation but
what survives interruption: fills that must not be lost while a paginated
catch-up is cut into ticks, exits whose acceptance is unknown, a stop that was
taken away, entries that must not be sent twice, a lease shared between
processes, and caches that must agree with a full recomputation. This project
models those components in Dafny and proves what every run of them keeps.

Two kinds of model stand side by side:

- Classes with the source's own fields, whose methods are proved equal to a
  function of the old state (`ExecutionFillService`, `PositionManagerService`,
  `StrategyService`, `RuntimeLease`, `LifecycleNotificationService`, ...).
- Transition functions over values, where a step list is any interleaving of
  those methods' writes with arrivals, failures, exceptions and crashes.
  The main theorems quantify over all step lists. The methods are proved to
  perform exactly such step lists when nothing interrupts them.

Prices and quantities are `real`; bill ids, client ids and event positions are
integers. Whatever the exchange, the clock, the database or a notifier answers
is a parameter, so every theorem holds for all answers.

| module | component |
|---|---|
| `FillHistory`, `FillCatchUp`, `FillCatchUpSafety` | REST catch-up over the fill history |
| `PrivateStream`, `DropReconciliation` | bounded event queue and the REST pass that makes up for drops |
| `ExitLifecycle`, `ExitManager`, `FillRecovery`, `ExitSafety`, `ExitRuns`, `ExitRetries`, `ExitBooking`, `ProtectionGate` | exits, protective stops, retries, booking of fills, recovery, the entry gate over bare exposure |
| `TrailingStop` | the trailing-stop rule |
| `DelayedEntry` | delayed strategy entries keyed by correlation id |
| `EntryGate` | process order flags, operator control, order guards |
| `Lease`, `LeaseProtocol`, `Startup` | runtime lease, fail-closed startup, teardown order |
| `Pivots`, `SupportResistance`, `Clusters` | pivot discovery, the window it is carried through, greedy level clustering |
| `Notifications`, `Cooldown` | lifecycle delivery cursor and the escalating repeat cooldown |

## Where the code does less than one would hope

Each of these is proved of the code as it stands, next to the exact condition
under which the hoped-for property does hold.

- A drop counter can be cleared although the dropped fill was not offered: a
  resumed cycle only reaches its pending mark (`ClearedBeforeOffered`,
  `ResumedCycleCoverage`); the cycle after it covers the fill
  (`CoveredTwoCyclesLater`).
- A claim that did not itself cancel the stop is released by an unconfirmed
  submission without any lookup, also when an earlier claim had canceled the
  stop (`SubmitReleasesIff`, `ReleasedWithoutLookup`, `CanceledStopIsReached`).
- A claim can exceed what remains. It fits what its trigger had read exactly
  when that was not zero (`ClaimFitsIff`): a remainder of zero falls back to the
  opened quantity, and a row closed by a fill is opened again when a close
  trigger that overlaps the fill tick gives its claim back
  (`ZeroRemainderIsClaimed`). And a row may lose quantity between the read and
  the claim (`StaleReadIsClaimed`).
- A claim can be sent more than three times, but only if another claim's unknown
  outcome was written over its row or a retry died before it was counted, at most
  two and one times more for each (`SentAtMostThreeTimes`, `SentFiveTimes`).
- A delayed entry is submitted again under the same client id when its position
  row lost that id before the pending execution was deleted: after a crash that
  follows a rejected, simulated or unprotected submission, or an accepted one
  whose fill is booked meanwhile (`SubmittedTwice`, `FilledIsSubmittedTwice`,
  `ResubmittedIff`). A crash in that window is necessary
  (`AtMostOnceOutsideWindow`).
- The trailing closed form needs a positive distance (`ClosedFormIff`), and a
  refused amendment at activation leaves the rule unactivated
  (`ActivationLatchesIff`).
- The support and resistance list loses pivots when a limit grows back within
  what was covered: an analysis over fewer candles drops the pivots around its
  own start, and a later one over more candles does not scan them again when it
  reuses the frame or when more than a few candles came in between
  (`JudgedIff`, `GrowsBackAgreesIff`). With the service's sizes: limit 200, then
  20, then 200 again at once, or after 15 to 32 candles.
- A lease reports held while it is being released (`HeldWhileReleasing`), and a
  bind that fails before it reaches the locks leaves the database lock in place
  without reporting held (`EarlyBindFailure`).
- An exception while the runtime mode is resolved is raised before orders are
  disarmed (`CreateDefaultRunner`, last clause).
- An audit event written behind the delivery cursor, or below an event the
  running tick has yet to pass, is never delivered (`PassedIsSettledIff`,
  `LateEventIsLost`, `OvertakenEventIsLost`).
- With a zero cooldown the number of deliveries is not bounded by time
  (`ZeroCooldownUnbounded`).

## Model

| member | source | states |
|---|---|---|
| `FillHistory.ScanShape` | src/daemon/execution_fill_service.py:350-396 | An uninterrupted scan returns the newest rows in order, misses no row newer than the mark, covers whole pages only, and stops at the page that holds the mark or at the end of the history. |
| `FillHistory.ScanStable` | src/exchange/client.py:336-348 | Rows that arrive at the newest end do not change what a scan below an existing row returns. |
| `FillCatchUp.ExecutionCursorStore.Checkpoint` | src/trading/execution_cursor_store.py:94-109 | Page progress is written and the committed mark kept. |
| `FillCatchUp.ExecutionCursorStore.Complete` | src/trading/execution_cursor_store.py:111-117 | The mark is committed and the cycle's cursor cleared. |
| `FillCatchUp.ExecutionFillService.IngestAndPersist` | src/daemon/execution_fill_service.py:358-396 | The body of the page loop, with its locals standing for the persisted cursor, is one page step, including the empty page, the missing bill id, a partial ingestion, a failed write and the page that does not move; which rows it hands over in each case, and that it is exhausted exactly when the page does not hold the mark. |
| `FillCatchUp.ExecutionFillService.CatchUpFills` | src/daemon/execution_fill_service.py:342-396 | A tick's loop over any script of arrivals and faults leaves the persisted state and the result of the pass it is specified by. |
| `FillCatchUpSafety.StepOutcome` | src/daemon/execution_fill_service.py:350-396 | Every page step is arrivals, then rows handed over, then at most one commit of exactly the page the cursor asked for, and it keeps the invariant up to that commit. |
| `FillCatchUpSafety.RunKeepsInv` | src/daemon/execution_fill_service.py:342-396 | The catch-up invariant (coverage, cycle equals scan, page count) survives every run of passes with arrivals, exceptions and crashes. |
| `FillCatchUpSafety.NothingLost` | src/daemon/execution_fill_service.py:342-396 | In every run, every fill newer than the starting mark and at or below the committed one was offered to ingestion, and mid-cycle so was everything from the pending mark down to the page cursor. |
| `FillCatchUpSafety.SlicingRefinesScan` | src/daemon/execution_fill_service.py:345-396 | However a cycle is cut into ticks and interrupted, its committed pages are a prefix of one uninterrupted scan of the history as it stood when the cycle began, and equal to it once the cycle is complete. |
| `FillCatchUpSafety.CycleOffersScan` | src/daemon/execution_fill_service.py:345-396 | From the page that opens a cycle through any passes with any faults and arrivals, the fills handed over lie within one uninterrupted scan of the history as it stood when the cycle began, and are exactly that scan once the cycle is complete. |
| `FillCatchUpSafety.RunKeepsTarget` | src/daemon/execution_fill_service.py:345-396 | For a running cycle, what was handed over together with what is left to read never changes, over any number of passes. |
| `FillCatchUpSafety.SplitPass` | src/daemon/execution_fill_service.py:350-396 | Two passes over a split page budget do exactly what one pass over the whole budget does. |
| `FillCatchUpSafety.CaughtUpIffIdle` | src/trading/execution_cursor_store.py:44-46 | After a pass without error, being caught up and having no cycle in progress are equivalent. |
| `FillCatchUpSafety.ServedPageMoves` | src/daemon/execution_fill_service.py:384-396 | On an append-only history the pagination guard never fires, and each further page leaves exactly one page fewer to serve. |
| `FillCatchUpSafety.PageAdvances` | src/daemon/execution_fill_service.py:350-396 | A fault-free page ends the cycle or strictly lowers the page cursor by one full page. |
| `FillCatchUpSafety.ExhaustedIff` | src/daemon/execution_fill_service.py:374-383 | A cycle that is caught up is exhausted if and only if its last page does not hold the mark it began from, and that page then reaches down to the oldest row of the history. |
| `FillCatchUpSafety.PendingIsKept` | src/daemon/execution_fill_service.py:342-396 | A running cycle keeps its pending mark and commits exactly that mark when it ends. |
| `FillCatchUpSafety.PassAdvances` | src/daemon/execution_fill_service.py:342-396 | One pass over a running cycle commits the pending mark, or leaves the cycle running with every page it served cleanly behind it, also when it ends in an exception. |
| `FillCatchUpSafety.CyclePageBound` | src/daemon/execution_fill_service.py:350-396 | A cycle reads at most N/100 + 1 pages, N being the rows at or below its pending mark, whatever arrives meanwhile. |
| `FillCatchUpSafety.CycleCompletes` | src/daemon/execution_fill_service.py:342-396 | A cycle in progress completes, committing its pending mark, by the pass in which the pages served cleanly outnumber what is left below its cursor, however the budget is cut into passes, wherever requests, ingestion and writes fail between them, and whatever arrives. |
| `PrivateStream.OKXPrivateOrderStream.Enqueue` | src/exchange/websocket.py:261-269 | Each event is counted as received and either queued at the back or, when a queue of positive size is full, counted as dropped. |
| `PrivateStream.OKXPrivateOrderStream.Drain` | src/exchange/websocket.py:109-116 | What is drained and what stays are together the old queue in order, and fewer than the limit are taken only when the queue is empty. |
| `DropReconciliation.WorkerStepsEnqueue` | src/exchange/websocket.py:261-269 | The worker's three interleavable steps amount to one enqueue. |
| `DropReconciliation.EveryEventAccounted` | src/daemon/execution_fill_service.py:156-198 | In every interleaving of worker and ticks, received equals queued plus drained plus dropped plus at most one in flight, events are drained in arrival order, and an unbounded queue drops nothing. |
| `DropReconciliation.ReconciledIffLaterPass` | src/daemon/execution_fill_service.py:156-198 | A drop stops being pending if and only if a REST pass began once it had been counted and ended caught up or with its page budget spent, without an exception; and it then stays reconciled for ever. |
| `DropReconciliation.RaisedPassClearsNothing` | src/daemon/execution_fill_service.py:161-185 | A pass that raises clears no drop: all are still pending when its tick ends, and the next tick runs another pass, due or not. |
| `DropReconciliation.NextPassIff` | src/daemon/execution_fill_service.py:143-198 | In every run a tick reports exactly the drops no pass has covered, and the next one runs a pass if and only if one is due or something was reported. |
| `DropReconciliation.PendingDropsForceRest` | src/daemon/execution_fill_service.py:143-198 | A tick that reports pending drops makes the next tick run a REST pass, due or not. |
| `DropReconciliation.FreshCycleCoversDrops` | src/daemon/execution_fill_service.py:156-198 | If a pass finds no cycle in progress, every fill then in the history has been offered by the time any later cycle completes. |
| `DropReconciliation.ResumedCycleCoverage` | src/daemon/execution_fill_service.py:342-396 | In every interleaving, up to and including the step that completes it, a resumed cycle hands over no fill newer than its pending mark, keeps that mark and commits exactly it. |
| `DropReconciliation.CoveredTwoCyclesLater` | src/daemon/execution_fill_service.py:156-198 | Coverage comes one cycle later: from any state of any run, once two more cycles have completed, every fill that was in the history has been offered. |
| `DropReconciliation.ClearedBeforeOffered` | src/daemon/execution_fill_service.py:156-198 | Two ticks from the start, for any bounded queue: a cycle left unfinished by a failing request, a full queue, the event of a new fill dropped, and a second tick that completes the old cycle, is caught up and idle and clears the drop although the fill was not offered. |
| `Pivots.PivotBase` | src/market/support_resistance.py:413-428 | A pivot carries its candle's time and extreme price and a non-negative wick ratio. |
| `Pivots.WickRatioIs` | src/market/support_resistance.py:413-428 | On a well-formed candle the wick ratio times the range is the part of the range beyond the body on the pivot's side, and lies in [0, 1]. |
| `Pivots.ExtremeByTime` | src/market/support_resistance.py:396-403 | On contiguous candles a row is extreme exactly when no candle at most the window away in time is lower, or higher. |
| `Pivots.FindFirstCandidate` | src/market/support_resistance.py:391-393 | The loop finds the first row at or after the cutoff. |
| `Pivots.JudgeRow` | src/market/support_resistance.py:396-403 | Comparing a row with the least low and greatest high of its neighbourhood finds exactly the extremes. |
| `Pivots.ScanLoop` | src/market/support_resistance.py:396-403 | The scan loop records exactly the extremes of the rows it visits, later finds replacing earlier ones. |
| `Pivots.DiscoverPivotBases` | src/market/support_resistance.py:374-410 | The pivot list, the scanned rows and the reused pivots of one analysis, for a first scan, an unchanged window and a rescan. |
| `Pivots.ScanContains` | src/market/support_resistance.py:396-408 | A scan contains a row's pivot if and only if the row lies in the scanned range and is extreme, or the pivot was there before. |
| `Pivots.FullScanAgrees` | src/market/support_resistance.py:374-410 | A full scan finds exactly the extreme rows of the window's interior. |
| `Pivots.RowCarriesOver` | src/market/support_resistance.py:374-410 | What a list says about a row stays right while the candles around it are unchanged. |
| `Pivots.IncrementalEqualsFull` | src/market/support_resistance.py:374-410 | For contiguous candles unchanged before the rescan point, the incremental list agrees with a full scan on the current window's interior. |
| `SupportResistance.MergeIsUnion` | src/market/support_resistance.py:115-120 | Merging the kept frame with a fetch that overlaps or touches it is contiguous, spans both, and takes each row from the fetch where it has one and from the frame otherwise. |
| `SupportResistance.SupportResistanceService.Analyze` | src/market/support_resistance.py:88-141 | One call, reusing, fetching a page or fetching in full: the kept frame, the coverage, the rescan point, the analysed rows and the carried pivot list. |
| `SupportResistance.AfterKeepsInv` | src/market/support_resistance.py:88-141 | Every call keeps: each entry belongs to a judged row, and on every judged row the frame still shows the list is right. |
| `SupportResistance.JudgedIff` | src/market/support_resistance.py:384-404 | Exactly which rows a fetching call leaves judged: the old ones well below its page and those it scans; the rows around the start of the analysed data are dropped without being scanned. |
| `SupportResistance.ListIsRightIff` | src/market/support_resistance.py:88-141 | After any sequence of calls with any limits, the list agrees with a full scan about a row of the analysed interior if and only if the row is judged or is no pivot. |
| `SupportResistance.AfterCovers` | src/market/support_resistance.py:95-131 | A call whose limit is not above the last one, or is above the coverage, leaves nothing unjudged that a full scan of its data could judge. |
| `SupportResistance.SlidingEqualsFull` | src/market/support_resistance.py:88-141 | Over any sequence of such calls the carried list agrees with a full scan of the current window. |
| `SupportResistance.GrowsBackAgreesIff` | src/market/support_resistance.py:88-141 | A large limit, a small one, the large one again, on candles that all look alike: the list agrees with a full scan if and only if the last call fetches and at most page - small + w candles came in between. |
| `Clusters.SortedSorts` | src/market/support_resistance.py:454-454 | The sort by kind and price is sorted (and a permutation). |
| `Clusters.GroupPivots` | src/market/support_resistance.py:450-468 | The clustering loops put each sorted pivot into the first cluster of its kind whose current mean is within the distance. |
| `Clusters.DescribeLevel` | src/market/support_resistance.py:469-496 | A level reports the kind and number of its touches, their mean price, the least age, the score, and invalidated exactly when the latest close has crossed that mean. |
| `Clusters.ClusterPivots` | src/market/support_resistance.py:450-496 | Every cluster is described by one level, and the reported prices of two levels of one kind differ by more than the distance. |
| `Clusters.OnlyNewestMatches` | src/market/support_resistance.py:454-468 | Although every cluster is searched, only the newest one can ever take the next sorted pivot. |
| `Clusters.GreedyIsRuns` | src/market/support_resistance.py:450-468 | Greedy search equals comparing with the newest cluster only; the clusters concatenated are the sorted pivots, each of one kind, kept apart by the distance. |
| `Clusters.LevelsApart` | src/market/support_resistance.py:450-489 | Two levels of the same kind differ by more than the cluster distance. |
| `Clusters.JoinsWithin` | src/market/support_resistance.py:454-468 | From the other side: every touch joined its level within the distance of the mean of the touches before it. |
| `Clusters.TouchesPartition` | src/market/support_resistance.py:450-472 | Touches sum to the number of pivots and the clusters hold each pivot exactly once. |
| `Clusters.MeanBetween` | src/market/support_resistance.py:489-489 | A level's price lies between its least and greatest touch. |
| `Clusters.MeanJoins` | src/market/support_resistance.py:458-489 | A pivot that joins moves the mean by its share; a new level starts at its price. |
| `Clusters.Score` | src/market/support_resistance.py:472-496 | Scores lie in [0, 1], an invalidated level's at or below 0.25. |
| `Clusters.ScoreWeighs` | src/market/support_resistance.py:472-496 | Below the caps a touch weighs a tenth, the volume ratio a tenth and the wick ratio a fifth, over a base of 0.2. |
| `Clusters.ScoreGrows` | src/market/support_resistance.py:472-496 | More touches, more volume or longer wicks never lower a score. |
| `Clusters.ScoreFollowsRegime` | src/market/support_resistance.py:472-496 | The market's direction raises the levels on its side by a twentieth and lowers the others as much. |
| `Clusters.BrokenIsQuartered` | src/market/support_resistance.py:472-496 | A broken level keeps a quarter of the score it had while it held. |
| `TrailingStop.TrailingRule.AdvanceTrailingRule` | src/daemon/position_manager_service.py:419-555 | One observation moves the persisted status, activation, water mark and stop case by case: stale, not started, crossed, not tighter, and tighter with the amendment applied, refused or interrupted; the stop moves exactly when a tighter one was not refused, the rule state only once it was applied. |
| `TrailingStop.TrailingClosedForm` | src/daemon/position_manager_service.py:445-555 | In a dry run over any prices with stale gaps, the stored water mark is the best fresh price since activation and the stop is the tighter of the initial stop and that mark's candidate. |
| `TrailingStop.StopTrailsMark` | src/daemon/position_manager_service.py:445-555 | There the stop of a long position is the greater of the initial one and the mark less the distance, absolute or in per cent of the mark; of a short one the lesser of the initial one and the mark plus it. |
| `TrailingStop.MarkIsBest` | src/daemon/position_manager_service.py:470-500 | That mark is attained and at least as good as every fresh price from the activating one on, and no earlier fresh price reached activation. |
| `TrailingStop.MarkStartsIff` | src/daemon/position_manager_service.py:470-500 | There is a mark if and only if some fresh price was at the activation price or past it. |
| `TrailingStop.NonPositiveNeverTrails` | src/daemon/position_manager_service.py:470-530 | Without a positive distance nothing is ever stored. |
| `TrailingStop.ClosedFormIff` | src/daemon/position_manager_service.py:445-555 | The closed form holds if and only if the distance is positive or activation was never reached. |
| `TrailingStop.AdvanceIsSafe` | src/daemon/position_manager_service.py:451-555 | Every stop the rule writes is strictly tighter than the one before and strictly on the losing side of the current price; a stale tick changes neither activation, mark nor stop. |
| `TrailingStop.LiveRunIsSafe` | src/daemon/position_manager_service.py:451-555 | Between any two points of any run, with amendments refused or cut off between the two writes, the stop never loosens, the water mark never moves back and an activated rule stays activated, for both sides. |
| `TrailingStop.AmendmentDecides` | src/daemon/position_manager_service.py:530-555 | From any state the stop moves if and only if the observation asks for a tighter one that is not crossed and its amendment was not refused, and then to the candidate; status, activation and mark are then written if and only if it was applied. |
| `TrailingStop.StopWasAmended` | src/daemon/position_manager_service.py:530-555 | So every stop of every run is the initial one or the candidate of some observation whose amendment was not refused. |
| `TrailingStop.WaterWasObserved` | src/daemon/position_manager_service.py:470-500 | Over any run the water mark is the price of some fresh observation. |
| `TrailingStop.ActivationLatchesIff` | src/daemon/position_manager_service.py:516-555 | A price that reaches activation latches the rule if and only if it is not crossed by its own candidate and no needed amendment fails. |
| `Cooldown.Clamped` | src/notifications/repeat_cooldown.py:18-30 | A negative cooldown becomes zero, an escalation count below one becomes one, a maximum below the cooldown becomes the cooldown; everything else is kept. |
| `Cooldown.RepeatCooldownTracker.IsReady` | src/notifications/repeat_cooldown.py:32-40 | Ready exactly when not muted and never sent or sent at least the required gap ago. |
| `Cooldown.RepeatCooldownTracker.RecordSent` | src/notifications/repeat_cooldown.py:42-45 | The send time is replaced and the count raised by one, for this fingerprint only. |
| `Cooldown.RepeatCooldownTracker.Mute` | src/notifications/repeat_cooldown.py:47-49 | The fingerprint joins the muted ones, nothing else changes. |
| `Cooldown.GapsEscalate` | src/notifications/repeat_cooldown.py:51-55 | Gaps never shrink and stay between the cooldown and the maximum. |
| `Cooldown.GapDoubles` | src/notifications/repeat_cooldown.py:51-55 | Before escalation the gap is the cooldown; from then on each gap is twice the one before, up to the maximum. |
| `Cooldown.GapsSaturate` | src/notifications/repeat_cooldown.py:51-55 | With a positive cooldown every gap is the maximum from a computable number of sends on. |
| `Cooldown.DeliveriesSpaced` | src/notifications/repeat_cooldown.py:32-45 | In any run of attempts and mutes, consecutive deliveries of a fingerprint are at least the required gap apart. |
| `Cooldown.DeliversIff` | src/notifications/repeat_cooldown.py:32-45 | In any run an attempt goes through if and only if its fingerprint was never muted and the gap its deliveries so far require has passed since the last of them. |
| `Cooldown.SpacedRate` | src/notifications/repeat_cooldown.py:25-55 | Any times spaced by the gaps span at least their sum, and beyond a constant number come no faster than one per maximum gap. |
| `Cooldown.DeliveryRate` | src/notifications/repeat_cooldown.py:25-55 | So n deliveries take at least the first n-1 gaps, and sends in time T are bounded by a constant plus T divided by the maximum gap. |
| `Cooldown.ZeroCooldownUnbounded` | src/notifications/repeat_cooldown.py:25-55 | With a zero cooldown any number of deliveries fits into one instant. |
| `Cooldown.MutedIsSilent` | src/notifications/repeat_cooldown.py:32-49 | A muted fingerprint is never ready and never delivered again. |
| `DelayedEntry.StrategyService.RecordSubmission` | src/trading/entry_submission.py:97-227 | A rejection fails the row and clears its id, an accepted order is linked, a simulated fill completes the row and clears its id, an unprotected fill replaces the id by the emergency close's; only while the row still carries this id. |
| `DelayedEntry.StrategyService.ProcessDue` | src/daemon/strategy_service.py:374-453 | One due execution performs exactly the step list look up, write the intent, submit, record, delete, or its shortened forms: it is deleted unless it raised, submitted once exactly when no row carried its id and its conditions held, and adds at most its own row. |
| `DelayedEntry.StrategyService.ProcessDueExecutions` | src/daemon/strategy_service.py:364-453 | All due executions of a tick are processed in order, an exception in one leaving the others; only those that raised stay pending, and nothing that was not due is touched. |
| `DelayedEntry.PathEffect` | src/daemon/strategy_service.py:613-651 | The interleavable steps of a due execution, uninterrupted, have one closed persisted effect for every outcome: linked, blocked, conditions failed, submitted or raised. |
| `DelayedEntry.NextKeepsInv` | src/daemon/strategy_service.py:374-385 | Every write, crash and foreign rewrite keeps: at most one call per id and a linked row while a called execution is pending, unless the row lost its id. |
| `DelayedEntry.SubmittedTwiceOnlyIfUnlinked` | src/daemon/strategy_service.py:374-385 | Over all runs, `executor.execute` is called twice for an id only if its position row lost that id while the execution was pending. |
| `DelayedEntry.LinkedIsNotResubmitted` | src/daemon/strategy_service.py:374-385 | While a row carries the id, no number of ticks and crashes of the service submits it again. |
| `DelayedEntry.ResubmittedIff` | src/daemon/strategy_service.py:374-385 | A pending execution can be submitted again if and only if no position row carries its id. |
| `DelayedEntry.SubmittedTwice` | src/trading/logical_position_store.py:1301-1368 | After a rejected, simulated or unprotected submission and a crash before the pending row is deleted, the next tick submits the same id again. |
| `DelayedEntry.FilledIsSubmittedTwice` | src/trading/logical_position_store.py:1427-1465 | So does an accepted entry: after the crash its fill completes the order, the completed order's id is cleared, and the next tick submits the entry again. |
| `DelayedEntry.AtMostOnce` | src/daemon/strategy_service.py:374-385 | In every run in which no row loses its id while its execution is pending, each id is submitted at most once. |
| `DelayedEntry.AtMostOnceOutsideWindow` | src/daemon/strategy_service.py:374-453 | In every run that never crashes between a submission and the deletion of its pending execution, each id is submitted at most once, whatever is reported and whoever rewrites rows. |
| `Lease.Needed` | src/runtime/lease.py:91-103 | A lease needs its database and, once bound, its account, account first. |
| `Lease.Without` | src/runtime/lease.py:121-133 | The lock table once one owner's locks are gone. |
| `Lease.LockTable.TryLock` | src/runtime/lease.py:151-167 | A lock is taken if and only if nobody has it. |
| `Lease.LockTable.Unlock` | src/runtime/lease.py:203-212 | Exactly that lock is freed. |
| `Lease.RuntimeLease.HeldOwnsAll` | src/runtime/lease.py:82-85 | A lease whose lock count is the expected one owns its database and its account. |
| `Lease.RuntimeLease.Release` | src/runtime/lease.py:121-133 | All of the lease's locks are freed and nobody else's. |
| `Lease.RuntimeLease.TakeMissing` | src/runtime/lease.py:98-104 | The missing locks are taken in order; it succeeds exactly when nobody else has one and no file fails to open. |
| `Lease.RuntimeLease.Acquire` | src/runtime/lease.py:87-111 | Succeeds if and only if already held, or every needed lock is available and no trouble is met; a failure while taking locks leaves no lock, other owners are untouched. |
| `Lease.RuntimeLease.BindAccountScope` | src/runtime/lease.py:113-119 | Rejected exactly for an empty or a different scope; success keeps the database lock throughout, failure while taking locks leaves none. |
| `LeaseProtocol.NextKeepsInv` | src/runtime/lease.py:82-133 | In every interleaving each lease's own list mirrors the lock table. |
| `LeaseProtocol.AcquireAlone` | src/runtime/lease.py:87-111 | The interleavable steps, run alone, do what the acquire method promises: held if and only if everything needed is available, otherwise nothing owned. |
| `LeaseProtocol.MutualExclusion` | src/runtime/lease.py:82-133 | In every interleaving of creating, acquiring, binding, releasing and dying, no two leases that report held and are not inside release share a database or an account. |
| `LeaseProtocol.HeldWhileReleasing` | src/runtime/lease.py:121-133 | Inside release a lease still reports held, and a second one can become held for the same database. |
| `LeaseProtocol.FailureLeavesNoLock` | src/runtime/lease.py:108-111 | In every interleaving, an acquisition that fails at a file, a conflict or the metadata ends, once its release has run, with no lock owned and none listed, whatever the other leases do meanwhile. |
| `LeaseProtocol.LockIsKept` | src/runtime/lease.py:113-119 | A lock stays with its owner through any interleaving in which the owner neither releases nor dies, so a bind never gives up the database on the way. |
| `LeaseProtocol.EarlyBindFailure` | src/runtime/lease.py:87-119 | A bind that fails before the locks leaves the database lock owned and held not reported. |
| `EntryGate.OrderGate.ArmOrderPlacement` | src/exchange/client.py:49-55 | Arms only after a passed preflight, otherwise raises and changes nothing. |
| `EntryGate.OrderGate.EnableEntryOrderPlacement` | src/exchange/client.py:58-64 | Enables entries only while armed, otherwise raises. |
| `EntryGate.OrderGate.DisableEntryOrderPlacement` | src/exchange/client.py:67-71 | Clears the entry flag and keeps the armed flag. |
| `EntryGate.OrderGate.DisarmOrderPlacement` | src/exchange/client.py:78-83 | Clears both flags. |
| `EntryGate.OrderGate.GuardEntry` | src/exchange/client.py:424-455 | The guards pass exactly for an armed, enabled process and a well-formed, confirmed order. |
| `EntryGate.OrderGate.GuardClose` | src/exchange/client.py:507-530 | The guards of a reduce-only order pass exactly for an armed process and a confirmed order with a valid side, a positive size and a valid client id. |
| `EntryGate.EntryControlManager.EnableEntries` | src/trading/entry_control.py:68-89 | Whatever fails after the limits check leaves the process flag off; success means armed, enabled and persisted. |
| `EntryGate.EntryControlManager.CancelEntry` | src/trading/entry_control.py:113-172 | The exchange is asked to cancel exactly the known, live, not yet requested orders of an armed process, once each, and looked up only where no order is linked. |
| `EntryGate.FateOf` | src/trading/entry_control.py:113-172 | An entry counts as requested or unmarked if and only if a cancellation was accepted for it in this kill, as requested if and only if the store also marked it, as already requested or terminal exactly when that was known before or found. |
| `EntryGate.SecondKillAsksIff` | src/trading/entry_control.py:113-172 | A later kill asks for an order again if and only if its first cancellation was not both accepted and marked. |
| `EntryGate.EntryControlManager.CancelPending` | src/trading/entry_control.py:102-172 | The counters and the unmarked cancels partition the pending entries, with one error per unresolved one. |
| `EntryGate.EntryControlManager.KillEntries` | src/trading/entry_control.py:91-195 | Kill always clears the process flag and keeps arming, whatever fails afterwards, and reports the partition. |
| `EntryGate.EntriesImplyArmed` | src/exchange/client.py:44-83 | Over any sequence of operations the entry flag implies the armed flag. |
| `EntryGate.ArmedIff` | src/exchange/client.py:49-83 | The armed flag is on if and only if an arming after a passed preflight came after the last disarm. |
| `EntryGate.FlagIff` | src/exchange/client.py:44-83 | The entry flag is on if and only if an enabling while armed came after the last disarm, disable, kill or failed enable. |
| `EntryGate.EntryPassesIff` | src/exchange/client.py:424-455 | An entry order passes if and only if it is well formed and such an enabling exists. |
| `EntryGate.KillKeepsCloses` | src/exchange/client.py:507-530 | A kill blocks every entry and changes nothing for reduce-only orders. |
| `Startup.DaemonRunner.Register` | src/daemon/service.py:60-72 | A name is registered at most once, in order. |
| `Startup.DaemonRunner.SetupServices` | src/daemon/service.py:117-142 | Raises if and only if a required service fails in a first setup, and then everything is torn down, disarmed and unlocked; otherwise exactly the failing optional services are inactive, the others were set up in order, and a second setup does nothing. |
| `Startup.DaemonRunner.TearService` | src/runtime/lease.py:244-249 | The lease service disarms, then releases; other services touch neither. |
| `Startup.DaemonRunner.TeardownServices` | src/daemon/service.py:144-158 | Services come down newest first, then the callbacks run; with the lease among them orders are disarmed and no lock is left. |
| `Startup.AcquireAndPreflight` | src/daemon/runtime.py:104-124 | Succeeds exactly when locks, risk store, preflight and account binding all succeed, and the lease is then held. |
| `Startup.RegisterAll` | src/daemon/runtime.py:126-185 | Every service is registered in order, or the construction step that fails raises. |
| `Startup.BuildAndArm` | src/daemon/runtime.py:125-206 | Succeeds exactly when every service comes up; orders are then armed if and only if the mode submits orders and preflight passed, entries stay off. |
| `Startup.CreateDefaultRunner` | src/daemon/runtime.py:41-216 | With an exception possible at every step: returns exactly when all steps succeed, with the lease held, entries off and orders armed as above; otherwise raises with orders disarmed and no lock, except exactly when mode resolution failed on a process whose flags were not safe. |
| `Startup.LeaseReleasedLast` | src/daemon/service.py:144-158 | With the lease registered first, its release is the last teardown event, after every other service and after disarming. |
| `Startup.LeaseIsRegisteredFirst` | src/daemon/runtime.py:127-185 | Every mode registers the lease first and only once. |
| `Startup.ServicesIff` | src/daemon/runtime.py:126-185 | Which service is registered in which mode. |
| `Startup.ServicesInOrder` | src/daemon/runtime.py:126-185 | In every mode the services are registered in one and the same order. |
| `Startup.OptionalServices` | src/daemon/runtime.py:126-185 | Outside a simulation every required service is registered, and only market intelligence, the position intents and the notifications may fail without ending the startup. |
| `Startup.StrategyIff` | src/daemon/runtime.py:160-180 | The strategy runs exactly when asked for, in a mode that may enter, and after a passed preflight. |
| `ExitManager.PositionManagerService.ClaimExit` | src/daemon/position_manager_service.py:865-986 | The quantity is checked on the row the trigger had read; the claim is granted exactly when that check passes and the row is open now, and fixes a fresh client id and the quantity. |
| `ExitManager.PositionManagerService.ReleaseClaim` | src/trading/logical_position_store.py:1221-1254 | A claim is given back, whatever the row became meanwhile, exactly when no later claim wrote it. |
| `ExitManager.PositionManagerService.CancelForClose` | src/daemon/position_manager_service.py:988-1046 | Before a cancellation is sent: whether the trigger is over, waits for the exchange or may submit, and when the claim is given back or the entry gate closed. |
| `ExitManager.CancelDecides` | src/daemon/position_manager_service.py:988-1046 | In any state: only an active and verified stop is asked for, only no stop or one that is gone lets the exit go on, the trigger is over otherwise, and the gate closes exactly over a stop whose cancellation was begun or lost. |
| `ExitManager.CancelLeaves` | src/daemon/position_manager_service.py:988-1046 | The row it leaves: as it was, marked as being canceled, or with the claim given back. |
| `ExitManager.PositionManagerService.AwaitCancel` | src/trading/position_protection.py:705-774 | The exchange's answer: a stop that is gone or lost closes the gate, the latter with the claim given back; one still in place is active again. |
| `ExitManager.PositionManagerService.SendExit` | src/daemon/position_manager_service.py:1048-1055 | One submission is logged; the exchange accepts a client id at most once and an order id comes back only for an order just accepted. |
| `ExitManager.PositionManagerService.SubmitExit` | src/daemon/position_manager_service.py:1048-1140 | A confirmed order is linked whatever became of the row, an unconfirmed one becomes unknown if this claim took the stop and is given back otherwise; a death between the order and these writes is a step of its own. |
| `ExitManager.PositionManagerService.HandleCloseTrigger` | src/daemon/position_manager_service.py:850-1170 | A trigger, with any others in flight, performs the steps read, claim, cancel, answer, gate and submit, and its result is determined by the row it found and the answers it got. |
| `ExitManager.PositionManagerService.RestoreProtection` | src/daemon/position_manager_service.py:1422-1443 | The stop is active again, or entries are disabled, or an exception leaves the tick. |
| `ExitManager.PositionManagerService.ResolveUnknownClose` | src/daemon/position_manager_service.py:1387-1420 | Unresolved exactly when there is no client to ask or the exchange has not exactly one order; a found order with an id is linked, and a lookup that raises changes nothing. |
| `ExitManager.PositionManagerService.GiveUp` | src/daemon/position_manager_service.py:1317-1344 | After three attempts: nothing is sent; a row whose order is not there is open without a client id and its stop restored, refused behind a closed gate, or left by an exception. |
| `ExitManager.PositionManagerService.Resend` | src/daemon/position_manager_service.py:1346-1385 | One order under the claim's own client id and quantity, and the attempt is counted whether or not it was confirmed. |
| `ExitManager.PendingIsRetried` | src/daemon/position_manager_service.py:1056-1140 | The row of a claim, full or partial, is picked up by the retry loop if and only if its stop was taken and its order was not confirmed. |
| `ExitManager.PositionManagerService.RetryUnknown` | src/daemon/position_manager_service.py:1300-1420 | Below three attempts one order goes out with the claim's own id and quantity and the attempt counts; from three on nothing is sent and the exchange is asked, which recovers the row, links the order or leaves it. |
| `ExitManager.PositionManagerService.RetryUnknownCloses` | src/daemon/position_manager_service.py:1271-1385 | The retry loop is the run of the retry steps of its rows, up to an exception that escapes. |
| `ExitRetries.RetryCounts` | src/daemon/position_manager_service.py:1346-1381 | In any state a retry with attempts left sends the claim's order once and counts it, one without sends nothing. |
| `ExitRetries.AsksByTheFourth` | src/daemon/position_manager_service.py:1300-1385 | A row of unknown outcome that only retries touch is looked up at the latest by its (4 - attempts)-th retry, whatever is lost. |
| `ExitRetries.SentAtMostThreeTimes` | src/daemon/position_manager_service.py:1056-1385 | Over all runs a claim is sent at most three times, the first submission included, plus two for each time another claim's unknown outcome is written over its row and one for each retry that dies uncounted; and at that bound its retries only ask. |
| `ExitRetries.SentFiveTimes` | src/daemon/position_manager_service.py:1056-1140 | A run from the start in which such an overwriting makes one close go out five times. |
| `ExitSafety.NextKeepsInv` | src/daemon/position_manager_service.py:568-627 | Every step of any number of overlapping triggers, of the retry loop, the fill service, an operator or a crash keeps the claim invariant. |
| `ExitSafety.OneIntentPerClaim` | src/daemon/position_manager_service.py:947-1061 | Over all runs, with triggers of request threads overlapping ticks and each other, and deaths between an order's acceptance and the write that records it: every order sent, first or retried, is the one its claim asked for, the same position and positive quantity each time, and at most one per claim is accepted. |
| `ExitSafety.ClaimFitsIff` | src/daemon/position_manager_service.py:865-874 | Every claim of every run is positive and fits what was read, strictly for a reduce, if and only if that was not zero; so while the row holds what was read it fits what remains if and only if something remains, and a full close fits if and only if the row lost nothing since it was read. |
| `ExitSafety.ReleasedOnlyAfterLookup` | src/daemon/position_manager_service.py:1387-1420 | A claim that took its stop away and has no linked order returns to open only through a lookup that did not find exactly one order, or an empty one past the stale age; never one that raised, and never through another trigger. |
| `ExitSafety.ReleaseNeedsLookup` | src/daemon/execution_fill_service.py:657-691 | The same in every state any run, with any overlap, can reach. |
| `ExitSafety.SubmitReleasesIff` | src/daemon/position_manager_service.py:1056-1140 | An unconfirmed submission gives an unlinked claim back if and only if that claim did not take a stop away itself. |
| `ExitBooking.QuantitiesAreConserved` | src/trading/logical_position_store.py:1974-2039 | Between any two states of any run, what was opened of a position grew by exactly the fills booked as bought and what remains by those less the fills booked as sold, never more than there was; claims, releases, retries, recoveries and crashes move no quantity. |
| `ExitBooking.ClosesIff` | src/trading/logical_position_store.py:1384-1400 | Over all runs an active row closes in a step if and only if that step books the fill of all that was left or finds the order of an exit over with nothing left; a closed one becomes active again only through a trigger. |
| `ExitBooking.NextClaimIff` | src/trading/logical_position_store.py:1974-2039 | After a fill that leaves something the next claim is granted if and only if it was a reduce and the claim fits what its trigger read: a partly filled close keeps other exits out. |
| `ExitBooking.UnlinkedIff` | src/trading/logical_position_store.py:1427-1465 | A fill of the row's own order unlinks it if and only if it was a reduce or nothing is left; other orders' fills leave the link alone. |
| `ExitBooking.SubmittedIsLinked` | src/trading/logical_position_store.py:1256-1300 | Over all runs an exit recorded as submitted is linked to its exchange order. |
| `ExitBooking.RearmedOrShut` | src/daemon/execution_fill_service.py:865-925 | A fill or terminal order that leaves a position open whose stop was canceled or fired protects it in the same step, closes the gate, or leaves the tick by an exception. |
| `ExitRuns.ZeroRemainderIsClaimed` | src/daemon/position_manager_service.py:568-590 | A run from the start: an operator's close overlaps the fill tick that books the stop's fill, the refused order reopens the closed row, and the next close is granted for the opened quantity although nothing remains. |
| `ExitRuns.StaleReadIsClaimed` | src/daemon/position_manager_service.py:568-590 | A run from the start: a close that read the row before a reduce was booked is granted for more than remains. |
| `ExitRuns.ReleasedWithoutLookup` | src/daemon/position_manager_service.py:1062-1066 | A position whose stop an earlier claim took away is reopened bare, with the order possibly accepted, without any lookup. |
| `ExitRuns.CanceledStopIsReached` | src/daemon/position_manager_service.py:1048-1140 | A run from the start that reaches such a position. |
| `ProtectionGate.NextKeepsGate` | src/daemon/position_manager_service.py:992-1031 | Every step keeps: outside a fill tick, without operator enable or escaped exception since the last one, a position with something remaining and no active stop means entries are off if a complete tick has seen it or Maybech took its stop away, except while the trigger that takes it is about to close the gate. |
| `ProtectionGate.ExposureKeepsGateShut` | src/daemon/position_manager_service.py:1422-1443 | Over all runs from startup, however triggers overlap ticks and each other, with crashes and deaths between any two writes. |
| `ProtectionGate.VerifiedOrShut` | src/daemon/execution_fill_service.py:927-957 | Over all runs: when a fill tick that verified a stop completes with entries on, and no operator enabled them since, the exchange had confirmed that stop or a new one was placed in that tick. |
| `FillRecovery.ExecutionFillService.ReconcileUnlinked` | src/daemon/execution_fill_service.py:640-716 | An exit with a client id and no order: linked when found, recovered and protected again when an empty lookup is past the stale age, left alone otherwise. |
| `FillRecovery.ExecutionFillService.ReconcilePendingOrders` | src/daemon/execution_fill_service.py:640-716 | The loop over the pending exits performs their lookups in order, up to an exception that escapes. |
| `FillRecovery.ExecutionFillService.VerifyProtection` | src/daemon/execution_fill_service.py:927-957 | An open position with exposure: a triggered stop closes the gate; an active one the exchange confirmed is left alone; any other is protected again, closes the gate when that is refused, or ends the tick. |
| `FillRecovery.ExecutionFillService.ReconcileOwnedProtections` | src/daemon/execution_fill_service.py:927-957 | The loop over all open positions: when it completes with entries on, the stop of every one with exposure was confirmed or placed again. |
| `FillRecovery.ExecutionFillService.RearmProtectionIfNeeded` | src/daemon/execution_fill_service.py:865-925 | An open position whose stop was canceled or triggered is protected again, or entries are disabled. |
| `FillRecovery.ExecutionFillService.RecoverAndTrack` | src/daemon/execution_fill_service.py:167-198 | A tick's recovery performs its steps in order; when it completes with entries on, every position that was open after the lookups had its stop confirmed or placed again in this tick and no active position with exposure lacks an active stop; otherwise it ended at an escaped exception. |
| `FillRecovery.ExecutionFillService.TrackProtectionGaps` | src/daemon/execution_fill_service.py:959-1021 | The gap loop over the active rows, with its skip conditions, ends the tick: entries stay on if and only if they were and no active position with exposure lacks an active stop. |
| `FillRecovery.GapsAreDated` | src/daemon/execution_fill_service.py:972-988 | Every gap is counted and dated from when it was first seen. |
| `FillRecovery.OldestGapIsFound` | src/daemon/execution_fill_service.py:988-991 | The reported age is the greatest of the gaps' ages. |
| `FillRecovery.OverdueGapsAreAlertedOnce` | src/daemon/execution_fill_service.py:992-1017 | A gap is alerted if and only if it is overdue and never was alerted, and once. |
| `Notifications.LifecycleNotificationService.DeliverOn` | src/daemon/lifecycle_notification_service.py:246-278 | One channel performs the try and acknowledge steps: it sends exactly when enabled, still owing and answering, acknowledges exactly what was sent or suppressed, and is settled exactly when disabled or acknowledged. |
| `Notifications.LifecycleNotificationService.Deliver` | src/daemon/lifecycle_notification_service.py:225-279 | An event is delivered exactly when it is unclassified, stale, or acknowledged on every enabled channel; which sends and acknowledgements that takes is fixed by the answers, and a failed send or a channel that backs off leaves none. |
| `Notifications.LifecycleNotificationService.AdvanceCursor` | src/trading/audit_event_store.py:633-655 | The cursor moves to the event and the acknowledgements it covers are dropped. |
| `Notifications.LifecycleNotificationService.Tick` | src/daemon/lifecycle_notification_service.py:192-196 | A tick is the run of its events' steps in order, advancing the cursor to the last settled one and stopping at the first event an enabled channel still owes. |
| `Notifications.CursorPassesOnlySettled` | src/daemon/lifecycle_notification_service.py:192-279 | Over all runs, an event is passed only if unclassified, seen stale, or acknowledged on every enabled channel, unless it was written behind the cursor or below the snapshot of the very tick that passed it. |
| `Notifications.SentWasTried` | src/daemon/lifecycle_notification_service.py:246-278 | Over all runs every send is of a classified event that was being delivered, on an enabled channel that owed it, by a try that succeeded. |
| `Notifications.AcknowledgedWasSent` | src/daemon/lifecycle_notification_service.py:262-278 | Over all runs an acknowledged event was sent on that channel, or a try of it was suppressed; a failed send acknowledges nothing. |
| `Notifications.PassedWasTold` | src/daemon/lifecycle_notification_service.py:192-279 | So the cursor passes a classified event within sight only if a visit found it stale, or every enabled channel has sent or suppressed it. |
| `Notifications.PassedIsSettledIff` | src/daemon/lifecycle_notification_service.py:192-279 | That exception is exact: a classified event the cursor has passed is settled if and only if it was within sight. |
| `Notifications.BehindIsSkipped` | src/trading/audit_event_store.py:574-603 | An event behind the cursor is never sent, acknowledged or judged stale. |
| `Notifications.LateEventIsLost` | src/trading/audit_event_store.py:574-603 | A classified event inserted behind the cursor stays unsettled for ever. |
| `Notifications.OvertakenEventIsLost` | src/trading/audit_event_store.py:574-655 | So does one inserted ahead of the cursor while the running tick is about to pass a later event. |
| `Notifications.SendsInOrder` | src/daemon/lifecycle_notification_service.py:225-279 | Over all runs each channel's successful sends are in event order except for events inserted below existing ones, and one repeats only if a crash fell between an earlier send and its acknowledgement. |

## Left out

- FastAPI routes, schemas, the frontend, the launcher and the scripts: plumbing that would only add easy members.
- OKX transport and signing, LINE and e-mail transport, SQLite and file I/O: their outcomes are parameters, and each persisted write is atomic.
- The signal engine, the risk guard, the allocator, market intelligence, BTC regime and the action policy.
- What becomes of an offered fill: the notion is that it was handed to ingestion, because unmatched fills are counted and passed over (src/daemon/execution_fill_service.py:417-419).
- Expiry of the exchange's fill history and rows inserted out of order: the history is append-only and bill ids are ordered integers.
- Break-even moves and take-profit trailing, tick-size rounding of amended stops, and floating-point rounding everywhere.
- The emergency-close retry loop after an unprotected entry; only its claim of the position row is modelled.
- Exits in simulation and the live-safe mode, where order mutations are off: there is no claim to reason about.
- Interleavings inside one call to a store, inside the booking of one fill (allocation, order tracking and stop record) and inside the loop over protection gaps that ends a fill tick: each is one step. The retry loop and the loop that verifies stops act on a row as it is when its turn comes. When a channel's retry is due is a parameter of its try.
- Client ids are fresh by construction instead of random, and the exchange rejects an id it has seen.
- List limits of the stores (500 rows or events per query), except that a notification tick may see any prefix.
- Candle times are counted in bar intervals; gaps and missing timestamps; what the candle cache returns (src/data/candles.py) is an input that is contiguous, touches the kept frame and repeats known rows below the requested page; the cache of finished answers and the eviction of market windows; level sorting and truncation to the strongest levels.
- Audit events that exist before the delivery cursor is first set: runs begin with an empty store.
- Lock-file name collisions, errors of the unlock call itself, and exceptions outside `Exception` during startup.
- A failing construction of the exchange client inside the kill loop.
