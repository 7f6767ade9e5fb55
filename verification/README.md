# Verification models of the hybrid trading bot

Dafny models of the parts of the repository whose behaviour is hard to see from any one function,
and proofs of what they promise.

1. **The engine's pipeline** (`Ingest`, `Strategy`, `Execution`, `Persist`, `Pipeline`,
   `PipelineLaws`, `PipelineDrops`, `PipelineOverflow`, `PipelineRecords`, `PipelineStorage`). Four tasks and three
   bounded channels, for a file replay. One action is one poll of one task up to its next channel
   operation, so every interleaving of channel operations is a sequence of actions; exit 13 is an
   absorbing state. Proved of every schedule: determinism, conservation of ticks, signals and persist
   events, bounded channels, what is lost when one is full, shutdown order; and of every fair infinite
   schedule: the run ends, and drains once ingest has ended; with room in the channels what it
   persists is a function of the file. Every signal is traced to the tick and the crossing it reports,
   every stored event to the insert that succeeded. The bodies of the four tasks are methods and classes
   proved against the functions the step relation is built from.
2. **The shadow trading loop** (`RateLimiter`, `RateClock`, `ReturnModel`, `RiskRules`, `StaleEdge`, `ShadowRun`,
   `ShadowLaws`, `ShadowGates`). The sliding-window limiter is a greedy admission that no rival beats; the evicting
   return model is indistinguishable from one that forgets nothing; over a whole run the orders stay
   within the exposure caps and the per-minute limits, nothing follows a feed abort, and every journalled
   reason is given exactly when its gate says so.
3. **Kalshi order books** (`StableSort`, `Levels`, `KalshiBook`, `KalshiLaws`, `KalshiUnits`,
   `KalshiRust`, `KalshiAgreement`, `ThinBook`). The Python and the Rust normaliser: independence of
   level order, soundness of OK, thresholds that only gate, exactly when the unit does not matter, and
   exactly when the two implementations see the same market.
4. **The soak controller** (`SoakController`, `SoakLaws`, `StallDetector`). The throttle ladder, the
   pressure abort and stall detection as state machines over whole runs; a run's end and each of its
   restarts are traced to the exit codes and readings that caused them.
5. **Search and cursors** (`Paging`, `ProbeCache`, `ClobSelection`, `ProbeSession`). Keyset paging of
   a table that may grow between polls, the probe cache over whole histories, ranked candidate
   selection, and the selection probing through the cache.

Prices, sizes and exposures are `real`, timestamps in milliseconds are `int`. Wherever a result
needs a clock that does not run backwards, its precondition says so. For the limiter
`ClockMustNotRunBack` shows that some assumption is needed, and `BoundedWithoutRebound` that a much
weaker one, which small steps back of a wall clock meet, is enough.

`dafny verify dfyconfig.toml` checks the whole project.

## Where the code and its own texts disagree

The models follow the code.

- `shared/venue_book.py:41-45` says its classifier matches the Rust one exactly. It sums all levels
  where Rust sums the top three: `NotAnExactMatch` gives a book on which they differ, and
  `ClassifiersRelate` says exactly when they do.
- `engine-rust/src/main.rs:208-213` logs a drop-oldest policy. The code loses the newest signal:
  `NewestIsDropped` says so of every step of every run, `DroppedAtFullChannel` of every lost signal,
  and `NewestLostWitness` is a run in which it happens. A tick that finds a full channel is not
  dropped silently either: the process exits with code 13 (`IngestBounds`).
- A Kalshi book in cents is recognised only when all deciding prices lie above 1 cent
  (`venues/kalshi.py:114-123`). One level at 1 cent or below makes it ambiguous beside dearer levels,
  and a book with nothing dearer is taken for dollars. `KalshiUnits.UnitInvarianceIff` says exactly
  when the result still does not depend on the unit, for every book, and `OneCentBreaksInvariance` is
  one for which it does. The engine's parser always reads cents: `KalshiAgreement.AgreeIff` says
  exactly when the two see the same market, for every payload of two bid sides, and
  `OneCentDisagreement` are payloads on which they do not.

## Model

| member | source | states |
|---|---|---|
| Strategy.OnPriceRefines | engine-rust/src/strategy.rs:42-108 | the 20-price window and one previous difference suffice: one loop pass gives the signal that the whole price history determines, and re-establishes its own state |
| Strategy.OnTick | engine-rust/src/strategy.rs:43-108 | the loop body computes that pass |
| Strategy.RunStrategyTask | engine-rust/src/strategy.rs:27-160 | the strategy task generates exactly the signals of the price history and counts each; the k-th one carries the side, symbol and time of the k-th tick that crosses, with confidence 0.75 and size 0.1 |
| Strategy.DiffIs | engine-rust/src/strategy.rs:56-85 | once 20 prices are there, the difference is the mean of the last 5 minus the mean of the last 20 |
| Strategy.SideAtIff | engine-rust/src/strategy.rs:85-108 | a tick gives BUY iff 20 prices came before it and the difference went from at most 0 to above, SELL iff from at least 0 to below |
| Strategy.SignalPositions | engine-rust/src/strategy.rs:110-124 | the signals of a history belong to increasing tick positions, one for each crossing and none besides, each with its tick's symbol, time and side, confidence 0.75 and size 0.1 |
| Strategy.SignalsPrefix | engine-rust/src/strategy.rs:42-154 | later ticks never revoke or reorder an earlier signal |
| Strategy.AffineSymmetry | engine-rust/src/strategy.rs:43-114 | mapping every price p to a*p + b keeps the signal of every tick for a > 0, swaps its side for a < 0, removes it for a = 0 |
| Strategy.RunAffineSymmetry | engine-rust/src/strategy.rs:42-153 | the same for the signal records of whole runs |
| Strategy.LeansUntilNext | engine-rust/src/strategy.rs:85-108 | from a BUY until the next signal the difference never goes below zero; from a SELL never above |
| Strategy.NextSignal | engine-rust/src/strategy.rs:56-95 | after a signal the next one is the opposite side exactly when the difference takes the opposite sign, and the same side again exactly when the difference was 0 just before and has left 0 on that side |
| Execution.ExposureTracker.TryAdd | engine-rust/src/execution.rs:32-66 | a signal passes all three caps and is recorded, or the tracker stays as it was |
| Execution.AdmittedIff | engine-rust/src/execution.rs:32-66 | a signal passes iff total, symbol figure and count stay at or below the three caps, and then raises each by its share and no other symbol's figure |
| Execution.ExposureTracker.Free | engine-rust/src/execution.rs:69-77 | a release lowers the three figures of its symbol and order |
| Execution.LedgerAccounts | engine-rust/src/execution.rs:32-77 | after any submissions and closes the tracker's total, per-symbol figures and count are exactly those of the open orders |
| Execution.LedgerWithinCaps | engine-rust/src/execution.rs:32-77 | with nonnegative notionals all three caps hold after every event |
| Execution.TotalIsSymbolSum | engine-rust/src/execution.rs:57-77 | the per-symbol entries sum to the total |
| Execution.FlatWhenNothingOpen | engine-rust/src/execution.rs:68-77 | with nothing open every figure is zero |
| Execution.FlatRoundTrip | engine-rust/src/execution.rs:195-235 | a signal recorded, filled and released leaves a flat tracker flat, and passes exactly when it fits the caps on its own |
| Execution.RunExecutionTask | engine-rust/src/execution.rs:169-243 | the execution task executes exactly the signals that fit on their own, in order, and offers for each one a filled shadow order and a trade with the signal's symbol, side, size and time |
| Execution.RecordsAre | engine-rust/src/execution.rs:121-152 | the k-th executed signal gives the k-th pair of records: a filled order without a price and a trade at 100 with a fee of a tenth of the size, both shadow, with the signal's symbol, side, size and time |
| Persist.PersistTask.FlushBatch | engine-rust/src/persist.rs:75-118 | a flush attempts the whole buffer in order and empties it; it stores exactly the events whose insert succeeded, in order, raises the success counter by their number and the error counter by the others' |
| Persist.FlushExactly | engine-rust/src/persist.rs:75-109 | the same for the state machine's flush |
| Persist.ReceiveIs | engine-rust/src/persist.rs:42-47 | below 100 buffered events a received one is only appended; with the hundredth the buffer is flushed |
| Persist.PersistTask.OnEvent | engine-rust/src/persist.rs:42-47 | an event is buffered, and the batch flushed at 100 |
| Persist.PersistTask.OnTimerOrClose | engine-rust/src/persist.rs:48-63 | the timer and the closing channel flush what is buffered |
| Persist.ReceiveBalanced | engine-rust/src/persist.rs:42-47 | attempted ++ buffer stays the events received, in order; the counters split the attempted ones; the buffer stays below 100 |
| Persist.FlushBalanced | engine-rust/src/persist.rs:75-118 | the same for a flush, after which everything received was attempted |
| Ingest.EveryKthIs | engine-rust/src/ingest/mod.rs:213-216 | sampling keeps exactly the last element of every complete block of sample_every parsed ticks |
| Ingest.SampledPrefix | engine-rust/src/ingest/mod.rs:195-229 | reading further only appends to what is sent |
| Ingest.ParsedPositions | engine-rust/src/ingest/mod.rs:195-211 | the parsed ticks are those of the well-formed lines, each once, in file order |
| Ingest.NonBlankIs | engine-rust/src/ingest/mod.rs:197-203 | the lines counted as received are those that are not blank, well formed or not |
| Ingest.RunReplayFile | engine-rust/src/ingest/mod.rs:184-229 | with room in the channels the loop sends exactly the sampled ticks of the lines it read, up to the end or a shutdown |
| Pipeline.NextKeeps | engine-rust/src/main.rs:203-274 | every step of every task keeps the seven invariants: sampling, tick flow, signal balance, flat tracker, persist balance, channel bounds with the cause of exit 13, shutdown order |
| Pipeline.RunKeeps | engine-rust/src/main.rs:203-274 | so they hold after every schedule, halted or not |
| Pipeline.IngestBounds | engine-rust/src/ingest/mod.rs:413-437 | ingest halts the process exactly when a due tick finds the tick channel full or a sent one the persist channel; the channels stay as they were, and the matching drop counter is at 1 |
| Pipeline.StrategyConsumes | engine-rust/src/strategy.rs:42-114 | receiving a tick keeps consumed ++ queued = sent, and the generated signals those of the consumed ticks |
| Pipeline.StrategyOffers | engine-rust/src/strategy.rs:139-149 | an offered signal joins the end of the queue exactly when there is room; otherwise the queue stays and the offered signal is lost and counted; the signal balance is kept |
| Pipeline.ExecutionReceives | engine-rust/src/execution.rs:195-234 | a received signal is executed or vetoed on its own merits, and the tracker will be back at zero |
| Pipeline.OfferKeeps | engine-rust/src/strategy.rs:151-152 | a best-effort persist send, dropped or not, keeps the persist balance and touches nothing else |
| PipelineLaws.ScheduleIndependence | engine-rust/src/strategy.rs:42-153 | under every interleaving the generated signals are an initial part of what the file determines, and all of it once the file is read and the strategy has ended |
| PipelineLaws.RunRecordsCrossings | engine-rust/src/strategy.rs:110-124 | under every interleaving the generated signals are exactly those records of the ticks consumed, which are an initial part of the sampled file |
| PipelineLaws.ReplaysAgree | engine-rust/src/ingest/mod.rs:195-229 | two complete replays of one file send the same ticks and generate the same signals, whatever the interleavings, capacities, caps and database outcomes |
| PipelineLaws.Conservation | engine-rust/src/main.rs:351-360 | at any moment: signals = dropped + queued + executed + vetoed (+ the one being offered), trades = shadow orders, attempted ++ buffer ++ queued = enqueued, persisted + errors = attempted, tick counters match the ticks sent |
| PipelineLaws.VetoesAreAllOrNone | engine-rust/src/execution.rs:195-235 | a run vetoes every signal it handles or none, as the caps alone decide |
| PipelineLaws.NoExit13AfterIngest | engine-rust/src/ingest/mod.rs:413-437 | once ingest has ended nothing can halt the process |
| PipelineLaws.RunInFlight | engine-rust/src/main.rs:203-206 | what the channels hold is bounded by the lines read: once for ticks and signals, four times for persist events |
| PipelineLaws.AmpleCapacity | engine-rust/src/main.rs:203-206 | with capacities of that size no interleaving halts or drops a signal |
| PipelineLaws.SomeTaskReady | engine-rust/src/main.rs:244-274 | no deadlock: until the persist task is done some task can act |
| PipelineLaws.NextProgresses | engine-rust/src/main.rs:244-274 | no step adds work, a step of a ready task removes some or halts, and other ready tasks stay ready |
| PipelineLaws.PolledLater | engine-rust/src/main.rs:244-274 | a task that is ready now and polled later makes the remaining work shrink in between |
| PipelineLaws.EveryFairRunEnds | engine-rust/src/main.rs:335-349 | every fair run ends in exit 13 or fully drained |
| PipelineLaws.ShutdownDrains | engine-rust/src/main.rs:329-349 | once ingest has ended every fair run reaches: all tasks done, channels and buffer empty, every enqueued event attempted, every sent tick persisted or counted as an error |
| PipelineDrops.NewestIsDropped | engine-rust/src/strategy.rs:139-149 | at any moment of any run only an offer at a full channel loses a signal, and it is the newest one generated; the queue and everything delivered stay, and what is queued leaves only to be handled, oldest first |
| PipelineDrops.DroppedAtFullChannel | engine-rust/src/strategy.rs:139-149 | for every dropped signal of a run there is the moment at which it was offered and the channel was full |
| PipelineDrops.RunDropBalance | engine-rust/src/strategy.rs:126-149 | delivered and dropped signals, merged, are exactly the signals offered, each kind in order, and the counter counts the dropped ones |
| PipelineDrops.StarvedExecution | engine-rust/src/execution.rs:195 | while execution is not polled the channel keeps the first signals that fit, and every later one is dropped |
| PipelineOverflow.OverflowIsReachable | engine-rust/src/main.rs:203-206 | for every file of well-formed lines there is a schedule on which exactly the signals beyond the channel's capacity are lost |
| PipelineOverflow.NewestLostWitness | engine-rust/src/main.rs:208-213 | a concrete file and schedule: the older BUY stays queued and the newer SELL is lost, both given field by field |
| PipelineRecords.OnlyWhatHappened | engine-rust/src/execution.rs:228-230 | best-effort persistence never invents, duplicates or reorders: enqueued signals are generated ones in order, enqueued orders and trades those of executed signals in order, under every interleaving and capacity |
| PipelineRecords.NextSaves | engine-rust/src/strategy.rs:139-152 | every step of every task keeps that, and keeps it without gaps while a saving task finds room |
| PipelineRecords.EverythingIsPersisted | engine-rust/src/main.rs:203-274 | with room for the file, a finished replay has attempted to persist exactly the sampled ticks, every signal the file determines, and an order with its trade for each that fits the caps, each kind in order |
| PipelineRecords.FairReplayPersistsTheFile | engine-rust/src/main.rs:312-349 | and every fair run that is not stopped early gets there |
| PipelineRecords.TimerFlushesAll | engine-rust/src/persist.rs:58-63 | after the timer fires everything received was attempted |
| PipelineStorage.StoredAreTheSuccesses | engine-rust/src/persist.rs:75-109 | over any run each attempted event has one insert result; the stored events are exactly those with a success, in order, the success counter counts them and the error counter the others |
| PipelineStorage.AllOrNothingStored | engine-rust/src/persist.rs:93-101 | a run whose inserts all succeed stores everything attempted and counts no error; one whose inserts all fail stores nothing |
| RateLimiting.RateLimiter.Allow | risk/rules.py:80-87 | one call evicts what is older than a minute, answers by the number left, and records an admission |
| RateLimiting.LimiterIsGreedy | risk/rules.py:75-87 | on nondecreasing request times the answers are: admit whenever fewer than the limit were admitted in the last closed minute |
| RateLimiting.GreedyBounded | risk/rules.py:80-87 | no closed minute, wherever it starts, holds more than the limit |
| RateLimiting.GreedyStaysAhead | risk/rules.py:80-87 | no other way of admitting the same requests within the limit is ahead on any prefix |
| RateLimiting.LimiterIsOptimal | risk/rules.py:75-87 | both for the limiter itself |
| RateLimiting.ClockMustNotRunBack | risk/rules.py:80-87 | without the clock assumption the limit can be exceeded |
| RateClock.BoundedWithoutRebound | risk/rules.py:80-87 | the limit is kept in every closed minute on every history in which, once a request is more than a minute old, no later one comes within a minute of it |
| RateClock.DequeHolds | risk/rules.py:82-86 | on any clock the deque lacks an admitted request only if a later request was more than a minute after it |
| RateClock.SmallStepsBack | risk/rules.py:80-87 | a clock that goes back by at most a step is such a history, unless two requests are just over a minute apart |
| RateClock.ForwardHasNoRebound | risk/rules.py:80-87 | and so is a clock that does not go back |
| ReturnModel.RollingReturnModel.Update | strategies/stale_edge.py:47-63 | one update of the two deques |
| ReturnModel.RollingReturnModel.FairUpProb | strategies/stale_edge.py:65-69 | the fraction of positive recorded returns, none below warm-up |
| ReturnModel.UpsArePositions | strategies/stale_edge.py:65-69 | what the fraction counts are the rises, not the falls |
| ReturnModel.UpdateChanges | strategies/stale_edge.py:47-63 | no update leaves the model as it was |
| ReturnModel.FairUp | strategies/stale_edge.py:65-69 | the reference probability lies between 0 and 1 |
| ReturnModel.SearchSplit | strategies/stale_edge.py:49-58 | searching what eviction left is searching the full history between two and one horizons ago |
| ReturnModel.UpdateSummarises | strategies/stale_edge.py:47-63 | an update keeps the deques a summary of the full history |
| ReturnModel.ModelIsReference | strategies/stale_edge.py:39-69 | on nondecreasing sample times the probability equals that of a model that forgets nothing: a rise counts iff the latest sample between two and one horizons ago has a positive price that is exceeded, over the last max_returns such samples |
| RiskRules.ExposureTracker.CanAdd | risk/rules.py:95-100 | both caps are respected; the zero entry a lookup leaves behind is not observable |
| RiskRules.ExposureIs | risk/rules.py:90-108 | an order that meets a cap exactly still fits; adding and resetting move the total and the one market, and no other |
| RiskRules.ExposureTracker.Add | risk/rules.py:102-104 | total and market share grow together |
| RiskRules.ExposureTracker.ResetMarket | risk/rules.py:106-108 | the market's share leaves the total and becomes zero |
| RiskRules.AlikeAnswers | risk/rules.py:90-108 | trackers equal up to zero entries answer alike and stay so |
| StaleEdge.StaleEdgeStrategy.Evaluate | strategies/stale_edge.py:80-179 | the gate cascade, in order, with the model updated only behind the staleness gates; each of the five gate reasons is given exactly when its condition on the clock, the end of the market, the price and the book holds, and an order needs all gates passed |
| StaleEdge.JudgeGated | strategies/stale_edge.py:89-120 | the same for the state machine's cascade, for every model, price, book and clock |
| StaleEdge.ModelChangesIff | strategies/stale_edge.py:103-118 | the model changes iff the market runs on beyond the cutoff, there is a price, and price and book are within their staleness limits |
| StaleEdge.OrderIff | strategies/stale_edge.py:122-179 | an order for a side goes out iff both outcomes are quoted, the side has the larger edge (ties to YES), the edge clears fees, spread buffer and model error tax, and its spread is two-sided and narrow; its price is the ask, its size the minimum trade, and it costs less than its probability by more than those three |
| StaleEdge.DecisionReports | strategies/stale_edge.py:122-179 | an unquoted outcome is an incomplete book; otherwise both edges and the implied prices are reported, the ask or else the bid, and the reason tells whether they led to an order |
| StaleEdge.MirrorSymmetry | strategies/stale_edge.py:122-179 | relabelling YES and NO relabels the decision, unless the edges tie |
| ShadowRun.ShadowRunner.RateLimited | scripts/run_shadow_stale_edge.py:55-91 | which limiter is asked, and what a refusal becomes |
| ShadowRun.ShadowRunner.ExposureCapped | scripts/run_shadow_stale_edge.py:94-114 | an order is counted against both caps or refused |
| ShadowRun.ShadowRunner.NoteFeed | scripts/run_shadow_stale_edge.py:250-265 | the last answer of the feed, and the abort latch |
| ShadowRun.ShadowRunner.Iterate | scripts/run_shadow_stale_edge.py:235-434 | one iteration with its five objects is one step of the loop's state machine |
| ShadowRun.ShadowRunner.Loop | scripts/run_shadow_stale_edge.py:225-434 | a whole run is the state machine's run |
| ShadowRun.StepOrders | scripts/run_shadow_stale_edge.py:367-423 | an iteration journals one row, an order iff wanted, let through and affordable; exposure changes only by that order, or by the reset of a cancel at or after market end |
| ShadowRun.OrderBudget | scripts/run_shadow_stale_edge.py:367-423 | over any run with a nondecreasing clock, the number of orders times the trade size stays within both exposure caps |
| ShadowLaws.RowAt | scripts/run_shadow_stale_edge.py:425-439 | journalled rows are never rewritten |
| ShadowLaws.AbortIffSilent | scripts/run_shadow_stale_edge.py:260-265 | the abort is up iff at some iteration the feed had been silent for longer than the limit |
| ShadowLaws.NothingAfterSilence | scripts/run_shadow_stale_edge.py:381-394 | from the first such iteration on every decision is a refusal: no order, no cancel |
| ShadowLaws.RateBound | scripts/run_shadow_stale_edge.py:55-91 | every closed minute of the journal holds at most the configured number of orders, and of cancels |
| ShadowGates.RowReasons | scripts/run_shadow_stale_edge.py:250-423 | every reason of a row, exactly: unknown source, feed abort, missing book, end of market, cutoff, missing or stale price, stale book, rate limits, exposure cap, and the order that passes them all |
| ShadowGates.RowExposure | scripts/run_shadow_stale_edge.py:94-114 | an order adds its size to the total and its market, a cancel that goes through takes the market's share back, and no other row changes the exposure |
| ShadowGates.RunModel | scripts/run_shadow_stale_edge.py:367-423 | over a run the return model has seen exactly the official prices of the iterations that passed every gate |
| ShadowGates.OrdersAreGated | scripts/run_shadow_stale_edge.py:250-423 | every order of every run comes from an iteration with a known source that answered, a fresh price, a fresh book, more time left than the cutoff and no too long silence of the feed up to then |
| ShadowGates.OrderProbability | strategies/stale_edge.py:65-69 | and on price times that do not go back, its fair probability is that of the model that forgets nothing, over the prices sampled so far |
| StableSort.SortStable | venues/kalshi.py:208-209 | sorting keeps tied elements in their order |
| StableSort.StableSortUnique | polymarket/clob_readiness.py:411 | a sequence that is sorted and keeps ties is the only one, so any stable sort gives the same result |
| Levels.SortKeeps | venues/kalshi.py:205-225 | after sorting the head carries the best price, and depth and notional are unchanged |
| Levels.BestPriceIs | venues/kalshi.py:208-212 | the best price is the one price that is quoted and that no quoted price beats |
| Levels.TotalsPermuted | venues/kalshi.py:126-131 | depth and notional do not depend on the order of levels |
| KalshiBook.ParseLevels | venues/kalshi.py:68-111 | the loop accepts a list iff every level is well formed, finite and nonnegative and all have one shape, and keeps their order |
| KalshiBook.LevelOfIff | venues/kalshi.py:73-110 | what one level is read as: price and quantity of an object whose quantity fields agree, or first and second element of a pair, if both are nonnegative numbers |
| KalshiBook.DeriveSide | venues/kalshi.py:175-189 | an empty side becomes the complement of the other outcome, unless a price exceeds one contract |
| KalshiBook.Gate | venues/kalshi.py:191-256 | sorting and reading heads gives the verdict defined by best prices and totals |
| KalshiBook.ParseKalshiBook | venues/kalshi.py:134-256 | the whole parser, error paths included |
| KalshiLaws.CentsIff | venues/kalshi.py:114-123 | cents are recognised iff all deciding prices lie above 1 and up to 100, dollars iff none exceeds 1; prices on both sides of 1 are ambiguous |
| KalshiLaws.UnitInvariance | venues/kalshi.py:168-256 | a book in cents gives the same result as the same book in dollars, derived sides included |
| KalshiLaws.VisiblyCentsIff | venues/kalshi.py:114-189 | for a book with a deciding price above 1 and none above 100 the two results are equal iff every deciding price is above 1, or a missing side would have to be derived from a price above one contract |
| KalshiUnits.UnitInvarianceIff | venues/kalshi.py:114-256 | the same for every book with deciding prices up to 100, those taken for dollars and those with derived sides included: equal iff a condition on the quoted prices, totals and thresholds |
| KalshiUnits.TakenForDollars | venues/kalshi.py:114-256 | a two-sided book in YES prices of at most 1, under a positive depth threshold: equal iff it is worth nothing |
| KalshiUnits.ReadAsks | venues/kalshi.py:183-189 | a book in dollars with derived asks is ambiguous iff the dearest NO bid is above 1, and otherwise has the complement of that bid as best ask |
| KalshiRust.DocumentUnitInvariance | venues/kalshi.py:134-256 | the same from the document on |
| KalshiLaws.OneCentBreaksInvariance | venues/kalshi.py:114-123 | a book with a level at 1 cent is rejected, and trades when quoted in dollars |
| KalshiLaws.OrderIrrelevant | venues/kalshi.py:134-256 | reordering the levels of any side never changes the result |
| KalshiLaws.OkIsSound | venues/kalshi.py:205-256 | OK implies 0 <= best bid < best ask <= 1, the best prices of their sides, spread and notional within thresholds |
| KalshiLaws.OkIff | venues/kalshi.py:191-256 | and holds exactly when both sides exist, do not cross and pass both gates |
| KalshiLaws.StatusIff | venues/kalshi.py:191-256 | each verdict exactly: one side missing, crossed, total notional below the threshold, spread above it, or OK; these report the depth, and best prices only with OK; sides that cannot be read in one unit are ambiguous and report nothing |
| KalshiLaws.ThresholdsOnlyGate | venues/kalshi.py:227-244 | tightening thresholds admits no book, leaves ambiguous and one-sided verdicts and the reported depth alone |
| KalshiRust.ParseRustLevels | engine-rust/src/ingest/venuebook.rs:152-194 | the loop accepts exactly lists of nonnegative number pairs |
| KalshiRust.WithinBounds | engine-rust/src/ingest/venuebook.rs:111-116 | true iff every price lies in [0, 100] |
| KalshiRust.ParseKalshiOrderbook | engine-rust/src/ingest/venuebook.rs:88-146 | the whole parser, error paths included |
| KalshiRust.StricterLevels | engine-rust/src/ingest/venuebook.rs:152-194 | what Rust accepts Python reads as the same levels; on number lists they accept the same |
| KalshiRust.EncodeRoundTrip | engine-rust/src/ingest/venuebook.rs:152-194 | written levels parse back to themselves, in both |
| KalshiRust.ObjectRoundTrip | venues/kalshi.py:73-93 | levels written as objects, with any of the quantity names, are read back by Python and refused by the engine |
| KalshiRust.SidesFromEither | venues/kalshi.py:144-150 | a side is read from its top-level field, or from its container when that field is empty |
| KalshiRust.MalformedIff | engine-rust/src/ingest/venuebook.rs:88-194 | the engine's parser finds a document malformed iff the ticker or a bid side is missing or some level is not a pair of nonnegative numbers |
| KalshiRust.ParsersAgree | engine-rust/src/ingest/venuebook.rs:108-145 | on cents payloads Rust rejects as crossed iff Python answers ambiguous, and a book OK in Python has Rust's best prices, divided by 100 |
| KalshiAgreement.AgreeIff | engine-rust/src/ingest/venuebook.rs:108-145 | for every payload of two nonempty bid sides the parsers agree iff no price is above 100 and: with some price above 1, all YES bids are above 1 or the best bids add up to 100 or more; with none, they add up to less than 1 and Python does not find the book OK at prices other than 0 |
| KalshiAgreement.CentsAgreeIff | engine-rust/src/ingest/venuebook.rs:108-145 | the same for payloads that show themselves to be in cents |
| KalshiAgreement.RustSees | engine-rust/src/ingest/venuebook.rs:111-145 | Rust rejects a price above 100, else rejects as crossed iff the best YES and NO bids add up to 100 or more |
| KalshiAgreement.PythonGivesUp | venues/kalshi.py:114-187 | Python answers ambiguous when a price is above 100, or one is above 1 and a YES bid is not |
| KalshiRust.OneCentDisagreement | venues/kalshi.py:114-123 | one level a side: at 1 cent and below Rust sees a book where Python sees an ambiguity |
| ThinBook.ClassifiersRelate | shared/venue_book.py:41-69 | errors and all verdicts but depth coincide, Rust "not thin" implies Python "not thin", and they differ iff the book is two-sided, uncrossed, at most 5 wide, and reaches the depth of 500 with all levels but not with the top three of each side |
| ThinBook.VerdictsAre | shared/venue_book.py:41-69 | every verdict of both classifiers exactly, with a spread limit of 5 and a depth limit of 500, on all levels or on the top three |
| ThinBook.NotAnExactMatch | engine-rust/src/strategy.rs:184-220 | a book on which they differ |
| ThinBook.PrefixQty | engine-rust/src/types.rs:253-261 | the top levels never hold more than all levels |
| SoakController.Controller.HandleExit | scripts/soak_2h.py:265-295 | the reaction to each exit code: 0 stops the run as complete, 10 restarts, 11 falls back to mockws or stops, 13 goes one rung up or stops at the top, any other code stops |
| SoakController.ExitReactions | scripts/soak_2h.py:33-39 | the same for the state machine's engine check, with the whole new state |
| SoakController.Controller.HandlePressure | scripts/soak_2h.py:300-337 | the pressure counter, the ladder and the abort |
| SoakController.Controller.RunLoop | scripts/soak_2h.py:228-343 | the analysis loop, until it stops, is the state machine's run |
| SoakController.StoppedStays | scripts/soak_2h.py:235-343 | nothing follows a stop |
| SoakController.NextRung | scripts/soak_2h.py:202-209 | on the ladder the next state is one rung up, the top staying itself, with that rung's rate |
| SoakController.LadderLaw | scripts/soak_2h.py:25-30 | over a run: the level is the number of throttle-ups, at most three in all; it never falls; the written rate is the level's; realws falls back to mockws at most once |
| SoakController.PressureAbortLaw | scripts/soak_2h.py:299-337 | with actions on, the pressure abort fires at exactly the first tick that completes six pressured ticks in a row, with the ladder at its top |
| SoakController.PressureOnlyLogged | scripts/soak_2h.py:311-318 | without actions pressure never throttles or stops a run |
| SoakLaws.TickEnds | scripts/soak_2h.py:235-337 | a tick stops a running controller for a reason iff it gives that reason, each written out in exit code, mode, rung, readings and counter |
| SoakLaws.TickRestarts | scripts/soak_2h.py:265-343 | and restarts the engine once for each reason it gives, and for no other |
| SoakLaws.RunEnds | scripts/soak_2h.py:228-343 | a run has stopped for a reason iff a tick it reached gave it; so it is complete iff it saw the engine exit with 0 |
| SoakLaws.RunRestarts | scripts/soak_2h.py:228-343 | the restarts of a run number, reason by reason, the ticks it reached that gave the reason: after the network the exits with 10, for overload the exits with 13 below the top |
| SoakLaws.RateIs | scripts/soak_2h.py:25-30 | the written rate is 1, 5, 10 or 20, by the number of throttle-ups, at most three |
| StallDetection.StallDetector.Observe | scripts/soak_2h.py:85-131 | one check against the remembered count |
| StallDetection.DetectorRemembers | scripts/soak_2h.py:99-117 | the detector remembers the first look of the current unchanged stretch |
| StallDetection.StallIff | scripts/soak_2h.py:85-131 | a stall is reported iff the row count has not moved for longer than the threshold, unreadable looks in between or not |
| StallDetection.StreakCounts | scripts/soak_2h.py:112-124 | the streak is the number of stalled looks of the current unchanged stretch |
| Paging.Dashboard.Refresh | dashboard/home.py:73-84 | a refresh moves the cursor to the last row and appends the page to the trimmed buffer |
| Paging.ListingUnique | dashboard/lib/db.py:33-39 | (ts, id) order lists a table in one way only |
| Paging.PageIs | dashboard/lib/db.py:30-40 | a page holds rows of the table above the cursor, in strictly increasing (ts, id), and a row above the cursor is left out only if the page is full of smaller ones |
| Paging.StaticPaging | dashboard/lib/db.py:30-40 | after n polls of an unchanged table exactly the first n * limit rows above the start have arrived, in order |
| Paging.StaticPagingComplete | dashboard/lib/db.py:30-40 | with a limit of at least 1 every row arrives exactly once, and then pages are empty |
| Paging.PageFacts | dashboard/lib/db.py:42-52 | a page moves the cursor over exactly its own rows |
| Paging.LivePaging | dashboard/home.py:73-84 | with inserts between polls no row comes twice, a row is missed iff it was inserted at or below the cursor, and the buffer is the last 50 rows fetched |
| Paging.CatchesUp | dashboard/lib/db.py:30-40 | once inserts stop, a live session fetches every row but the late ones, after at most as many polls as there were rows ahead |
| ProbeCaching.ProbeCache.Add | polymarket/clob_readiness.py:313-317 | a stored result expires after the time to live of its reason and status |
| ProbeCaching.TtlIs | polymarket/contract.py:60-79 | the time to live: 1800 s when ready, 30 s for a retryable error, 300 s when not ready or without an order book, 3600 s for other permanent errors |
| ProbeCaching.ProbeCache.Lookup | polymarket/clob_readiness.py:319-327 | an unexpired entry is returned, an expired one dropped |
| ProbeCaching.CacheTracks | polymarket/clob_readiness.py:313-327 | an absent entry was never stored or has expired; a present one is the latest stored |
| ProbeCaching.CacheAnswers | polymarket/contract.py:60-79 | over any history in time order a lookup returns exactly the latest result stored for the token while it is younger than its time to live |
| ClobSelection.ParseTokens | polymarket/clob_readiness.py:69-155 | the token parser with its loop over labels, every failure with its reason; it answers (y, n) iff there are two outcomes and two tokens, y at the place of YES and n at that of NO |
| ClobSelection.TokensIff | polymarket/clob_readiness.py:125-150 | the same for the parser's result as a function |
| ClobSelection.TokenErrors | polymarket/clob_readiness.py:96-150 | which document gives which parse error |
| ClobSelection.EligibleIff | polymarket/clob_readiness.py:354-377 | a market is eligible iff it has an order book, accepts orders, is open and unrestricted and ends in a day or later; otherwise which filter names the reason |
| ClobSelection.TokensByLabel | polymarket/clob_readiness.py:125-150 | listing the two outcomes the other way round changes nothing |
| ClobSelection.RankingIs | polymarket/clob_readiness.py:392-411 | the ranking is the eligible markets in descending (liquidity, volume), equals in discovery order, and nothing else is |
| ClobSelection.SelectBest | polymarket/clob_readiness.py:380-443 | the selected market is the first of the ranking, within the probe budget, whose tokens parse and probe READY, and the selected token stands at its YES position; everything before it failed; skipped + eligible = candidates; the reason when none works |
| ClobSelection.SelectedIsYes | polymarket/clob_readiness.py:425-439 | a selected market is eligible and its selected token stands at the place of YES |
| ClobSelection.WorksIff | polymarket/clob_readiness.py:420-430 | a candidate works iff the token at its YES place probes READY |
| ClobSelection.SelectionUnique | polymarket/clob_readiness.py:413-443 | which determines the result |
| ClobSelection.NothingBetterWorked | polymarket/clob_readiness.py:411-443 | every eligible market that strictly outranks the selected one was probed before it and failed |
| ProbeSessions.Prober.Readiness | polymarket/clob_readiness.py:172-283 | a probe answers from the cache, or asks the network and stores the answer |
| ProbeSessions.SameTokenSameResult | polymarket/clob_readiness.py:172-327 | within its time to live a network answer is what every later probe of its token returns, without asking again, whatever other tokens are probed in between |
| ProbeSessions.DuplicateTokenSharesResult | polymarket/clob_readiness.py:415-439 | two candidates of one selection with the same YES token see the same result while it is remembered |
| ProbeSessions.NoRememberedFailure | polymarket/clob_readiness.py:415-439 | the selected market never has a token that an earlier attempt found not ready within that answer's time to live |

## Left out

- HTTP, WebSocket, SQLite, systemd, `/proc/pressure`, files, logging, command line and environment: their results are inputs of a step, a method or a schedule.
- Floating point: rounding, NaN and infinities; `real` arithmetic is exact, and the parsers' finiteness checks are the `NotFinite` and missing numbers of the raw documents.
- Real time: sleeps, backoff and the 5 s shutdown timeout; the drain theorems speak of runs in which the timeout does not fire.
- Random event ids and the parameter hash of an order: records are compared without them.
- `sample_every` of 0, on which the engine panics: the model takes 1 or more.
- Replay from the database, the synthetic feed and both WebSocket feeds; the heartbeat task; the refusal to run in LIVE mode.
- Insert statements, including the division of timestamps by 1000: only whether an insert succeeds is modelled.
- The library sorts are a stable insertion sort, which `StableSort.StableSortUnique` shows to be no restriction.
- Sides, levels and scalars of a JSON document are a small tagged type; how the text becomes it is not modelled.
- `venues/polymarket.py`: the same shape as the Kalshi adapter without unit and complement.
- `scripts/run_shadow_enhanced.py`, journal formatting, statistics of the shadow run, and how a venue book becomes the four prices of a decision: the book of an iteration is any book.
- A restart command or configuration write that itself fails in the soak controller: the query of the engine may fail, the reaction to it does not.
- HTTP retries inside a probe and its fixture mode, which stores nothing: the network's answer to each probe is an input, and is stored. An `endDateIso` without a time zone, on which the comparison in `_is_market_eligible` raises a TypeError, and liquidity figures that are not numbers, on which the sort key raises: a market here has a date that can be compared, a bad one or none, and numeric figures.
- SoakController.Controller.RunLoop: the initial health check is taken to have passed.
- Execution.LedgerWithinCaps: orders have nonnegative notionals, as every signal of this engine has; with a negative one a later close would raise the total.
- RateLimiting.LimiterIsGreedy: request times do not run backwards; the code reads a wall clock and does not enforce it. The bound itself is proved under the weaker condition of `RateClock.BoundedWithoutRebound`.
