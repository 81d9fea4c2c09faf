# Verification of portfolio-hub

A Dafny model of the concurrent core of portfolio-hub, with proofs about it. Every asyncio
piece is cut into atomic steps at its `await`s; a *run* is any sequence of events, an event
nobody is there to take changes nothing, and so a statement about all runs is a statement
about all interleavings. Objects whose methods update their fields are classes, and each of
their methods is proved equal to one step of the machine (or to one function of the old
state); the lemmas then speak about whole runs of that machine.

`dafny verify dfyconfig.toml` checks all of it.

| module | models | main results |
|---|---|---|
| `Broker` | the types of `app/core/broker.py` | |
| `IbkrSession` | start / connect / disconnect / retry_now / the drop handler / the bounded reconnect loop | `ReconnectSafety`, `AttemptsAreWaitedFor`, `LoopStepsBounded`, `LoopEnding`, `RetryIsConsumed` |
| `PollingAdapter` | the lifecycle shared by Tiger, Longbridge and Futu, once, with a configuration each | `PollingSafety`, `LostMeans`, `StepKeepsSound`, `LoopStepsBounded` |
| `LivePositions` | the observable store and its writers | `NonInterference`, `PollingRowsAreLastFetch` |
| `EventStream` | one SSE client over that store | `NoUpdateLost`, `QuietStoreIsCaughtUp` |
| `Valuation` | seeding, ticks, broker marks, reseeds and stale marks on the two copies of an IBKR row | `RunKeepsAgreement`, `MarksNeverOverrideTicks`, `RowAfterTicks` |
| `MarketHours` | status(), next_close_at | `StatusRefinesSchedule`, `ActiveStateLastsUntilTransition`, `ClosedCountdown` |
| `SnapshotScheduler` | the snapshot loop and its table | `ScheduledSnapshotLoop`, `CapturesIncrease` |
| `Fx` | the two-source rate cache (`StaleReads` and `SwitchLasts` are facts about one read) | `CachedRatesAreSound`, `RateAfterRun` |
| `ConnectionMonitor` | polling, queueing and delivery | `SendsWhatStatesCallFor`, `FailuresLoseNothing` |
| `Fills` | fill rows, live writes, reconciles, the drain | `FillsExactlyOnce`, `LiveFillsArrive`, `ReconciledFillsArrive`, `DrainFinishesScheduledWrites` |
| `PreviousClose` | the per-day cache | `FirstFetchDecidesTheDay`, `RecordingKeepsDisjoint` |
| `Totals` | filters and totals | `HeroFigures`, `TotalsAreConserved`, `ShownFiguresAddUp`, `BasisIsYesterdaysValue` |

## Where the code and its documentation part

The model follows the code. Each of these is stated as an exact condition or with a run that
shows it.

- A vendor `disconnect()` that raises leaves the IBKR adapter RECONNECTING with no loop
  (`IbkrSession.RaisingTeardownOrphans`); that is the only step that does, and only retry_now
  repairs it (`StepKeepsInv`, `OnlyRetryRepairs`).
- A polling `start()` that finds a reconnect loop, cancels it and then fails to build its
  clients leaves RECONNECTING with no loop (`PollingAdapter.SetupFailureStrands`); that is the
  only kind of step that does (`StepKeepsSound`). A bare `connect()` that finds CONNECTED
  leaves it without clients (`SetupFailureLeavesNoClients`).
- A running poll loop may find its clients closed, exactly when a disconnect() closed them in
  use (`PollingSafety`, `LostMeans`), inside a start() (`OverlapClosesClientsUnderPoll`) or
  after one (`PendingDisconnectClosesLater`). Calls that do not overlap never lose them
  (`SerialSafety`).
- Stale marking goes over every broker's rows, not only IBKR's
  (`LivePositions.PollingRowsAreLastFetch`, `MarksReachOtherBrokers`).
- A tick at the price of a broker mark does not end the mark, so a later portfolio event may
  still change that row (`Valuation.TickFreezes`, `TickedRowTakesLaterMark`).
- The transition of a CLOSED or HOLIDAY status is the next open, which is not always when the
  state changes as app/core/markets.py:500-518 says (`MarketHours.ClosedCountdown`, `WeekendCountdown`).
- `get_rate_sync` reads the clock twice, and can serve a stale IB rate over a newer API quote
  (`Fx.StaleReads`, `Fx.TornReadPassesOverNewerQuote`).
- A feed that keeps ticking the same value is stale a minute after the first of those ticks
  (`Fx.SteadyFeedGoesStale`).
- `reconcile_fills` raises on an unsupported currency (`Fills.FillStore.ReconcileFills`, `YuanFillAborts`).
- Two overlapping previous-close fetches can record a contract as hit and miss of one day
  (`PreviousClose.RecordingKeepsDisjoint`, `OverlapRecordsBoth`).
- An account named "All" has no view of its own (`Totals.ViewIsTheLabelsRows`, `AccountNamedAll`).

## Model

| member | source | states |
|---|---|---|
| `IbkrSession.HandleDisconnectKeepsInv` | app/adapters/ibkr.py:971-993 | A drop outside disconnect() leaves RECONNECTING with the live loop it found, or one more where there was none, and keeps the invariant; inside it, and on an orphaned adapter, it changes nothing. |
| `IbkrSession.RetryKeepsInv` | app/adapters/ibkr.py:291-308 | retry_now keeps the invariant from every state, and leaves a live loop unless the adapter is connected or disconnecting. |
| `IbkrSession.ResumeKeepsInv` | app/adapters/ibkr.py:1056-1103 | A reconnect loop resumed anywhere, with any outcome, keeps ownership, the backoff value, the wake-up event and the attempt count right. |
| `IbkrSession.StepKeepsInv` | app/adapters/ibkr.py:154-308 | Every event keeps the invariant; the only step that leaves RECONNECTING without a loop is a vendor disconnect() that raises. |
| `IbkrSession.ReconnectSafety` | app/adapters/ibkr.py:154-173 | Over every run from a fresh adapter: at most one loop; DISCONNECTED has none; outside disconnect() RECONNECTING has one unless a vendor disconnect() raised; backoff and wake-up exist only while one lives; attempts of each loop at most len(delays); hooks fired once per loop that reconnected. |
| `IbkrSession.RaisingTeardownOrphans` | app/adapters/ibkr.py:282-289 | For every configuration there is a run in which one raising vendor disconnect() orphans the adapter. |
| `IbkrSession.OnlyRetryRepairs` | app/adapters/ibkr.py:291-308 | An orphaned adapter ignores further drops; retry_now always gives it a loop again. |
| `IbkrSession.LoopStepsBounded` | app/adapters/ibkr.py:1056-1103 | In any run a reconnect loop is resumed at most 3·len(delays)+1 times, has ended once it was, and an ended loop never comes back, whatever retry_now and drops do. |
| `IbkrSession.LoopEnding` | app/adapters/ibkr.py:1080-1103 | Over every run each loop ever born is live or has ended, never both; it ended by one of its own steps, and there by its own success (CONNECTED, hooks once), by finding CONNECTED, by exhausting exactly len(delays) attempts (DISCONNECTED), or cancelled by disconnect(). |
| `IbkrSession.EndingStep` | app/adapters/ibkr.py:1056-1103 | The step on which any loop ends leaves one of those four states; a success comes from the streaming setup where there is one. |
| `IbkrSession.FailedAttempt` | app/adapters/ibkr.py:175-242 | A failed attempt never makes the adapter CONNECTED and fires no hook. |
| `IbkrSession.AttemptsAreWaitedFor` | app/adapters/ibkr.py:1065-1087 | Over every run the k-th attempt of a loop comes straight out of a wait of its own for the k-th delay, with that delay as the backoff value, unless a retry_now is pending. |
| `IbkrSession.AttemptEndsItsWait` | app/adapters/ibkr.py:1078-1087 | The step: an attempt begins out of its own wait or on a pending retry_now, is the next in number, finds nothing CONNECTED and drops the old session first. |
| `IbkrSession.NextDelayIsWaitedFor` | app/adapters/ibkr.py:1065-1096 | With none pending, a loop that starts or whose attempt fails waits for its next delay, and is exhausted exactly when there is none. |
| `IbkrSession.StartDials` | app/adapters/ibkr.py:161-242 | What a start() or connect() makes of its dial: a session and, with streaming to set up, not CONNECTED yet; after start()'s failure RECONNECTING with a live loop. |
| `IbkrSession.StartStreams` | app/adapters/ibkr.py:206-242 | What it makes of its streaming setup: CONNECTED, or the session dropped and, after start(), RECONNECTING with a live loop. |
| `IbkrSession.DisconnectCompletes` | app/adapters/ibkr.py:265-289 | disconnect() ends DISCONNECTED with neither session nor loop; if the vendor's own raises, with the state and session it found and no loop. |
| `IbkrSession.RetryIsConsumed` | app/adapters/ibkr.py:291-308 | Over every run without a further retry_now a pending one is gone once the live loop took one step, or two if it was dialing, whatever drops, starts and disconnects come between: the wait, the next wait or the loop's end takes it. |
| `IbkrSession.LoopTakesWakeup` | app/adapters/ibkr.py:1003-1010 | A loop step leaves the wake-up event set only from dialing to streaming of one attempt. |
| `IbkrSession.OthersSetNoWakeup` | app/adapters/ibkr.py:244-308 | Nothing but retry_now sets the event. |
| `IbkrSession.RetryDuringAttemptSkipsDelay` | app/adapters/ibkr.py:1003-1010 | A retry_now during an attempt makes the attempt after a failure start at once. |
| `IbkrSession.IbkrAdapter.OnDisconnected` | app/adapters/ibkr.py:971-993 | The handler is the machine's drop step and keeps the invariant. |
| `IbkrSession.IbkrAdapter.RetryNow` | app/adapters/ibkr.py:291-308 | The method is the machine's retry step and keeps the invariant. |
| `IbkrSession.IbkrAdapter.ResumeLoop` | app/adapters/ibkr.py:1056-1103 | The loop from one await to the next is the machine's loop step and keeps the invariant. |
| `IbkrSession.IbkrAdapter.Disconnect` | app/adapters/ibkr.py:244-262 | disconnect() up to its first await is the machine's step, the live loop cancelled. |
| `IbkrSession.IbkrAdapter.FinishDisconnect` | app/adapters/ibkr.py:265-289 | The teardown after the drain, raising or not, is the machine's step. |
| `PollingAdapter.PollingSafety` | app/adapters/futu.py:301-403 | Over every run, with start(), connect() and disconnect() overlapping at will and vendor calls coming back in any way: a task is uncancelled if and only if its handle names it, so at most one poll loop and one reconnect loop run, and never both; a backoff value has a running reconnect loop; a running poll loop has its clients open if and only if no disconnect() closed them in use since they were built; without setup failures, at rest RECONNECTING has a running loop and CONNECTED has its clients with the same exception. |
| `PollingAdapter.LostMeans` | app/adapters/tiger.py:611-638 | That exception spelled out: some step of the run was a disconnect() starting to close the clients while an outside connect() or the loop's own was past building them, or a poll loop ran, and no later step built them. |
| `PollingAdapter.StepKeepsSound` | app/adapters/tiger.py:139-181 | Every step from every such state keeps the exclusions, and leaves RECONNECTING at rest without a running loop if and only if it is a setup failure that found RECONNECTING. |
| `PollingAdapter.StepAccounts` | app/adapters/tiger.py:139-181 | Every step keeps the account of the clients in use; at rest too unless it is a setup failure. |
| `PollingAdapter.RefreshOutcome` | app/adapters/tiger.py:534-555 | A failed refresh ends its poll loop and leaves RECONNECTING with a reconnect loop at its start, or DISCONNECTED without delays; a good one goes back to sleep; Futu sleeps on while not CONNECTED. |
| `PollingAdapter.ConnectOutcome` | app/adapters/futu.py:114-140 | connect() returns only after its fetch (and Futu's first refresh), CONNECTED and with a poll loop; it raises what failed, and closes what it had built and ends DISCONNECTED before it does. |
| `PollingAdapter.StartOutcome` | app/adapters/tiger.py:139-150 | start() ends a misconfiguration DISCONNECTED and any other failure in a reconnect loop, or DISCONNECTED without delays. |
| `PollingAdapter.CallRaises` | app/adapters/longbridge.py:97-131 | A failing start() closes the clients first; a failing connect() hands its state to the caller. |
| `PollingAdapter.LoopSleeps` | app/adapters/futu.py:348-379 | A loop sleeps for its k-th delay, shown as the backoff value, only as its first step or after its k-th attempt failed. |
| `PollingAdapter.AttemptEndsItsSleep` | app/adapters/futu.py:350-357 | Each attempt comes out of its own sleep and first closes the clients there were. |
| `PollingAdapter.LoopEnds` | app/adapters/futu.py:357-379 | A running loop ends only by success (with a poll loop), by a misconfiguration, or when every delay had its failed attempt, the latter two DISCONNECTED. |
| `PollingAdapter.EnterReconnectingOk` | app/adapters/tiger.py:557-566 | Entering RECONNECTING spawns one loop unless one runs, or falls to DISCONNECTED without delays. |
| `PollingAdapter.BeginCallKeepsSound` | app/adapters/longbridge.py:97-112 | start() and connect() may begin at any time outside another one, a disconnect() in progress included. |
| `PollingAdapter.ResumeCallKeepsSound` | app/adapters/futu.py:101-140 | connect() and start()'s handlers keep the exclusions at each await, for every outcome. |
| `PollingAdapter.ResumeLoopKeepsSound` | app/adapters/tiger.py:568-599 | The reconnect loop keeps the exclusions, also when it is a cancelled one that ends late. |
| `PollingAdapter.ResumePollKeepsSound` | app/adapters/tiger.py:534-555 | A poll step keeps the exclusions and never leaves RECONNECTING at rest without a running loop. |
| `PollingAdapter.ResumeDropKeepsSound` | app/adapters/tiger.py:177-181 | disconnect() keeps the exclusions at each await, also with an outside call in progress. |
| `PollingAdapter.SerialSafety` | app/adapters/futu.py:101-146 | Over every run whose outside calls do not overlap a disconnect(): clients are never lost, the exclusions hold of cancelled tasks too, and a running poll loop is CONNECTED. |
| `PollingAdapter.SerialStep` | app/adapters/tiger.py:139-181 | In such a run disconnect() finds nothing running beside it, and somebody awaits every cancelled task. |
| `PollingAdapter.DisconnectCompletes` | app/adapters/tiger.py:177-181 | In such a run disconnect() ends DISCONNECTED with no task and no clients. |
| `PollingAdapter.AdapterSafety` | app/adapters/futu.py:381-403 | Tiger, Longbridge and Futu: over every run a running poll loop is alone and has its clients open exactly unless lost, in serial runs always and CONNECTED; an outside connect() awaits a first refresh only for Futu. |
| `PollingAdapter.OverlapClosesClientsUnderPoll` | app/adapters/futu.py:114-146 | A run that loses the clients: disconnect() inside a start() that has built them. |
| `PollingAdapter.PendingDisconnectClosesLater` | app/adapters/tiger.py:601-620 | Another: a disconnect() that awaits the poll loop it cancelled while a start() comes and goes closes the new clients under the new poll loop after the start() returned. |
| `PollingAdapter.DisconnectInsideCall` | app/adapters/futu.py:114-146 | A disconnect() that begins inside an otherwise undisturbed call that succeeds costs it its clients if and only if they were built by then, wherever the disconnect() ends. |
| `PollingAdapter.SetupFailureStrands` | app/adapters/longbridge.py:97-117 | From any state at rest that is reconnecting, a start() that cannot build its clients leaves RECONNECTING with no running loop. |
| `PollingAdapter.SetupFailureLeavesNoClients` | app/adapters/tiger.py:152-162 | From any connected state at rest a bare connect() that cannot build its clients leaves CONNECTED with neither clients nor a poll loop. |
| `PollingAdapter.LoopStepsBounded` | app/adapters/longbridge.py:477-512 | Over every run a reconnect loop is resumed at most 5·len(delays)+1 times, once at most after it was cancelled, has ended once it was, and never comes back. |
| `PollingAdapter.PollingBroker.Call` | app/adapters/tiger.py:139-154 | start() or connect() up to its first await is the machine's step, also inside a disconnect(). |
| `PollingAdapter.PollingBroker.AdvanceCall` | app/adapters/tiger.py:139-175 | The rest of it, with start()'s handling of both error classes. |
| `PollingAdapter.PollingBroker.Disconnect` | app/adapters/futu.py:142-146 | disconnect() up to its first await is the machine's step, also inside a start() or connect(). |
| `PollingAdapter.PollingBroker.AdvanceDisconnect` | app/adapters/futu.py:142-146 | The rest of it. |
| `PollingAdapter.PollingBroker.WakeLoop` | app/adapters/futu.py:348-379 | The reconnect loop from one await to the next is the machine's step. |
| `PollingAdapter.PollingBroker.AdvancePoll` | app/adapters/futu.py:381-403 | The poll loop from one await to the next is the machine's step, with Futu's skip while not CONNECTED. |
| `LivePositions.LivePositions.SetPosition` | app/core/live_positions.py:37-45 | One row is written; the event is set if and only if the rows changed. |
| `LivePositions.LivePositions.ReplaceAll` | app/core/live_positions.py:47-52 | The rows become the last-wins map of the list; the event is set if and only if they changed. |
| `LivePositions.LivePositions.ReplaceBrokerRows` | app/core/live_positions.py:54-69 | One broker's rows are exchanged and all others kept; the event is set if and only if the rows changed. |
| `LivePositions.LivePositions.MarkAllStale` | app/adapters/ibkr.py:1033-1054 | Every row but cash ends up marked, one write each; the event is set if and only if a row was marked. |
| `LivePositions.LivePositions.TakeChange` | app/core/live_positions.py:71-82 | A woken waiter clears the event. |
| `LivePositions.ByKeyTakesLast` | app/core/live_positions.py:47-48 | The map built from a list holds, for each key, its last position. |
| `LivePositions.TwoRowsCoexist` | app/core/live_positions.py:25-45 | Two rows written one after the other are both in the store if and only if they differ in broker, account or symbol; other rows stay. |
| `LivePositions.OthersLeaveView` | app/core/live_positions.py:54-69 | A write by one broker leaves every other broker's rows as they are, except for stale marks. |
| `LivePositions.NonInterference` | app/core/live_positions.py:37-69 | After any interleaving a broker's rows are, up to the stale flag, those its own writes alone leave. |
| `LivePositions.PollingRowsAreLastFetch` | app/adapters/futu.py:381-391 | A polling broker's rows are the last-wins map of its last successful fetch, marked stale if and only if the IBKR gateway was lost since. |
| `LivePositions.MarksReachOtherBrokers` | app/adapters/ibkr.py:1049-1054 | A row another broker has just fetched shows as stale once the IBKR gateway is lost. |
| `LivePositions.StaleMarkShows` | app/adapters/ibkr.py:1049-1054 | Marking changes the store exactly when some row is neither cash nor stale. |
| `EventStream.StepKeepsInv` | app/core/live_positions.py:121-171 | Every store write, client step and lapse of time keeps the rendered hashes, the spacing and the throttle right. |
| `EventStream.NoUpdateLost` | app/core/live_positions.py:121-171 | Over every run a client that waits with the event clear has rendered the store's hashes; payloads differ from their predecessor and come at least min_interval after it. |
| `EventStream.ThrottleIsExact` | app/core/live_positions.py:153-160 | Over every run a throttled client sleeps until exactly min_interval after its last emission, and is throttled exactly before that. |
| `EventStream.QuietStoreIsCaughtUp` | app/core/live_positions.py:121-171 | Once writes stop, in every sequence of client steps, heartbeats and lapses of time the client takes at most five productive steps, and when it has taken as many as it was behind its last payload equals the store. |
| `EventStream.BehindCanProceed` | app/core/live_positions.py:142-160 | A client that is behind has a productive step at once, or after a heartbeat or the rest of its sleep. |
| `EventStream.EventStream.Connect` | app/core/live_positions.py:135-140 | The snapshot event is the machine's step. |
| `EventStream.EventStream.Resume` | app/core/live_positions.py:138-171 | Hashes and emission time are recorded only once the consumer took the event. |
| `EventStream.EventStream.Heartbeat` | app/core/live_positions.py:143-151 | A heartbeat changes nothing that is compared. |
| `EventStream.EventStream.Wake` | app/core/live_positions.py:71-82 | Waking clears the event before the rows are read, and throttles or compares. |
| `EventStream.EventStream.FinishSleep` | app/core/live_positions.py:158-171 | After the throttle the rows are read afresh and compared. |
| `Valuation.CoerceLast` | app/adapters/ibkr.py:1503-1527 | The price is that of the first usable of last, close and marketPrice(), and zero exactly when none is usable. |
| `Valuation.Revalue` | app/adapters/ibkr.py:1245-1268 | A price-changing tick satisfies both money identities, sets one provenance at most, clears the stale mark and touches neither cost nor previous close. |
| `Valuation.UsdFollowsPrice` | app/adapters/ibkr.py:807-833 | USD value and P&L are quantity at the price, over the magnifier, at that moment's rate; without a rate both are zero and flagged. |
| `Valuation.MarkFigures` | app/adapters/ibkr.py:1305-1345 | The row a portfolio event leaves: value and P&L are the item's own where finite, cost and price where positive (else |value / quantity|), times the magnifier, else the old ones; nothing changes exactly when all four repeat. |
| `Valuation.MarkConverts` | app/adapters/ibkr.py:1329-1340 | A portfolio event that changes the row converts it at its moment's rate, the stale and fallback flags each the rate's own. |
| `Valuation.RevalueConverts` | app/adapters/ibkr.py:1249-1262 | So does a price-changing tick. |
| `Valuation.BuildRow` | app/adapters/ibkr.py:655-741 | Quote, then broker mark, then previous close: the price shown and the one flag set, exactly when; value and P&L are the broker's exactly where there is no quote and it knows them, and satisfy the money identities otherwise; never stale. |
| `Valuation.SeedCostIsTheBrokers` | app/adapters/ibkr.py:679-684 | The seed's cost is the broker's positive average cost times the magnifier, else the feed's. |
| `Valuation.SeedConverts` | app/adapters/ibkr.py:714-739 | A seed row is converted at its moment's rate with the rate's own flags. |
| `Valuation.SeedIsConsistent` | app/adapters/ibkr.py:705-712 | A seed row that takes neither value nor P&L from the broker satisfies both money identities together. |
| `Valuation.RowAfterTicks` | app/adapters/ibkr.py:1225-1270 | After any ticks the row is the seed revalued at the last price-changing tick with that tick's rate, and consistent; null, NaN, non-positive and repeated prices leave no trace. |
| `Valuation.TickFreezes` | app/adapters/ibkr.py:1298-1303 | After a usable tick no portfolio event changes the row if and only if the tick does not repeat the price of a broker mark. |
| `Valuation.OnlyFrozenIgnoresMarks` | app/adapters/ibkr.py:1298-1328 | A streaming row is immune to every portfolio event if and only if it shows a positive price that is not a broker mark. |
| `Valuation.TickedRowTakesLaterMark` | app/adapters/ibkr.py:1243-1303 | A mark at 10, a tick at 10 and a mark at 9 leave both copies at 9. |
| `Valuation.SeedKeepsInv` | app/adapters/ibkr.py:1107-1126 | Seeding a contract, streamed or not, establishes the agreement of its two copies and keeps that of the others. |
| `Valuation.PutKeepsInv` | app/adapters/ibkr.py:1269-1270 | Rewriting one contract's row under its identity keeps both copies of every contract in agreement. |
| `Valuation.RunKeepsAgreement` | app/adapters/ibkr.py:1206-1349 | Over every run of seeds, ticks, marks, reseeds, drops and cleared sessions each stream copy equals its published row up to the stale flag, is never stale itself, and no IBKR row claims two price sources; within a session no contract is dropped or changes identity. |
| `Valuation.StepProjects` | app/adapters/ibkr.py:1225-1349 | What an event does to one contract depends on that contract's two copies alone; seeding another contract touches neither. |
| `Valuation.TickShows` | app/adapters/ibkr.py:1225-1270 | A usable tick at a new price shows in both copies: its price, the money figures at it and at its rate, its delayed flag, no mark, no previous close, not stale. |
| `Valuation.MarkShows` | app/adapters/ibkr.py:1286-1349 | A portfolio event reaches the published row and the stream copy, except exactly for a streaming row that shows a positive price that is not a mark. |
| `Valuation.ReseedShows` | app/adapters/ibkr.py:1206-1223 | A reseed sets the previous close of both copies exactly where a new positive close came, and nothing else of them. |
| `Valuation.DropShows` | app/adapters/ibkr.py:1033-1054 | A gateway drop marks every published row but cash and no stream copy. |
| `Valuation.MarksNeverOverrideTicks` | app/adapters/ibkr.py:1298-1303 | Once a streaming row shows a positive price that is not a broker mark, any run leaves both its copies as the run without its portfolio events does, until the streaming session is cleared. |
| `Valuation.Streams.SeedRow` | app/adapters/ibkr.py:1114-1126 | Publishing and recording one seed row. |
| `Valuation.Streams.ClearStreaming` | app/adapters/ibkr.py:1084-1086 | Clearing the stream copies leaves the published rows and the agreement. |
| `Valuation.Streams.OnTicker` | app/adapters/ibkr.py:1225-1270 | The callback is the tick step of the machine and keeps the agreement. |
| `Valuation.Streams.OnPortfolio` | app/adapters/ibkr.py:1272-1349 | The callback is the mark step of the machine and keeps the agreement. |
| `Valuation.Streams.ReseedCloses` | app/adapters/ibkr.py:1206-1223 | The loop over the streaming rows is the reseed step of the machine, in whatever order, and keeps the agreement. |
| `MarketHours.PreviousWindowUnreachable` | app/core/markets.py:254-265 | The after-hours test on the previous session can never fire. |
| `MarketHours.TodayDecides` | app/core/markets.py:383-480 | Whether any session of the schedule is trading, at lunch or in extended hours comes down to the session of the local date. |
| `MarketHours.StatusRefinesSchedule` | app/core/markets.py:383-480 | For every calendar and instant status() is in a state if and only if the specification over all sessions is. |
| `MarketHours.ActiveStateLastsUntilTransition` | app/core/markets.py:383-480 | OPEN, LUNCH and EXTENDED advertise a later instant until which the status stays the same and at which the state differs. |
| `MarketHours.ExtendedHours` | app/core/markets.py:436-460 | US venues are EXTENDED from 5:30 hours before the open and until 4 hours after the close, to the instant. |
| `MarketHours.ClosedStateAdvertisesNextOpen` | app/core/markets.py:267-276 | CLOSED and HOLIDAY advertise the earliest later open of the schedule, where the state is OPEN and before which it is neither OPEN nor LUNCH; nothing only when no session follows. |
| `MarketHours.ClosedCountdown` | app/core/markets.py:500-518 | While closed the advertised instant is when the state changes if and only if the schedule says: before the open of a day without extended hours, after its close with the next session on the next date, or on a holiday with the next open at the start of its date. |
| `MarketHours.WeekendCountdown` | app/core/markets.py:500-518 | In a well-formed calendar with one Friday and the Monday after it, the state is CLOSED until Monday's open by the countdown on Friday evening, and HOLIDAY on Saturday. |
| `MarketHours.NextCloseAt` | app/core/markets.py:278-311 | A close is found if and only if one falls in the window; it is then the least close strictly after now over the whole schedule. |
| `SnapshotScheduler.NextCloseAcrossHeld` | app/jobs/snapshot.py:71-84 | The result is the soonest next close among the exchanges of the held stocks; none only if no held exchange closes in its window. |
| `SnapshotScheduler.RunRound` | app/jobs/snapshot.py:106-142 | One round sleeps until the soonest close, or the delay its empty streak calls for, and leaves the delay for the next. |
| `SnapshotScheduler.DoublingCapped` | app/jobs/snapshot.py:113-120 | Doubling under the cap gives min(base·2^k, cap) after k empty rounds. |
| `SnapshotScheduler.BackoffIsCapped` | app/jobs/snapshot.py:30-31 | For a base within the cap the k-th empty round sleeps base·2^k while that is within the cap, and the cap after. |
| `SnapshotScheduler.HeldAreStocks` | app/jobs/snapshot.py:74-76 | The held exchanges are those of the stock rows that name one. |
| `SnapshotScheduler.ScheduledSnapshotLoop` | app/jobs/snapshot.py:87-142 | Over any number of rounds each one did what its inputs and the empty rounds since the last capture call for. |
| `SnapshotScheduler.CapturesIncrease` | app/jobs/snapshot.py:87-142 | Captured instants strictly increase over the run, and no held exchange closes between the clock reading made for it and the chosen instant. |
| `SnapshotScheduler.NoHeldCloseIsPassedOver` | app/jobs/snapshot.py:71-84 | In every round of a run, the first included, a held exchange with a close in its window makes the round capture, at an instant no later than that exchange's next close. |
| `SnapshotScheduler.EquitySnapshots.Insert` | app/db/store.py:240-279 | Insert-or-ignore on the snapshot key; True exactly when the table grew. |
| `SnapshotScheduler.EquitySnapshots.Capture` | app/jobs/snapshot.py:34-68 | Existing rows stay, the others are added, and the count returned is the growth of the table. |
| `SnapshotScheduler.OfferedRows` | app/jobs/snapshot.py:49-56 | Each account that could be built and written is offered under its own broker and account id, the exchange's session and the closing instant, with its value. |
| `SnapshotScheduler.CapturesNeverCollide` | app/db/store.py:240-279 | Any two captures of a run offer disjoint snapshot keys, whatever the accounts. |
| `Fx.MarketOpenIsFiveDaysFromSunday` | app/core/fx.py:140-154 | The weekday test is (t − Sunday 22:00) mod one week < five days, for every instant. |
| `Fx.Read` | app/core/fx.py:278-332 | A rate is served exactly when a source has one; an API rate only without an IB one or for a stale, older one; the stale flag is the IB rate's at the second clock reading. |
| `Fx.StaleReads` | app/core/fx.py:278-332 | A stale rate is IB's; a newer API quote is passed over if and only if the IB quote went stale between the two clock readings. |
| `Fx.SwitchLasts` | app/core/fx.py:305-332 | Without new quotes, after a read switched to the API later reads switch exactly while the market is open. |
| `Fx.TornReadPassesOverNewerQuote` | app/core/fx.py:278-332 | Such a read, with concrete instants. |
| `Fx.ExtractPrice` | app/core/fx.py:515-533 | The price is halfway between a positive bid and ask, else a positive last, else a positive market price, and absent exactly when there is none of them. |
| `Fx.PairsFollowConvention` | app/core/fx.py:36-46 | The pair subscribed has USD first except for AUD, EUR and GBP, and exactly then is inverted. |
| `Fx.RateAfterTicks` | app/core/fx.py:415-449 | After any ticks the rate is that of the last usable one, quoted when its run of equal values began. |
| `Fx.RateAfterRun` | app/core/fx.py:342-499 | The same for every run until a restart, whatever other ticks, API quotes, cache writes and subscriptions come between. |
| `Fx.SteadyFeedGoesStale` | app/core/fx.py:323-332 | A feed repeating one value is stale a minute after the first of them. |
| `Fx.FileKeepsInv` | app/core/fx.py:342-357 | Filing a sound rate keeps both buckets, the table and the pending writes sound. |
| `Fx.TickKeepsInv` | app/core/fx.py:415-449 | A tick files the USD-per-native value of its pair, inverted where the contract quotes USD base. |
| `Fx.ApiKeepsInv` | app/core/fx.py:464-499 | An API quote is filed inverted under its own currency, never for CNH. |
| `Fx.WriteKeepsInv` | app/core/fx.py:451-460 | Cache writes ending in any order, or failing, keep the table sound. |
| `Fx.RestartKeepsInv` | app/core/fx.py:219-238 | Reloading fx_cache puts each rate back into the bucket of its source. |
| `Fx.CachedRatesAreSound` | app/core/fx.py:342-499 | Over every run of subscriptions, ticks, API quotes, writes and restarts each cached rate is positive, was observed at its source in USD per native unit, sits under its own currency and source; CNH is never the API's, TWD never IB's. |
| `Fx.WrittenRateSurvivesRestart` | app/db/store.py:99-147 | A rate whose write ended comes back after a restart in the bucket of its source and only there. |
| `Fx.TickReachesTheCache` | app/core/fx.py:361-460 | A tick of a subscribed currency at a new value is filed and its write scheduled; once written it is there after a restart, in IB's bucket only. |
| `Fx.ApiQuoteReachesTheCache` | app/core/fx.py:464-499 | The same for an API quote, in the API's bucket. |
| `Fx.FxService.OnTick` | app/core/fx.py:415-449 | The handler is the machine's tick step and keeps the invariant. |
| `Fx.FxService.RefreshFromApi` | app/core/fx.py:464-499 | The refresh adds exactly the positive quotes of supported currencies but CNH, inverted, and touches nothing of IB. |
| `ConnectionMonitor.RunRemembers` | app/jobs/connection_monitor.py:31-83 | With delivery succeeding, last_state, down_since and attention_sent are functions of the observed trace. |
| `ConnectionMonitor.SendsWhatStatesCallFor` | app/jobs/connection_monitor.py:31-83 | Each poll of any trace sends exactly: one message per change into or between down states, one attention at the first poll of a down run past the threshold, one recovery after it. |
| `ConnectionMonitor.AttentionAtMostOnce` | app/jobs/connection_monitor.py:67-83 | A down run asks for attention at most once. |
| `ConnectionMonitor.AttentionAtLeastOnce` | app/jobs/connection_monitor.py:67-83 | And it does ask if some poll of it is past the threshold. |
| `ConnectionMonitor.QueueStaysSmall` | app/jobs/connection_monitor.py:86-88 | With failures the queue never holds a message twice nor more than four. |
| `ConnectionMonitor.FailuresLoseNothing` | app/jobs/connection_monitor.py:91-112 | State and flag advance if and only if the whole queue was delivered, and a queued message leaves the queue only by being sent. |
| `ConnectionMonitor.CalledForIsSentOrKept` | app/jobs/connection_monitor.py:45-98 | With any backlog and any failures, a round tries exactly the backlog and what the poll calls for, and each of these is sent or kept. |
| `ConnectionMonitor.ConnectionMonitorState.SendPending` | app/jobs/connection_monitor.py:91-112 | Every message is tried; one failure raises and keeps the whole queue. |
| `ConnectionMonitor.ConnectionMonitorState.PollOnce` | app/jobs/connection_monitor.py:31-83 | The new state, the messages sent and whether an error comes through, for every old state. |
| `Fills.BuildFillRow` | app/core/fills.py:43-100 | It raises exactly for an unsupported currency behind a known side and venue, drops exactly unknown sides and venues, and otherwise describes the fill, fees in USD exactly with the trade's currency or a recorded rate. |
| `Fills.FeesAreConverted` | app/core/fills.py:73-83 | Recorded fees are the native ones times the recorded rate, which is the currency's at that moment. |
| `Fills.InsertExtends` | app/db/store.py:151-193 | An insert changes no existing row and grows the table by one or nothing. |
| `Fills.StepKeepsTable` | app/adapters/ibkr.py:1373-1408 | No event of the pipeline changes a row; the table grows by the inserts that returned True. |
| `Fills.StepKeepsAccounts` | app/jobs/fills_reconcile.py:40-62 | Each running or completed reconcile has counted exactly the rows it inserted. |
| `Fills.StepKeepsWrites` | app/adapters/ibkr.py:265-268 | Every unfinished write is held, and a drain waits for each one scheduled before it. |
| `Fills.FillsExactlyOnce` | app/jobs/fills_reconcile.py:28-62 | At most once, over every interleaving of live events, writes and reconciles: table size is the inserts that returned True, no row is overwritten, keys are the rows' own, and each completed reconcile's count is the rows it added. |
| `Fills.LiveFillsArrive` | app/adapters/ibkr.py:1373-1408 | At least once, over every interleaving: a live fill whose row could be built is in the table, or its write is unfinished, or its write failed. |
| `Fills.ReconciledFillsArrive` | app/jobs/fills_reconcile.py:36-62 | Every fill of a reconcile that completes was taken up without raising, and its row is in the table unless its insert failed. |
| `Fills.LiveFillIsScheduled` | app/adapters/ibkr.py:1379-1395 | A live fill becomes a new held write of exactly its row; one that is dropped or raises changes nothing. |
| `Fills.WriteEnds` | app/adapters/ibkr.py:1397-1402 | A write that ends well leaves its row's key in the table, its own row if the key was new; a failed one leaves the table. |
| `Fills.InsertReturns` | app/jobs/fills_reconcile.py:50-59 | So does a reconcile's insert, which is counted exactly if the table grew. |
| `Fills.DrainFinishesScheduledWrites` | app/adapters/ibkr.py:265-268 | When the drain returns every write scheduled before it began has finished. |
| `Fills.FillStore.InsertFill` | app/db/store.py:151-193 | Insert-or-ignore; True exactly when the table grew. |
| `Fills.FillStore.ReconcileFills` | app/jobs/fills_reconcile.py:28-62 | It raises if and only if some fill is unsupported, with the fills before the first such one inserted; otherwise the count is the growth of the table; a failed fetch counts zero. |
| `Fills.YuanFillAborts` | app/jobs/fills_reconcile.py:28-62 | A purchase in CNY anywhere in a batch makes it raise at or before that fill. |
| `PreviousClose.MissingIsUnknown` | app/adapters/ibkr.py:530-542 | Exactly the contracts with neither a hit nor a miss that day are fetched, none twice if none is asked twice. |
| `PreviousClose.RecordingKeepsDisjoint` | app/adapters/ibkr.py:543-556 | Hits and misses of one day stay disjoint if and only if no empty answer meets a hit recorded meanwhile. |
| `PreviousClose.OverlapRecordsBoth` | app/adapters/ibkr.py:543-556 | Two overlapping calls, one with a close and one without, record the contract as hit and miss of one day. |
| `PreviousClose.RecordedAnswers` | app/adapters/ibkr.py:543-556 | A recorded fetch changes the answers of that day for what it fetched and no others. |
| `PreviousClose.ServedAfter` | app/adapters/ibkr.py:534-556 | What a call returns is what the cache says of its contracts afterwards. |
| `PreviousClose.CacheIsDirect` | app/adapters/ibkr.py:515-556 | Over sequential calls the cache is the direct lookup: the first fetch of the day, or nothing. |
| `PreviousClose.FirstFetchDecidesTheDay` | app/adapters/ibkr.py:515-580 | Every answer of a day equals the first fetch, present or absent; a call fetches a contract exactly when it is the first to ask; hits and misses of a day are disjoint. |
| `PreviousClose.OnlyPositiveClosesAreServed` | app/adapters/ibkr.py:558-580 | Whatever fetches bring back, only positive closes are ever served, each brought back by a fetch of that contract. |
| `PreviousClose.AtMostOneFetchADay` | app/adapters/ibkr.py:515-556 | Two calls of one day never both fetch a contract. |
| `PreviousClose.PreviousCloseCache.FetchCached` | app/adapters/ibkr.py:515-556 | The new cache is the fetch recorded over the old one, the result what the cache then says, the contracts fetched those unknown before. |
| `Totals.GainOverClose` | app/core/broker.py:89-120 | A row's intraday P&L is its USD value at the last price less that at the previous close, at the row's own rate. |
| `Totals.BasisOfRow` | app/core/broker.py:89-120 | Market value less intraday P&L is the holding at the previous close if and only if mv·magnifier = qty·last or the row is worth nothing. |
| `Totals.PercentageOfClose` | app/core/broker.py:72-120 | Percentage and P&L agree: P&L is that percentage of the value at the previous close. |
| `Totals.FilterOrderIsIrrelevant` | app/render.py:40-60 | Filters in any order, repeated or not, keep the same rows. |
| `Totals.FiltersSelect` | app/render.py:52-60 | A filtered list holds exactly the rows of the chosen account, asset class and broker, "" and "All" choosing every one. |
| `Totals.TotalsAreConserved` | app/render.py:63-111 | For any figure and any dimension the totals of the views per label add up to the unfiltered total, labels neither empty nor "All". |
| `Totals.AccountViewsAddUp` | app/render.py:40-111 | With asset and broker filters set, the account views still add up to the view of all accounts. |
| `Totals.ViewIsTheLabelsRows` | app/render.py:52-60 | A view holds exactly its label's rows if and only if the label is neither empty nor "All", or every row has it. |
| `Totals.AccountNamedAll` | app/render.py:52-54 | The view of an account "All" shows the rows of another account too. |
| `Totals.BasisIsYesterdaysValue` | app/render.py:90-98 | The intraday basis is the contributing rows at the previous close plus the market value of the other convertible rows. |
| `Totals.HeroFigures` | app/render.py:81-111 | Market value, P&L and today's P&L are the sums of the rows' USD figures that have a rate, with the sums' signs; today's percentage is over yesterday's portfolio, the P&L percentage over cost; the Today row is there exactly when some row shows an intraday percentage, and without it today's P&L is zero. |
| `Totals.FiguresAreTheRows` | app/render.py:81-111 | The same sums, signs and Today row for any rows, however priced. |
| `Totals.HeroOfOneRow` | app/render.py:81-106 | One convertible row of 100 USD with 10 gained shows 100 and 10. |
| `Totals.ShownFiguresAddUp` | app/render.py:40-111 | Each figure shown, over the accounts and with asset and broker filters set, adds up to the one shown for all accounts. |

## Hypotheses

- `EventStream` has one client per store: the change event is cleared by whichever client wakes
  first (app/core/live_positions.py:81-82).
- Each conId is held in one account under its own canonical symbol, because `_streaming` is
  keyed by conId alone (app/adapters/ibkr.py:120, 1289-1295): `Valuation.StoreOk` and `Seedable`.
- No portfolio event lands between publishing a seed row and recording its stream entry
  (app/adapters/ibkr.py:1114-1126): seeding a row is one step, and a session seeds each contract
  once.
- `disconnect()` calls do not overlap one another, and neither do `connect()` calls of a polling
  adapter, its loop's included: the `Enabled` guards. Only `PollingAdapter.SerialSafety` also
  takes outside calls that do not overlap a `disconnect()`.
- Sleeps do not return early and clocks do not go back (`EventStream`, `SnapshotScheduler.Timely`,
  `PreviousClose.Monotone`).
- A calendar's sessions open and close within their own local date, US extended hours too:
  `MarketHours.WellFormed`. `ClosedCountdown` also needs local dates that skip no day.
- `asyncio.wait_for` behaves as in the Python the Dockerfile names (line 1): a wake-up event that
  is already set ends the wait without suspending.
- Money and prices are reals; `hash_position` is an arbitrary function of the row.
- An adapter writes rows under its own broker name (`LivePositions.WellFormedWrite`).

## Left out

- Vendor SDKs, httpx, Yahoo, Telegram and SQLite: their calls are outcomes a step takes as input; tables are maps.
- Loops that never end (`scheduled_snapshot_loop`, the poll and generator loops) are modelled over any finite number of rounds or events.
- The order of dictionaries and of position lists: rows are maps and sets, so the order in which one callback writes several rows is not modelled.
- Ticks of FX subscriptions abandoned when a new IB connection is attached: the code leaves their handlers in place, the model ignores them.
- The payload a stream event renders: payloads are row hashes, and what `hash_position` omits (the FX flags) can change without an event.
- Two SSE clients on one store, which the code does not support.
- Polling clients that were built only in part when building fails: they count as closed, so that leaking one is not modelled.
- Closing clients in connect() always takes one await in the model, also where the code closes without suspending; this adds interleavings and removes none.
- Futu's cash and price fields, Tiger's account discovery and the row builders of the three polling adapters: computations over one row.
- Floating-point rounding, NaN rates and display formatting.
- `CompositeBroker`, symbol tables, `closures_in_range`, `parse_hhmm`, `next_fire_at`, `build_equity_snapshot_row`: lookups and single branches.
- The daily timer of the previous-close refresh: only the reseed it fires is modelled.
- FastAPI routes, templates, scripts, admin authentication, `gateway_control` and `setup_opend`.
