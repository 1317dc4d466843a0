# Vikram host: verified models of its stateful engines

The Go host of Vikram runs agents, schedules jobs, routes messages and keeps
count of what everything costs.  No single algorithm dominates it; what has to
be right are several small engines whose state is shared by goroutines or
survives restarts.  This project models those engines in Dafny and proves what
they keep over every run.

| file | component |
|---|---|
| `WebSocket.dfy` | capability requests over a WebSocket client: requesters, responder, disconnect |
| `Cron.dfy` | the cron service: claim, execute outside the lock, finish, restart, crash |
| `CostLedger.dfy`, `CircuitBreaker.dfy`, `Timestamps.dfy` | the cost ledger's cached totals, its daily window, and the decision to stop |
| `Bus.dfy` | the outbound message bus: fan-out, per-subscriber buffers, drops |
| `Locks.dfy` | file locks with a time-to-live |
| `Budget.dfy` | the daily token budget of a role, shared by workers |
| `LoopDetect.dfy`, `AgentLoop.dfy` | the tool-loop detector, and the turn loop and message history around it |
| `OneBot.dfy` | the duplicate filter: a ring and a set |
| `SplitMessage.dfy`, `WrapText.dfy`, `Text.dfy` | fence-aware message splitting, greedy wrapping, Go's whitespace |
| `Forecast.dfy` | interpolated percentiles and cost forecasts |
| `Runs.dfy`, `Sequences.dfy`, `Wrappers.dfy` | shared: runs of a state machine, windows over sequences, options |

Conventions.  A protocol between goroutines is a state machine whose steps are
single lock regions, channel operations or atomic operations; `Run` admits every
interleaving, with the clock, the outcome of every write and the scheduler's
choices as parameters of the steps.  History variables (the log of a turn, the
records in a daily window, what entered a buffer) are part of the state so that
properties of whole runs can be stated.  Beside each machine stands the object
itself as a class whose methods change their fields as the Go methods do; their
contracts equate the new fields with the pure functions that the machine is made
of.  Money is exact (`real`), converted to whole nano-dollars where the code
converts to `int64`; a Go string is a sequence of bytes, one `char` per byte.

## Where the code does less than it says

Each of these is proved with its exact condition, for all inputs, and shown on a
concrete input or run.

- A chunk of a split message can have an odd number of fences although the
  splitter means to keep code blocks whole: exactly under `Unavoidable`
  (`SplitMessage.CutIsOddExactly`, `SplitMessage.OddChunkWitness`).
  `findLastUnclosedCodeBlock` returns the first marker, not the last opener; the
  model follows the code.
- After an overspend, a forecast's expected value can exceed its maximum
  (`Forecast.OverspendOrder`, `Forecast.OverspendWitness`).
- The daily total rebuilt on restart leaves out records made in the first second
  of the window but not at its start, because the two time formats compared sort
  differently (`Timestamps.FormatsSort`, `CostLedger.RebuiltDayIsExactIff`,
  `CostLedger.MisreadWitness`).
- Under concurrent writers the daily total is not the day's spend in the database:
  it lacks what is inserted and not yet added, and has too much exactly when a
  record was added after the window had moved on from it
  (`CostLedger.ExcessIffAddedLate`).  So the ceiling can trip on a day without
  spend, and stay open on one that passed it
  (`CircuitBreaker.TrippedByLateWitness`, `CircuitBreaker.OpenWhilePendingWitness`).
- A one-time job whose time comes while the scheduler is stopped, an interrupted
  one included, is never executed: the reload means to have it executed on the
  next tick, but starting recomputes its next run to none
  (`Cron.OneTimeJobsRunIff`, `Cron.InterruptedWitness`).  An interrupted repeating
  job waits a full period (`Cron.StoppedRepeatsWait`, `Cron.RepeatWaitsWitness`).
- Forced compression can leave tool replies without their call, because its note
  shields them from the loop that removes orphans (`AgentLoop.CompressionIsPairedIff`,
  `AgentLoop.CompressionWitness`).
- Eliding old observations turns a tool reply that shows a long file into a user
  message, and a user message that begins like an observation into a tool reply
  (`AgentLoop.ElidedIsPairedIff`, `AgentLoop.ElisionWitness`).
- Pruning locks is invisible only while clock readings reach the mutex in order
  (`Locks.PruningIsVisibleIff` for whole runs, `Locks.PruneSeenByAcquireIff` and its
  two companions for single calls, `Locks.StalePruneWitness`).
- Two capability requests that use one ID at the same time can leave one of them
  without any reply, also after a disconnect (`WebSocket.SharedIdStrandsIff`,
  `WebSocket.SharedIdWitness`).

## Model

| member | source | states |
|---|---|---|
| WebSocket.NoStrandedWaiter | pkg/api/websocket.go:341-369 | in every interleaving, once the disconnecting thread has finished, a requester past its enqueue has a reply in its channel or a responder that can deliver one at once, and its entry is out of the table |
| WebSocket.LateRequestsAreRefused | pkg/api/websocket.go:401-404 | a request registered after the cancel never gets past its enqueue, in any continuation of the run |
| WebSocket.RepliesMatch | pkg/api/websocket.go:297-325 | at most one message is ever sent on a request's channel, and the reply returned carries the requester's own ID |
| WebSocket.SendNeverBlocks | pkg/api/websocket.go:310-321 | the responder's plain send finds its channel empty in every reachable state |
| WebSocket.FailureIsAlwaysDelivered | pkg/api/websocket.go:483-493 | the disconnecting thread's send never takes its default branch |
| WebSocket.NoDeadlock | pkg/api/websocket.go:358-369 | after a disconnect, a request that has not returned has an enabled step of its own, or the delivery of its reply, that lowers a measure of at most five |
| WebSocket.NoStepPutsBack | pkg/api/websocket.go:325-369 | no step of any thread raises that measure |
| WebSocket.StepKeepsInv | pkg/api/websocket.go:297-494 | every step of requesters, responder and disconnect keeps the invariant on table, replies in flight, disconnect and channels, as long as no two requests use an ID at the same time |
| WebSocket.SharedIdStrandsIff | pkg/api/websocket.go:341-369 | from any reachable state, registering under the ID of a live request has a continuation that leaves one of the two without any reply exactly when the connection is not cancelled, or the other request is in the table and past its check of the connection |
| WebSocket.StrandOlder | pkg/api/websocket.go:341-344 | the overwritten request goes on to wait with a channel nobody holds |
| WebSocket.StrandNewer | pkg/api/websocket.go:351-367 | the older request, giving up, removes the entry of the newer, which goes on to wait |
| WebSocket.SharedIdWitness | pkg/api/websocket.go:341-344 | a run from the start to such a registration |
| WebSocket.OrphansStayOrphans | pkg/api/websocket.go:466-494 | no step but its own deadline ends such a wait |
| WebSocket.Channel.TrySend | pkg/api/websocket.go:484-492 | a one-slot send that gives up when full |
| WebSocket.Client.Register | pkg/api/websocket.go:341-344 | stores a fresh empty channel under the request's ID |
| WebSocket.Client.Unregister | pkg/api/websocket.go:352-355 | removes exactly that entry |
| WebSocket.Client.Enqueue | pkg/api/websocket.go:443-464 | refused once the connection is done; otherwise appended if there is room in time |
| WebSocket.Client.HandleCapabilityResponse | pkg/api/websocket.go:297-322 | takes the entry out and puts exactly the reply on its channel; an unknown or empty ID changes nothing |
| WebSocket.Client.TakePending | pkg/api/websocket.go:476-482 | empties the table into a list that holds each pending request once |
| WebSocket.Client.FailPendingCapabilityRequests | pkg/api/websocket.go:466-494 | empties the table and leaves on each pending channel exactly the failure for its own ID |
| WebSocket.Server.RemoveWSClient | pkg/api/websocket.go:392-404 | the first caller removes the client, cancels it and leaves on each pending channel one failure for its own ID; a later one changes nothing |
| Cron.OneTimeJobsRunOnce | pkg/cron/service.go:142-301 | over any run with failing saves, restarts during executions and crashes, a one-time job's handler is called at most once and not before its time |
| Cron.StepKeepsOnce | pkg/cron/service.go:89-517 | the invariant behind it is kept by every step |
| Cron.MissedJobsNeverRun | pkg/cron/service.go:258-301 | a one-time job whose time comes while the scheduler is stopped is never claimed again, in any continuation |
| Cron.OneTimeJobsRunIff | pkg/cron/service.go:89-176 | from a successful start on, or from its adding or enabling while the scheduler runs, and while the scheduler is not stopped and the job neither switched nor removed, an enabled one-time job is claimed exactly when its time lay ahead then and a check came at or after it |
| Cron.SchedulesIffAhead | pkg/cron/service.go:258-301 | each of these three gives an enabled one-time job its time as next run exactly when that lies ahead, and then it is idle and was never claimed |
| Cron.ScheduledJobsRunIff | pkg/cron/service.go:142-291 | from a start, an adding, an enabling or the end of an execution of a job that has no other in flight, while the scheduler is not stopped and the job neither switched nor removed: a job of a period is claimed again exactly when a check comes that period later, a cron job when one comes at its next tick, a one-time job at its time if that lay ahead, and a job without a next time never |
| Cron.InvokeCallsIff | pkg/cron/service.go:191-210 | a claimed execution calls the handler exactly when its job is still stored |
| Cron.FinishRecords | pkg/cron/service.go:228-243 | a finished job that is still stored carries the start of its run and what the handler said |
| Cron.CheckClaims | pkg/cron/service.go:150-176 | the first check at or after its time claims a waiting job |
| Cron.InterruptedWitness | pkg/cron/service.go:349-357 | a run in which a crash interrupts a one-time job that is then never claimed again |
| Cron.RepeatWaitsWitness | pkg/cron/service.go:349-357 | a run in which a crash interrupts a repeating job, which is still not claimed just before a period has passed since the restart |
| Cron.StoppedRepeatsWait | pkg/cron/service.go:265-271 | after any moment at which the scheduler is stopped, no repeating job is claimed before a full period has passed |
| Cron.ExecutionIsExclusive | pkg/cron/service.go:142-255 | when Start comes only with nothing in flight, no job has two executions in flight, and a stored job is marked running exactly while it has one |
| Cron.RepeatsAreSpaced | pkg/cron/service.go:265-271 | in such runs a repeating job starts again no sooner than its period after each completion |
| Cron.StepKeepsCalm | pkg/cron/service.go:89-517 | the invariant behind both is kept by every step |
| Cron.CrashKeepsCalm | pkg/cron/service.go:349-357 | a crash and reload leave no job marked running |
| Cron.StepKeepsStores | pkg/cron/service.go:331-517 | in memory and on disk each job occurs once, keeps its schedule, and a one-time job is due at its time or never |
| Cron.WithoutKeeps | pkg/cron/service.go:473-480 | removal keeps exactly the jobs with another ID, and their uniqueness |
| Cron.DueIdsAreUnique | pkg/cron/service.go:154-158 | one claim never lists a job twice |
| Cron.CronService.constructor | pkg/cron/service.go:78-87 | opens on what loading the file gives |
| Cron.CronService.LoadStore | pkg/cron/service.go:331-360 | the saved jobs, with every running one interrupted; nothing when the file cannot be read; what was decoded when it does not fit the types |
| Cron.CronService.RecomputeNextRuns | pkg/cron/service.go:293-301 | exactly the enabled jobs get a new next run |
| Cron.CronService.Start | pkg/cron/service.go:89-111 | reload, recompute and save; running only if all succeed, otherwise what was loaded stays and it is not running |
| Cron.CronService.Stop | pkg/cron/service.go:113-126 | not running afterwards, nothing else changed |
| Cron.CronService.CollectDue | pkg/cron/service.go:150-159 | the loop finds exactly the due jobs, in order |
| Cron.CronService.ClaimDue | pkg/cron/service.go:142-176 | marks exactly the due jobs running and saves, or does nothing when stopped |
| Cron.CronService.Find | pkg/cron/service.go:193-200 | the index of the first job with the ID, or the length |
| Cron.CronService.Lookup | pkg/cron/service.go:191-205 | a copy of the stored job, or none if it was removed since its claim |
| Cron.CronService.Finish | pkg/cron/service.go:212-254 | records start and outcome, leaves a repeating job its schedule and switch and computes its next run; deletes or disables a one-time job; changes nothing if the job is gone |
| Cron.CronService.AddJob | pkg/cron/service.go:415-450 | appends the new job even when the save fails |
| Cron.CronService.RemoveJob | pkg/cron/service.go:466-491 | removes the job and saves only if there was one |
| Cron.CronService.EnableJob | pkg/cron/service.go:493-517 | switches the job and recomputes or clears its next run |
| CostLedger.NoUpdateIsLost | pkg/costledger/store.go:211-224 | for any interleaving of concurrent records, a task's cached total plus what is inserted and not yet added is the sum in the database, and each record ID is stored once |
| CostLedger.StepKeepsTask | pkg/costledger/store.go:120-146 | each atomic step, failed swaps included, keeps that equation |
| CostLedger.RestartChangesNoTotal | pkg/costledger/store.go:85-104 | when no writer is between insert and add, the cache is exactly the rebuilt one |
| CostLedger.RebuiltIsTotal | pkg/costledger/store.go:87-100 | the grouped query gives each task with a record its sum, and no other task |
| CostLedger.DailyTotalIsClose | pkg/costledger/store.go:226-260 | in any concurrent run of records that carry their recording times and cost nothing negative: the day's total is the day's spend in the database, less what is inserted and not yet added, plus what was added late, and at most one nano-dollar per record below that, never above |
| CostLedger.StepKeepsSpend | pkg/costledger/store.go:120-146 | each step keeps the equation between the day's records in the total, those still owed to it and those in the database |
| CostLedger.ExcessIffAddedLate | pkg/costledger/store.go:246-260 | the total holds records of an earlier day exactly when some call added one after the window had moved on from its own clock reading |
| CostLedger.AdditionsAreClose | pkg/costledger/store.go:238-244 | after k additions the total is at most k nano-dollars below their sum, and never above it |
| CostLedger.LateWitness | pkg/costledger/store.go:120-146 | a run that ends with a hundred dollars in the total of a day without records |
| CostLedger.PendingWitness | pkg/costledger/store.go:129-143 | a run that ends with a hundred dollars in the database and none in the total |
| CostLedger.WindowIsTheDay | pkg/costledger/store.go:120-146 | with calls one at a time the window between them is exactly the day's records in the database |
| CostLedger.AddKeepsBooks | pkg/costledger/store.go:238-244 | one addition loses less than one nano-dollar |
| CostLedger.DayStartIsTheReset | pkg/costledger/store.go:75-82 | the window's start is the one reset with start <= now < start + 24h |
| CostLedger.WindowFollowsTheClock | pkg/costledger/store.go:246-260 | the window never moves back, and a call past its rotation works in the window of its own clock reading or a later one |
| CostLedger.RestartKeepsTheDay | pkg/costledger/store.go:106-115 | with calls one at a time, a restart within the day keeps the same records in the window and a total between the old one and k nano-dollars more |
| CostLedger.RebuiltDayIsExactIff | pkg/costledger/store.go:106-115 | the rebuilt daily sum is the true one exactly when every record in the misread first second was free |
| CostLedger.MisreadWitness | pkg/costledger/store.go:106-115 | a run in which a restart loses a dollar recorded half a second into the day |
| CostLedger.TextOrderIsCounted | pkg/costledger/store.go:108-110 | in the years RFC 3339 can print, the stored text of a record sorts at or after that of the window's start iff the record lies at the start or at least a second after it |
| Timestamps.FormatsSort | pkg/costledger/store.go:109 | RFC 3339 text with a fraction sorts before text without one iff it is earlier, or later within the same second |
| Timestamps.StampSorts | pkg/costledger/store.go:132 | the texts up to the second sort by time and have one length |
| Timestamps.YearAddsUp | pkg/costledger/store.go:132 | the year and day of the year count back to the day they were split from |
| Timestamps.PlaceAddsUp | pkg/costledger/store.go:132 | so do the month and day of the month |
| CostLedger.CallIsRecord | pkg/costledger/store.go:120-146 | an uninterrupted call is a run of the machine and ends in the state of the sequential method |
| CostLedger.SQLiteLedger.constructor | pkg/costledger/store.go:50-71 | opens in the rebuilt state, an invalid reset hour counting as midnight |
| CostLedger.SQLiteLedger.QueryTaskTotals | pkg/costledger/store.go:87-104 | the sum by task of the whole database |
| CostLedger.SQLiteLedger.QueryDailyTotal | pkg/costledger/store.go:106-114 | the sum of what the text comparison counts since the start of the window |
| CostLedger.SQLiteLedger.RebuildAccumulators | pkg/costledger/store.go:85-117 | both caches from the two queries, the day's truncated to nano-dollars |
| CostLedger.SQLiteLedger.Record | pkg/costledger/store.go:120-146 | stored and added to its task exactly when the insert works and no stored record has its ID; otherwise only the rotation is done; an exact cache stays exact |
| CostLedger.SQLiteLedger.AddToTaskTotal | pkg/costledger/store.go:211-224 | the retry loop adds the cost once |
| CostLedger.SQLiteLedger.AddToDailyTotal | pkg/costledger/store.go:239-244 | by way of dollars, adds the cost rounded down to whole nano-dollars and nothing else is lost |
| CostLedger.SQLiteLedger.StoreDailyTotal | pkg/costledger/store.go:227-231 | stores a non-negative total to within one nano-dollar, never above it |
| CostLedger.SQLiteLedger.LoadDailyTotal | pkg/costledger/store.go:234-236 | nano-dollars as dollars |
| CostLedger.SQLiteLedger.RotateDailyIfNeeded | pkg/costledger/store.go:247-260 | the window never moves back, contains now or is later, and its total is emptied exactly when it moves |
| CostLedger.SQLiteLedger.TaskCumulative | pkg/costledger/store.go:149-155 | the cached total, zero for an unknown task |
| CostLedger.SQLiteLedger.DailyTotal | pkg/costledger/store.go:158-161 | the total of the window that contains now, or of a later one |
| CircuitBreaker.DayBreaksInTime | pkg/costledger/circuit_breaker.go:183-194 | in any concurrent run a check stops a task for the day only if the day's records in the database with those added late reach the ceiling together with what is still owed, and stops every task once they pass it by a nano-dollar for each of the k records added |
| CircuitBreaker.SettledDayBreaksInTime | pkg/costledger/circuit_breaker.go:183-194 | without late additions and pending ones the database alone decides, to k nano-dollars |
| CircuitBreaker.TrippedByLateWitness | pkg/costledger/circuit_breaker.go:183-194 | a run in which the ceiling trips on a day without spend |
| CircuitBreaker.OpenWhilePendingWitness | pkg/costledger/circuit_breaker.go:183-194 | a run in which it stays open although the database has passed it |
| CircuitBreaker.BudgetBreaksInTime | pkg/costledger/circuit_breaker.go:160-168 | a check stops a task for its budget only if the database says it is spent, and exactly when it is spent without what concurrent calls have still to add |
| CircuitBreaker.OneWarningPerReset | pkg/costledger/circuit_breaker.go:170-181 | with checks one at a time a task is warned about once between resets, at the first check that is due |
| CircuitBreaker.TaskBudgetStore.Register | pkg/costledger/circuit_breaker.go:37-41 | sets one task's budget |
| CircuitBreaker.TaskBudgetStore.Lookup | pkg/costledger/circuit_breaker.go:51-56 | found exactly when registered |
| CircuitBreaker.TaskBudgetStore.Remove | pkg/costledger/circuit_breaker.go:59-63 | removes one task's budget |
| CircuitBreaker.Breaker.constructor | pkg/costledger/circuit_breaker.go:119-141 | a threshold outside (0, 1) becomes 0.8 |
| CircuitBreaker.Breaker.CheckBudget | pkg/costledger/circuit_breaker.go:159-181 | the task's part of a check: stopped or warned |
| CircuitBreaker.Breaker.CheckCircuitBreaker | pkg/costledger/circuit_breaker.go:149-197 | rotates first; stops for the budget exactly when one above zero is registered and reached, else for the day exactly when a ceiling above zero is; warns once below the budget |
| CircuitBreaker.Breaker.ResetTaskWarning | pkg/costledger/circuit_breaker.go:215-221 | forgets one task's warning |
| Bus.EverySenderIsCounted | pkg/bus/bus.go:126-166 | senders started = pending + delivered + dropped - drops made later by the drains, at every moment of every run |
| Bus.ConsumersSeeOrder | pkg/bus/bus.go:192-216 | a consumer receives a subsequence of what entered its buffer, nothing twice, and nothing whose publish had returned before that of an earlier message was called |
| Bus.SequentialPublishesStayInOrder | pkg/bus/bus.go:126-166 | with publishes one after another, every consumer receives in publish order |
| Bus.NothingIsLost | pkg/bus/bus.go:192-216 | as long as a subscriber's drain neither times out nor stops, what its consumer received, what is on its way and what is buffered is exactly what entered, in order |
| Bus.LossesAreDrops | pkg/bus/bus.go:192-216 | in any run, what is missing from that is as much as the drain dropped and counted or is about to count, and one message at most that a stop left in its hands |
| Bus.SubscribersAreIsolated | pkg/bus/bus.go:122-158 | a subscriber's buffer, stream and consumer depend only on the steps that concern it, in any two runs |
| Bus.SendersNeverWait | pkg/bus/bus.go:145-161 | a sender always has a step of its own, and at most two left, whatever consumers do |
| Bus.StepKeepsInv | pkg/bus/bus.go:70-292 | every step keeps the invariant on counts, queues and order |
| Bus.FannedIsItsMoves | pkg/bus/bus.go:145-161 | a sender run by itself is the machine's start, select and count |
| Bus.Subscriber.Offer | pkg/bus/bus.go:147-161 | into the buffer when there is room, else refused; with cancellation and room the runtime picks |
| Bus.Subscriber.Send | pkg/bus/bus.go:145-161 | a whole sender, also of a subscriber cancelled meanwhile: delivered exactly when there is room and the runtime does not pick the cancellation |
| Bus.Subscriber.DrainOnce | pkg/bus/bus.go:194-215 | one turn of the drain: the oldest message is forwarded exactly when the consumer has room and nothing stops or times out, else let go and counted unless the drain stopped |
| Bus.MessageBus.SubscribeOutbound | pkg/bus/bus.go:171-225 | appends a fresh subscriber |
| Bus.MessageBus.RemoveSubscriber | pkg/bus/bus.go:70-80 | unlists the subscriber and cancels it; the others keep their order |
| Bus.MessageBus.Close | pkg/bus/bus.go:282-292 | cancels all listed subscribers and empties the list, once |
| Bus.MessageBus.FanOut | pkg/bus/bus.go:140-163 | every target with room gets the message and both totals account for every target |
| Bus.MessageBus.PublishOutbound | pkg/bus/bus.go:126-166 | nothing once closed; otherwise exactly the subscribers with room get the message, and all are counted |
| Locks.TenureHolds | pkg/locks/registry.go:54-88 | after a successful Acquire no other task gets the path before the time-to-live is over, however stale its clock reading, unless the holder acts |
| Locks.TenureEnds | pkg/locks/registry.go:74-79 | straight after an Acquire, a rival is let in exactly when its reading is past the expiry |
| Locks.ReleaseAnswers | pkg/locks/registry.go:92-113 | a Release succeeds exactly for the task that holds the path, expired or not, and tells another who does |
| Locks.HolderReleases | pkg/locks/registry.go:92-113 | after an Acquire its holder alone can release the path, and then anyone may take it |
| Locks.ObserversAgree | pkg/locks/registry.go:74-148 | Acquire, IsLocked and Query give one answer about a path, except that Query drops a lock at the exact moment of its expiry |
| Locks.PruningIsInvisible | pkg/locks/registry.go:171-182 | with readings in order, leaving all prunes out of a run changes no answer of Acquire, IsLocked or Query |
| Locks.PruningIsVisibleIff | pkg/locks/registry.go:171-182 | over any run, with readings in any order, some answer shows that pruning ran exactly when some call comes upon a lock it would respect or report, that an earlier prune removed and nothing has replaced since |
| Locks.UnseenUntilMet | pkg/locks/registry.go:171-182 | until then, leaving the prunes out leaves the same table and those locks |
| Locks.PruneSeenByAcquireIff | pkg/locks/registry.go:171-182 | a prune changes an Acquire's answer exactly when its reading is past another task's expiry and the caller's is not |
| Locks.PruneSeenByIsLockedIff | pkg/locks/registry.go:171-182 | a prune changes an IsLocked answer exactly when its reading is past the lock's expiry and the caller's is not |
| Locks.PruneSeenByQueryIff | pkg/locks/registry.go:171-182 | and a Query answer exactly when that holds of some lock still listed |
| Locks.StalePruneWitness | pkg/locks/registry.go:66-69 | a run in which that happens |
| Locks.InMemoryRegistry.Acquire | pkg/locks/registry.go:54-88 | argument errors, refusal, overwrite of an expired lock, refresh by the holder |
| Locks.InMemoryRegistry.Release | pkg/locks/registry.go:92-113 | removes only the caller's own lock, expired or not |
| Locks.InMemoryRegistry.Query | pkg/locks/registry.go:116-129 | exactly the active locks, each once |
| Locks.InMemoryRegistry.IsLocked | pkg/locks/registry.go:133-148 | the holder of an unexpired lock |
| Locks.InMemoryRegistry.PruneExpired | pkg/locks/registry.go:171-182 | removes exactly the expired locks |
| Budget.OvershootIsBounded | pkg/agent/loop.go:721-726 | with action "stop", W workers and at most M tokens a call, a role never books more than limit - 1 + W * M, in any interleaving and across days |
| Budget.OvershootIsAttained | pkg/agent/loop.go:819-825 | some run books exactly that many, for every limit, W and M |
| Budget.StepKeepsBound | cmd/vikram/budget_cmd.go:51-84 | each check, record, failed call and day change keeps booked tokens plus what calls in flight may add within the bound |
| Budget.BooksAreHonest | cmd/vikram/budget_cmd.go:51-84 | booked tokens are what was recorded since the last reset, and no role is notified twice on one day |
| Budget.ChecksRefuseIff | cmd/vikram/budget_cmd.go:51-78 | in any run a check refuses exactly when the role's action is "stop" and its limit was spent today |
| Budget.NotifiedIff | cmd/vikram/budget_cmd.go:63-73 | with a notifier, a role is told on a day exactly when some check of that day finds its limit spent |
| Budget.OneMoreAgent | cmd/vikram/budget_cmd.go:30-43 | each configured agent in turn overrides the limit and action of its role |
| Budget.AgentBudget.constructor | cmd/vikram/budget_cmd.go:23-45 | limits and actions are those of the last agent that sets a positive limit for the role |
| Budget.AgentBudget.SetNotifier | cmd/vikram/budget_cmd.go:47-49 | notices are sent from now on |
| Budget.AgentBudget.Check | cmd/vikram/budget_cmd.go:51-78 | resets on a new day; refuses exactly a "stop" role whose limit is spent; tells exactly once a day, and only past a limit |
| Budget.AgentBudget.Record | cmd/vikram/budget_cmd.go:80-84 | adds to the role's tokens |
| LoopDetect.VerdictIsMostSevere | pkg/agent/tool_loop_detect.go:94-108 | taking the first rule that fires gives the most severe of the four |
| LoopDetect.VerdictNames | pkg/agent/tool_loop_detect.go:94-108 | which rule gives the verdict its kind: of several warnings the first in the order repeat, no progress, alternation |
| LoopDetect.TailRules | pkg/agent/tool_loop_detect.go:168-227 | no progress is five equal outcomes at the end, alternation eight calls of two hashes in turn |
| LoopDetect.CriticalIffUnsafe | pkg/agent/tool_loop_detect.go:112-160 | the verdict is critical exactly when some call reached 30 in all or 20 in the last 30 |
| LoopDetect.PingPongOnTail | pkg/agent/tool_loop_detect.go:195-227 | alternation read from the front of the tail is alternation stated from the back of the history |
| LoopDetect.ToolLoopDetector.Record | pkg/agent/tool_loop_detect.go:73-81 | the window is the last 30 calls and the counts are those of the whole history |
| LoopDetect.ToolLoopDetector.RecordOutcome | pkg/agent/tool_loop_detect.go:84-90 | the window is the last 30 outcomes |
| LoopDetect.ToolLoopDetector.CheckCircuitBreaker | pkg/agent/tool_loop_detect.go:112-126 | answers as the rule over the whole history |
| LoopDetect.ToolLoopDetector.CountCalls | pkg/agent/tool_loop_detect.go:132-136 | the map counts each call as often as it occurs among the last 30 |
| LoopDetect.ToolLoopDetector.MaxCount | pkg/agent/tool_loop_detect.go:137-144 | the highest count, which some call has |
| LoopDetect.ToolLoopDetector.CheckGenericRepeat | pkg/agent/tool_loop_detect.go:128-166 | answers as the rule over the last 30 calls of the history |
| LoopDetect.ToolLoopDetector.CheckNoProgress | pkg/agent/tool_loop_detect.go:168-193 | answers as the rule over the whole history |
| LoopDetect.ToolLoopDetector.CheckPingPong | pkg/agent/tool_loop_detect.go:195-227 | answers as the rule over the whole history |
| LoopDetect.ToolLoopDetector.Check | pkg/agent/tool_loop_detect.go:94-108 | severity and kind are those of the four rules on the full history |
| AgentLoop.ExpectIffPaired | pkg/agent/loop.go:920-1033 | reading a history from the left accepts exactly those in which every reply answers the call made for its place |
| AgentLoop.CutStaysPaired | pkg/agent/context.go:354-360 | any suffix of a well-paired history, stripped of leading tool messages, is well paired and awaits the same calls |
| AgentLoop.SessionsStayPaired | pkg/session/manager.go:288-309 | with truncation to the last four at any moment, the stripped session has no orphan reply, and is complete whenever no call is pending |
| AgentLoop.BatchIsComplete | pkg/agent/loop.go:920-1033 | whatever truncation left at the front of a session, a batch leaves no call in it unanswered |
| AgentLoop.BatchIsExact | pkg/agent/loop.go:920-1033 | a batch appends the assistant message and exactly its replies, in order |
| AgentLoop.StrippedBatch | pkg/agent/context.go:354-360 | stripping orphans before a batch or after it comes to the same |
| AgentLoop.BatchIsRun | pkg/agent/loop.go:920-1033 | what an iteration does to a session is a run of the session machine: the call and its replies |
| AgentLoop.TurnIsRun | pkg/agent/loop.go:683-1063 | so is a whole turn without compressions, as the turn loop leaves the session |
| AgentLoop.TurnIsComplete | pkg/agent/loop.go:683-1063 | after any number of iterations, with any compressions that cut cleanly, the session has no unanswered call |
| AgentLoop.NoCallRunsAway | pkg/agent/loop.go:1045-1062 | whenever the turn goes on, every identical call occurred fewer than 30 times in all and fewer than 20 in the last 30 |
| AgentLoop.CompressionIsPairedIff | pkg/agent/loop.go:1108-1136 | for any session, however often truncated before, forced compression keeps it paired exactly when the kept half does not begin with a tool message |
| AgentLoop.CompressionWitness | pkg/agent/loop.go:1108-1136 | a history on which it does not |
| AgentLoop.CompressedIsComplete | pkg/agent/loop.go:1108-1136 | a clean compression leaves no call unanswered |
| AgentLoop.SqueezedKeepsNewest | pkg/agent/loop.go:1108-1136 | the last three messages of a session survive any number of compressions |
| AgentLoop.TurnEndsBy | pkg/agent/loop.go:887-1062 | each way of ending a turn, by the last reply and the calls so far |
| AgentLoop.StrippedIsEnd | pkg/agent/context.go:354-360 | stripping removes the tool messages at the front and nothing else |
| AgentLoop.ElidedIsPairedIff | pkg/agent/context.go:436-472 | eliding keeps a well-paired history paired exactly when every message it may change keeps its role and its call |
| AgentLoop.ElidedIsExpected | pkg/agent/context.go:436-472 | and then it awaits the same calls |
| AgentLoop.ElidedIsCompleteIff | pkg/agent/context.go:436-472 | a complete history stays complete exactly when its elision is harmless |
| AgentLoop.ElisionWitness | pkg/agent/context.go:461-467 | a history that it breaks: a long file shown by a tool |
| AgentLoop.PlainInFront | pkg/agent/context.go:365-377 | a system or user message in front changes nothing for what follows |
| AgentLoop.SessionManager.AddFullMessage | pkg/session/manager.go:71-87 | appends to the session, creating it if needed |
| AgentLoop.SessionManager.SetHistory | pkg/session/manager.go:273-282 | replaces an existing session's messages |
| AgentLoop.SessionManager.SummarizeAndTruncate | pkg/session/manager.go:288-309 | sets the summary and keeps the last messages in one step |
| AgentLoop.AgentLoop.BuildMessages | pkg/agent/context.go:322-380 | prompt, stripped and elided history, and current message; for a complete stripped history the request is complete exactly when the elision is harmless |
| AgentLoop.AgentLoop.CompressHistory | pkg/agent/context.go:439-473 | the loop replaces exactly the old observations and file views |
| AgentLoop.AgentLoop.ForceCompression | pkg/agent/loop.go:1108-1136 | a session of more than four messages becomes the note and its newer half, message for message; a shorter one stays |
| AgentLoop.AgentLoop.Ask | pkg/agent/loop.go:736-885 | each retry for length compresses the session and builds the request anew from it |
| AgentLoop.AgentLoop.RunTool | pkg/agent/loop.go:943-1033 | one call reaches the detector and gets its reply in the session |
| AgentLoop.AgentLoop.RunTools | pkg/agent/loop.go:943-1033 | each call is recorded and answered, in order, in the request and in the session |
| AgentLoop.AgentLoop.RunIteration | pkg/agent/loop.go:683-1063 | compresses as often as the model demands, then leaves the next request, complete if the one answered was, or ends the turn as the replies and the detector demand |
| AgentLoop.AgentLoop.Follow | pkg/agent/loop.go:887-1063 | the part of an iteration after the model has replied: the next request is this one with the batch, and a warning if the detector has one |
| AgentLoop.AgentLoop.RunLLMIteration | pkg/agent/loop.go:675-1066 | against any replies and retries, the session is compressed where demanded and gains one batch per iteration with tool calls; every iteration but the last let the turn go on, with every call so far within both bounds; without compressions each next request is complete |
| OneBot.RepeatsAreFarApart | contrib/channels/onebot.go:643-663 | over any stream, an ID is let through again only after N other acceptances |
| OneBot.SmallStreamsAreExactlyOnce | contrib/channels/onebot.go:643-663 | a stream of at most N different IDs gets each through exactly once |
| OneBot.SlotsAreTheWindow | contrib/channels/onebot.go:652-661 | the non-empty slots are exactly the last N accepted IDs |
| OneBot.SlotsAreDistinct | contrib/channels/onebot.go:652-661 | no ID is in two slots |
| OneBot.RingAdvances | contrib/channels/onebot.go:654-660 | the slot written next holds the oldest remembered ID |
| OneBot.WindowSlides | contrib/channels/onebot.go:654-660 | accepting into a full window forgets exactly the oldest |
| OneBot.Dedup.constructor | contrib/channels/onebot.go:96-107 | a ring of any positive size, empty |
| OneBot.Dedup.SetMirrorsRing | contrib/channels/onebot.go:652-661 | the set equals the non-empty slots, which are distinct |
| OneBot.Dedup.IsDuplicate | contrib/channels/onebot.go:643-663 | true exactly when the ID is among the last N accepted; the set changes by the oldest and the new ID only |
| SplitMessage.ChunksRebuildTheText | contrib/channels/discord.go:124-182 | the text is its chunks in order with only whitespace between and after them |
| SplitMessage.ChunksFit | contrib/channels/discord.go:124-182 | for every positive limit each chunk is non-empty and at most limit + 500 bytes |
| SplitMessage.CutsWhereTextBreaks | contrib/channels/discord.go:133-142 | every cut, by positions in the text: at the last newline of the last 200 bytes, else the last blank of the last 100, else the limit; where that would leave a fence open, at the end of a text that fits the buffer, else past the next fence within it, else where the text before the first fence breaks, else at the limit |
| SplitMessage.CutsOnce | contrib/channels/discord.go:133-175 | there is only one such place |
| SplitMessage.LaterChunksAreTrimmed | contrib/channels/discord.go:178 | no chunk but the first begins with whitespace |
| SplitMessage.ChunksAreBalanced | contrib/channels/discord.go:133-178 | of all chunks but the last, precisely the unavoidable ones have an odd number of fences |
| SplitMessage.CutIsOddExactly | contrib/channels/discord.go:133-178 | one cut is odd exactly under `Unavoidable` |
| SplitMessage.OnlyTwoExceptions | contrib/channels/discord.go:146-172 | then the text begins with a fence or a fence lies across the limit |
| SplitMessage.OddChunkWitness | contrib/channels/discord.go:111 | at the limit the sender uses, a code block of two thousand bytes is cut with its fence open |
| SplitMessage.FindLastNewline | contrib/channels/discord.go:220-230 | the last newline of the window, or -1 |
| SplitMessage.FindLastSpace | contrib/channels/discord.go:235-246 | the last space or tab of the window, or -1 |
| SplitMessage.FindLastUnclosedCodeBlock | contrib/channels/discord.go:186-205 | -1 for an even number of fences, otherwise the first of them |
| SplitMessage.FindNextClosingCodeBlock | contrib/channels/discord.go:209-216 | just past the next fence, or -1 |
| SplitMessage.NextFenceIsFirst | contrib/channels/discord.go:209-216 | no fence starts before the one found |
| SplitMessage.ChooseEnd | contrib/channels/discord.go:133-175 | the cut chosen by the branches for newline, blank, fence and buffer lies at that place |
| SplitMessage.CutChunk | contrib/channels/discord.go:127-179 | one round of the loop makes progress and agrees with the whole |
| SplitMessage.SplitMessage | contrib/channels/discord.go:124-182 | the loop computes the specified chunks and terminates |
| WrapText.GreedyUsesFewestLines | cmd/vikram/onboard.go:1150-1166 | no legal way of breaking the same words uses fewer lines |
| WrapText.GreedyIsLegal | cmd/vikram/onboard.go:1150-1166 | the lines hold exactly the words in order, and no line of several words is too wide |
| WrapText.PrintedLinesFit | cmd/vikram/onboard.go:1150-1166 | printed, no line of several words is wider than the limit |
| WrapText.GreedyFillsItsLines | cmd/vikram/onboard.go:1150-1166 | no line has room left for the first word of the next |
| WrapText.WrappedLines | cmd/vikram/onboard.go:1141-1170 | every line but the first stands on a new line behind the indent; a text without words is unchanged |
| WrapText.WrappingKeepsTheWords | cmd/vikram/onboard.go:1141-1170 | splitting the wrapped text gives the words of the original, for any width and any blank indent |
| WrapText.Wrap | cmd/vikram/onboard.go:1141-1170 | text without words is returned unchanged, otherwise wrapped |
| WrapText.WrapWords | cmd/vikram/onboard.go:1147-1170 | the loop over current line and width produces the greedy lines |
| Text.TrimSpaceSplits | contrib/channels/discord.go:178 | trimming takes whitespace off both ends and nothing else |
| Text.TrimSpaceIsDone | contrib/channels/discord.go:178 | none is left at either end |
| Text.FieldsAreSolid | cmd/vikram/onboard.go:1142 | the words are non-empty and hold no whitespace |
| Forecast.PercentileIsMonotone | pkg/costledger/forecast.go:174-202 | grows with p and stays within the extremes |
| Forecast.PercentileHitsEveryValue | pkg/costledger/forecast.go:186-201 | at p = k / (n - 1) it is the k-th value |
| Forecast.PercentileIsLinear | pkg/costledger/forecast.go:186-201 | between two data points it is linear |
| Forecast.ForecastReadsHistory | pkg/costledger/forecast.go:47-53 | min, expected and max lie at a tenth, a half and nine tenths of the sorted history |
| Forecast.ForecastCountsHistory | pkg/costledger/forecast.go:49-61 | confidence grows by a twentieth per task up to one |
| Forecast.TiersWithoutHistory | pkg/costledger/forecast.go:18-23 | without a history the tier decides, per file |
| Forecast.ForecastIsOrdered | pkg/costledger/forecast.go:34-62 | min <= expected <= max and confidence within 0 and 1, for every history, tier and file count |
| Forecast.ForecastIgnoresOrder | pkg/costledger/forecast.go:34-62 | depends only on the multiset of past costs |
| Forecast.FlatHistory | pkg/costledger/forecast.go:34-62 | equal past costs are forecast as themselves |
| Forecast.SortedIsUnique | pkg/costledger/forecast.go:47 | a sorted permutation is unique |
| Forecast.Forecast | pkg/costledger/forecast.go:34-62 | sorts the slice in place and computes the forecast of its old contents |
| Forecast.OverspendOrder | pkg/costledger/forecast.go:80-91 | after an overspend min stays lowest, and expected <= max exactly when max / expected >= 1 + 0.2 * spend / expected |
| Forecast.OverspendRescales | pkg/costledger/forecast.go:80-95 | within the forecast nothing changes; past it the maximum keeps its ratio to the spend and a fifth of the confidence goes |
| Forecast.OverspendWitness | pkg/costledger/forecast.go:80-91 | an overspend that breaks the order |

## Left out

- HTTP handlers, OAuth, channel SDK calls, subprocess control, terminal forms, configuration editing and logging: input and output.
- JSON, SHA-256, cron expressions, tokenizers and the providers are opaque: a malformed device message is no step, equal hashes stand for equal arguments, the next tick is an arbitrary function, a reply is arbitrary.
- WebSocket.StepKeepsInv: no two requests use an ID at the same time, which is where the guarantee ends, as `SharedIdStrandsIff` shows; reading and writing the socket and marking the device offline are not modelled.
- Cron.OneTimeJobsRunOnce: without UpdateJob and a bare Load, which may change a job's schedule or state arbitrarily; generated IDs are taken to be distinct, payloads, names and error texts are not modelled. A start that decodes only part of a file is in the class and not in the runs, since what it leaves is arbitrary.
- Cron.ExecutionIsExclusive: only for runs that start the scheduler with nothing in flight; executions claimed by one tick may run in any order here, one after another in the original.
- CostLedger.NoUpdateIsLost: sums are exact, without floating-point rounding and the int64 range.
- CostLedger.DailyTotalIsClose: for records that carry their recording times; the lower bound assumes that no record lies in the misread first second of its window, since a restart drops such records from the total.
- CostLedger.TextOrderIsCounted: for the years 1970 to 9999, where RFC 3339 has four digits for the year.
- CircuitBreaker.OneWarningPerReset: for checks one at a time; concurrent checks may warn twice, since reading and setting the mark are separate steps. A ledger without breaker configuration never breaks and has no object here; a failing ceiling query is not modelled.
- Phase budgets, pricing tables and task metadata of the ledger: straightforward queries and arithmetic.
- Bus.ConsumersSeeOrder: messages are known by the index of their publish, without contents; per-subscriber drop counters, inbound queue, handlers and the five-second duration are not modelled.
- Bus.MessageBus.FanOut: as PublishOutbound below.
- Bus.MessageBus.PublishOutbound: the class runs the senders of one publish one after another; their interleavings are in the state machine.
- Locks.PruningIsInvisible: Release is not among the operations that cannot tell, since it refuses to release a pruned lock and releases an expired one.
- AgentLoop.SessionsStayPaired: without forced compression, whose effects have their own lemmas, and without the repair of interrupted transcripts on loading.
- AgentLoop.AgentLoop.RunLLMIteration: provider fallback, cooldowns and the retry without tools end in a reply or a failure; any number of compressions per iteration is allowed, two in the original; the length cap on tool results, messages to the user and the texts of notes are not modelled.
- Text: Go's unicode.IsSpace on valid UTF-8; malformed byte sequences are not decoded to a replacement character.
- Forecast.OverspendOrder: base expected cost above zero; a zero one, which IEEE arithmetic turns into an infinity, is None in the model.
- The router, archive paging, MCP client and the rest of onboarding: easier repeats of the patterns above.
