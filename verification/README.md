# Monit: a verified model of its job dispatch

Monit keeps every monitor in one of two Redis sorted sets, `monitor:schedule` and
`monitor:inflight`. Schedulers move due jobs to inflight, a goroutine pipeline checks them, and
result handlers ack, reschedule, count retries and incidents, and alert. A reclaimer brings back
jobs whose holder disappeared. The Dafny modules here model that system and prove what holds of it
over every run, every interleaving and every crash, and say exactly when a promise fails.

| module | what it models |
|---|---|
| `SortedSet` | sorted sets in (score, member) order, ZRANGEBYSCORE with LIMIT, rank |
| `RedisStore` | `retry`, the three Lua scripts as loops, ZADD and ZREM commands |
| `Scheduler` | one tick of the dispatch loop with backpressure, over a bounded channel |
| `Dispatch` | the protocol as a step system: one command or row write a step, any number of processes, crashes |
| `DispatchLoss`, `DispatchTokens`, `DispatchExclusion`, `DispatchOrder` | what holds of its runs |
| `Pipeline`, `PipelineShutdown`, `PipelineFlow`, `PipelineOrder` | channels, worker pools, semaphore, router, ordered shutdown |
| `Executor` | from the outcome of a request to a result |
| `Incidents`, `IncidentHistory` | the two result handlers, and whole histories of one monitor |
| `AlertRace`, `AlertRows` | the incident hash and the open incident rows, one command a step |
| `IncidentPaths` | histories of handlers as runs of their commands |
| `HandlerPaths`, `JobPaths` | scripts, handlers, scheduler, executor and API calls as steps and paths of the dispatch protocol |
| `MonitorService`, `CacheRace`, `Quota`, `ServicePaths` | rows, cache, enable and disable, and the quota; service calls as runs of their commands |
| `Cardinality` | counting lemmas |

Reading guide:

- A process is *live* while it is a token: a fetched job, or an API create or enable, that has not
  yet rescheduled, dropped or finished. `released` records why an enabled monitor may be in neither
  set (a terminal result, a Schedule that failed all its attempts, a crash in a window, each while
  the monitor was not scheduled); a later ZADD to the schedule clears it.
- Assumptions: a command that reports an error had no effect; the clock of a command is the time
  of that command and never goes back; the scheduler goroutine has returned before
  `close(JobChan)` (`Shutdown` itself does not wait for it); configured sizes and counts are
  positive, as the configuration demands.
- Where the code falls short of the repository's README, the model follows the code. "Zero job
  loss" fails at two steps, and `KeptStep` says exactly when: the retry path's ack, which comes
  after its Schedule and carries no fencing token (`RetryRunLosesIt`), and the ZREM of a disable
  that an enable has overtaken (`OvertakenDisableLosesIt`, without any crash or failed command).
  Such a loss lasts until a disable (`LossIsPermanent`). "No two instances ever grab the same
  job" fails once a holder outlives its visibility timeout (`ExclusiveStep`, `DoubledReachable`).
  Results never carry their monitor's interval (`ResultShapes`), so an ordinary reschedule is due
  at once (`RescheduledIsDue`). An EXPIRE error counts one failure twice
  (`CountsOnceUnless`). Enabling a monitor may stay invisible behind a cached copy
  (`EnableVisibleUnlessCached`, `InvisibleEnableReachable`).

## Model

| member | source | states |
|---|---|---|
| SortedSet.RangeOfMeetsSpec | internals/modules/scheduler/lua_scripts.go:29-29 | a range query returns min(limit, due) due members by rising score and then rising member, all before every due member left behind |
| SortedSet.RangeOfUnique | internals/modules/scheduler/lua_scripts.go:29-29 | those conditions determine the reply |
| SortedSet.BatchByRank | internals/modules/scheduler/lua_scripts.go:29-35 | a due member is in a batch if and only if its rank is below the limit; otherwise the batch lowers its rank by exactly the limit |
| RedisStore.Retry | pkg/redisstore/retry.go:8-25 | success if and only if some attempt succeeds before the attempts run out or the context is cancelled; the number of calls and the full waits of the growing backoff in closed form in every case (the part of a wait that a cancellation cuts short is not counted) |
| RedisStore.RangeByScore | internals/modules/scheduler/lua_scripts.go:47-47 | a selection loop computes the specified range |
| RedisStore.Store.FetchDue | internals/modules/scheduler/lua_scripts.go:11-17 | returns the range and removes exactly it, the same items and the same remaining schedule as fetch-and-move |
| RedisStore.Store.FetchAndMoveToInflight | internals/modules/scheduler/lua_scripts.go:24-37 | removes exactly the returned range from the schedule and puts exactly it into inflight with score now + timeout |
| RedisStore.Store.ReclaimMonitors | internals/modules/scheduler/lua_scripts.go:44-54 | removes the expired range from inflight, puts exactly it into the schedule with score now, and counts it |
| RedisStore.MoveConserves | internals/modules/scheduler/lua_scripts.go:31-35 | a move conserves the members of the union of the two sets |
| RedisStore.NothingOvertaken | internals/modules/scheduler/lua_scripts.go:47-52 | a script leaves behind no due entry with a lower score, or with the same score and a lower member, than a returned one |
| RedisStore.Store.Schedule | pkg/redisstore/scheduler.go:13-20 | adds or overwrites one entry if and only if one of three attempts succeeds |
| DispatchLoss.KeptAck | pkg/redisstore/scheduler.go:107-109 | an ack, which removes the inflight entry whoever put it there, keeps a monitor if and only if it is not a late ack of its only trace |
| JobPaths.ReleasedExactly | internals/modules/result/failure_worker.go:23-42 | a step releases a monitor if and only if it is unscheduled and the step acks its terminal result, fails its Schedule after an ack or in an API call, or crashes in its window |
| Scheduler.AddJitter | internals/modules/scheduler/scheduler.go:161-164 | the delay lies in [d, 1.1 d) |
| Scheduler.JitterCovers | internals/modules/scheduler/scheduler.go:161-164 | every delay in that range comes from exactly one draw |
| Scheduler.Dispatcher.Offer | internals/modules/scheduler/scheduler.go:101-115 | one job is sent if there is room, re-added 2 to 2.2 seconds ahead if the channel is full, dropped only if the context is done |
| Scheduler.FateDetermined | internals/modules/scheduler/scheduler.go:101-115 | channel level, context and outcomes of a select leave a job no choice of fate but the jitter |
| Scheduler.Dispatcher.DoWork | internals/modules/scheduler/scheduler.go:81-117 | nothing happens if the script is not reached; otherwise every fetched job is inflight at its deadline whatever its fate, each met the fate its channel level selects, and the channel stays in order and within capacity |
| JobPaths.SelectIsAStep | internals/modules/scheduler/scheduler.go:101-115 | what the select does to the schedule is a protocol step of the holder: none if the job is sent, a reschedule 2 to 2.2 seconds ahead without an ack if the channel is full, a drop if the context is done |
| JobPaths.LoadIsAStep | internals/modules/executor/executor.go:81-99 | so is what a worker does after its load: none exactly for an enabled monitor, a reschedule 5 seconds ahead without an ack after a load error, a drop for a missing or disabled one |
| DispatchLoss.KeptStep | internals/modules/result/failure_worker.go:23-62 | from any state, a step keeps an enabled, unreleased monitor in a set or in a window if and only if it is neither a late ack of its only trace nor the ZREM of a disable that deletes its only trace after an enable has set the row again |
| DispatchLoss.KeptExactly | internals/modules/result/failure_worker.go:23-62 | over every run, that holds at all times if and only if neither step occurs |
| DispatchLoss.SpoiltMeansRefetched | internals/modules/result/failure_worker.go:56-62 | in every run the model's mark on a late ack is set if and only if a fetch of its monitor came after that process's own Schedule |
| DispatchLoss.UnfencedWasFetched | internals/modules/result/failure_worker.go:25-27 | without an overtaken disable, a late ack of the only trace comes after a fetch of the monitor that follows that process's own Schedule |
| DispatchLoss.NoDurableLoss | internals/modules/result/success_worker.go:20-27 | over every run in which no fetch of the monitor falls between a retry path's Schedule and its ack, and no enable overtakes a disable before its ZREM, an enabled, unreleased monitor is in a set or in a window at all times |
| DispatchLoss.CrashLosesOnlyTheWindow | internals/modules/result/failure_worker.go:23-32 | a crash of any processes loses only monitors between an ack and its Schedule |
| DispatchLoss.RetryRunLosesIt | internals/modules/result/failure_worker.go:25-62 | a run from the initial state in which the retry path reschedules, the monitor is fetched again, the late ack erases its only trace, and a crash of the new holder loses it |
| DispatchLoss.OvertakenDisableLosesIt | internals/modules/monitor/service.go:152-198 | a run without a crash, a failed command or a late ack that leaves an enabled monitor in neither set and known to no process |
| DispatchTokens.TokensStep | internals/modules/executor/executor.go:81-99 | one step conserves schedule entry plus live tokens against creates, reclaims, re-enables and retirements |
| DispatchTokens.TokenConservation | internals/modules/scheduler/lua_scripts.go:20-55 | in every run, entry + live tokens + retirements = create + reclaims + re-enables, so entry + tokens is at most 1 + reclaims + re-enables |
| DispatchExclusion.ExclusiveStep | internals/modules/scheduler/lua_scripts.go:47-52 | a step keeps exclusion if and only if it is neither a reclaim of a held monitor nor a re-enable of a monitor that is not idle |
| DispatchExclusion.ExclusiveExactly | internals/modules/scheduler/lua_scripts.go:47-52 | over every run, exclusion holds at all times if and only if neither step occurs |
| DispatchExclusion.MutualExclusion | pkg/redisstore/scheduler.go:73-109 | with tokens spent before their deadlines and re-enables only of idle monitors, at most one token is live, the monitor is then not scheduled, and its inflight score is that deadline |
| DispatchExclusion.SlowHolderIsDoubled | internals/modules/scheduler/reclaimer.go:67-77 | a holder past its deadline is doubled by one reclaim and one fetch |
| DispatchExclusion.DoubledReachable | internals/modules/scheduler/lua_scripts.go:47-52 | a run from the initial state to two live holders |
| DispatchExclusion.TerminalStops | internals/modules/result/failure_worker.go:34-42 | the ack of a terminal result leaves an exclusively held monitor idle with its row enabled |
| DispatchExclusion.IdleStep | internals/modules/monitor/service.go:152-173 | an idle monitor stays idle under every step but the write of an enable |
| DispatchExclusion.StoppedStaysStopped | internals/modules/monitor/service.go:152-173 | a stopped monitor whose row is enabled stays stopped, and no enable takes effect, until a disable comes first |
| DispatchExclusion.LossIsPermanent | internals/modules/monitor/service.go:158-161 | a lost monitor that no process knows stays in neither set, with its row enabled, until a disable |
| JobPaths.CreatePath | internals/modules/monitor/service.go:47-60 | from every state a create is an enabled path that adds the row and one schedule entry |
| JobPaths.EnablePath | internals/modules/monitor/service.go:152-170 | so is an enable of a disabled monitor; it leaves inflight alone |
| JobPaths.DisablePath | internals/modules/monitor/service.go:194-203 | so is a disable of an enabled monitor; it removes the schedule entry and leaves inflight alone |
| JobPaths.CrashPath | internals/modules/scheduler/scheduler.go:81-117 | any processes can crash at any time; sets, clock and rows stay |
| DispatchOrder.ScheduledStep | internals/modules/scheduler/scheduler.go:110-111 | no step puts a job ahead of an overdue one or moves its score, and a fetch takes it or lowers its rank by exactly the batch size |
| DispatchOrder.InflightStep | internals/modules/scheduler/lua_scripts.go:47-52 | the same of an expired inflight job, the reclaimer and its limit |
| DispatchOrder.BoundedDispatch | internals/modules/scheduler/lua_scripts.go:29-35 | from any point of a run, more than rank/batch fetches dispatch a job overdue there unless it is re-added or deleted |
| DispatchOrder.BoundedRecovery | internals/modules/scheduler/lua_scripts.go:47-52 | more than rank/limit reclaims recover an expired inflight job unless it is acked or fetched again |
| DispatchOrder.RecoveredIntoSchedule | pkg/redisstore/reclaimer.go:8-22 | a recovered job leaves inflight and is due now |
| DispatchOrder.CrashedJobIsDispatchedAgain | internals/modules/scheduler/lua_scripts.go:20-55 | an expired inflight job that nobody acks, re-adds or deletes is fetched again after more than rank/limit reclaims, a move of the clock, and more than rank/batch fetches |
| PipelineShutdown.InvStep | internals/modules/executor/executor.go:103-126 | every step keeps pools, semaphore, WaitGroups and the closing order in balance and never panics |
| PipelineShutdown.Progress | internals/app/container.go:93-105 | once the scheduler has returned, some step is enabled until shutdown is complete |
| PipelineShutdown.MeasureFalls | internals/modules/result/processor.go:92-109 | every step but a submission lowers the measure |
| PipelineShutdown.PanicsExactly | internals/modules/executor/executor.go:103-118 | a step panics if and only if it sends on or closes a closed channel or takes a WaitGroup below zero; a send on a closed channel never blocks (`ClosedSendsPanic`) |
| PipelineFlow.FlowStep | internals/modules/result/processor.go:92-100 | every step conserves each job and each alert and keeps it where its fate leads |
| PipelineFlow.AlwaysSound | internals/modules/executor/executor.go:78-126 | in every run the accounts balance, no send or close panics, no message is lost or doubled |
| PipelineFlow.SemaphoreAccounting | internals/modules/executor/executor.go:103-111 | occupancy is exactly the workers and goroutines holding a slot, within capacity |
| PipelineFlow.StopLeavesNoSender | internals/modules/executor/executor.go:121-126 | when Stop has returned no worker and no HTTP goroutine is left |
| PipelineFlow.RunsAreBounded | internals/app/container.go:93-105 | a run after the scheduler returned is no longer than its starting measure |
| PipelineFlow.ShutdownDrains | internals/modules/alert/service.go:32-54 | at the end each submitted job has ended exactly once, where its fate leads, and each alert has been handled |
| PipelineFlow.MaximalRunsShutDown | internals/app/container.go:93-105 | every run that continues while it can ends with every channel empty, every worker exited, no panic, every job at its end and every alert handled |
| PipelineFlow.EveryWorkloadRuns | internals/modules/executor/executor.go:78-126 | every workload that fits the job channel, whatever the fates, has a run that takes exactly its jobs and brings each to the end its fate calls for |
| PipelineOrder.ChannelsAreFifo | internals/modules/result/processor.go:92-109 | over every run each of the five channels is FIFO: what was received from it, followed by its queue, is what was sent into it, in order |
| PipelineOrder.AllHandedOver | internals/modules/alert/service.go:32-54 | every run that continues while it can hands over exactly what was sent into each channel, in order |
| Executor.ResultShapes | internals/modules/executor/executor.go:128-215 | which replies are terminal, retryable, plain failures or successes, in both directions; the reason, status and latency each carries; only a response can be stored; no result carries an interval |
| Incidents.ResultProcessor.CountRetry | pkg/redisstore/retry_counter.go:11-27 | the attempts loop computes the specified counter and reply |
| Incidents.ResultProcessor.HandleFailure | internals/modules/result/failure_worker.go:17-106 | the handler's effect on counters, hash, rows and alert channel, its commands in order, no other monitor touched, and the monitor's entry: untouched if terminal, 5000 ms ahead if a retry is left, one interval of the result ahead otherwise |
| Incidents.ResultProcessor.HandleSuccess | internals/modules/result/success_worker.go:17-80 | closes every open row at the time of the success, clears, acks, then schedules one interval of the result ahead, and touches no other monitor |
| Incidents.ClosesEveryOpenRow | pkg/db/monitor_incidents.sql.go:14-18 | a close ends every open row at its own time, touches no closed row, keeps every start, and a second close changes nothing |
| IncidentHistory.FailureAddsWeight | internals/modules/result/failure_worker.go:35-91 | a failure adds its weight to the base-three counters and alerts if and only if it carries the total to nine |
| IncidentHistory.ClosedForm | internals/modules/result/failure_worker.go:35-91 | over failures, 3 * failure_count + retry = R + 3N with retry <= 2, and one alert if that is at least 9, else none |
| IncidentHistory.ExpiryOnlyDelays | pkg/redisstore/retry_counter.go:11-27 | with the retry counter expiring, the counters never exceed the weight and no alert comes early |
| IncidentHistory.ExpiryDelaysAnAlert | pkg/redisstore/retry_counter.go:23-23 | after weight eight another retryable failure alerts, unless the counter expired before it |
| IncidentHistory.ExpireErrorCountsTwice | pkg/redisstore/retry_counter.go:16-24 | an EXPIRE error makes one failure count twice |
| IncidentHistory.CountsOnceUnless | pkg/redisstore/retry_counter.go:16-24 | one failure moves the counter twice if and only if its first EXPIRE fails without a cancellation and its second INCR succeeds, and not at all if and only if no INCR succeeded |
| IncidentHistory.IncrementRetryBound | pkg/redisstore/retry_counter.go:16-26 | the counter moves by at most the attempts, and at most once unless an EXPIRE failed |
| IncidentHistory.AlertsAreHeavySegments | internals/modules/result/success_worker.go:39-79 | over whole histories the alerts are the success-free segments of weight at least nine |
| IncidentHistory.OtherEvents | internals/modules/monitor/service.go:194-203 | an expiry touches the retry counter alone; a disable deletes the incident hash and leaves the retry counter and the rows |
| IncidentHistory.Outage | internals/modules/result/failure_worker.go:70-104 | three wrong answers and a good one give one alert and one row, from the time of the third to the time of the good one |
| IncidentHistory.RowsStep | internals/modules/result/success_worker.go:55-66 | rows agree with Redis after a step if and only if it orphans no row: a failed mark or close, or a disable with an open row |
| IncidentHistory.FailureCases | internals/modules/result/failure_worker.go:35-104 | a failure alerts if and only if the guards on its way hold, and otherwise leaves rows and flags alone |
| IncidentHistory.DisableOrphansARow | internals/modules/monitor/service.go:195-203 | three plain failures and a disable leave an open row without its flags |
| IncidentHistory.RowsAlwaysAgree | internals/modules/result/failure_worker.go:87-101 | over every history with Redis and closes reliable and inserts free to fail: at most one open row, an open row implies both flags, ends after starts, none open after a success |
| IncidentHistory.RowTimes | internals/modules/result/failure_worker.go:98-101 | over every history, whatever fails in it, each row starts at the time of the failure that alerted and added it, and each closed row ends at the time of a later success that found it open, never before its start |
| IncidentHistory.NoRowWithoutAResponse | migration/20260124150247_create_monitor_incidents_table.sql:11-12 | an alert for a check without a response never leaves a row |
| AlertRace.AlertsConserved | pkg/redisstore/incident.go:135-143 | in every interleaving, flag wins = deletions of an alerted hash + the flag now, and alerts sent + pending + lost = wins |
| AlertRace.CrashLosesWinners | internals/modules/result/failure_worker.go:86-104 | any workers can crash at any time; hash, rows and alerts sent stay, and exactly the winners among them are lost |
| AlertRace.EveryAlertJustified | pkg/redisstore/incident.go:44-67 | every alert follows at least three increments in a row with no deletion among them |
| AlertRows.SuccessClosesExactly | internals/modules/result/success_worker.go:39-71 | a success that nothing interrupts leaves no open row if and only if db_incident is set whenever one is open |
| AlertRows.FoundStep | internals/modules/result/success_worker.go:55-71 | a command keeps every open row where a success will find it if and only if it is neither an insert while db_incident is not set nor a deletion of the key over an open row |
| AlertRows.RowsFoundExactly | internals/modules/result/success_worker.go:55-71 | over every run, in any interleaving, a success would find every open row at all times if and only if no such command occurs |
| AlertRows.OneFlaggedRowUpTo | internals/modules/result/failure_worker.go:86-101 | over every run there is at all times at most one open row, with both flags set, if and only if no insert comes beside an open row or without both flags and no deletion of the key over an open row |
| AlertRows.PlacedStep | internals/modules/result/failure_worker.go:86-101 | at most one flagged row, also counting one on its way, survives a command if and only if that neither loses a mark nor deletes the key over an open row or one on its way |
| AlertRows.RowsStayFlagged | internals/modules/result/failure_worker.go:86-101 | in every interleaving without a lost mark and without such a deletion there is at most one open row, and both flags are set while there is |
| AlertRows.LoneHandlersKeepRows | internals/modules/result/success_worker.go:39-71 | while handlers of a monitor do not overlap, marks and closes succeed and no disable deletes the key over a row, that holds after every command, across crashes and failed inserts, and no row is open after a clear |
| AlertRows.SuccessPastMarkOrphans | internals/modules/result/failure_worker.go:95-101 | a success between a winner's mark and its insert leaves an open row without its key |
| AlertRows.OrphanOutlivesSuccess | internals/modules/result/success_worker.go:55-71 | the next success does not close that row |
| AlertRows.MarkedReachable | internals/modules/result/failure_worker.go:71-97 | three failures bring a worker to that point |
| IncidentPaths.FailurePath | internals/modules/result/failure_worker.go:70-104 | a failure handler's commands, run alone, end in the hash, the number of open rows and the alert of the handler as one step |
| IncidentPaths.SuccessPath | internals/modules/result/success_worker.go:39-71 | the same of a success handler |
| IncidentPaths.HistoryIsARun | internals/modules/result/failure_worker.go:17-106 | every history of handlers, whatever fails in it, is a run of their commands with the same hash, as many open rows and as many alerts |
| HandlerPaths.HandlerShapes | internals/modules/result/failure_worker.go:29-62 | every path acks once and schedules at most once; when it stops, and when it schedules before its ack, in both directions |
| HandlerPaths.RescheduleDelays | internals/modules/result/failure_worker.go:29-57 | a handler of a check schedules five seconds ahead if and only if a retry is left, and with no delay otherwise |
| HandlerPaths.RescheduledIsDue | internals/modules/result/success_worker.go:25-26 | so the monitor is due at once after a success and after a failure that is neither terminal nor retried, and from five seconds later on, not before, if a retry is left |
| HandlerPaths.StopPath | internals/modules/result/failure_worker.go:34-42 | the terminal path is a run of the protocol and ends its process |
| HandlerPaths.HandlerPath | internals/modules/result/failure_worker.go:23-62 | from a held job, the decision and the commands of a rescheduling handler, in its order, are a run of the protocol that leaves its entry where the handler puts it, removes the inflight entry if the ack succeeds, and ends the process |
| HandlerPaths.ReschedulePath | internals/modules/result/failure_worker.go:23-32 | the commands of a rescheduling handler, in its order, are enabled protocol steps with the handler's stated effect on both sets |
| MonitorService.Service.GetMonitor | internals/modules/monitor/service.go:63-91 | answers the owner alone, from the cache exactly if the entry is the owner's, and agrees with the row but for Enabled |
| MonitorService.Service.LoadMonitor | internals/modules/monitor/service.go:93-120 | answers for every row; with one-sided caching never reports a disabled monitor enabled |
| MonitorService.Service.UpdateMonitorStatus | internals/modules/monitor/service.go:130-203 | only the owner changes anything; its effect on rows, cache, schedule (one interval in seconds ahead) and incident hash; one-sidedness survives if and only if no disable leaves an entry cached as enabled |
| MonitorService.Service.CreateMonitor | internals/modules/monitor/service.go:33-61 | admitted exactly below ten monitors; a failed insert keeps the reservation |
| CacheRace.CacheAgreesWithDatabase | internals/modules/monitor/service.go:205-223 | in every interleaving a get succeeds exactly for the row's owner and a load for every row, and they differ from the row at most in Enabled |
| CacheRace.OneSidedStep | internals/modules/monitor/service.go:163-203 | a step keeps cached-enabled implying enabled if and only if it is neither a fill with a row read before a disable nor a disable over an enabled entry |
| CacheRace.GuardedStep | internals/modules/monitor/service.go:195-203 | a step keeps every stale entry under a pending deletion if and only if it is neither a fill with a row read before a disable that has already deleted, nor the failure or crash of the last pending deletion |
| CacheRace.NoCheckOnDisabled | internals/modules/monitor/service.go:93-120 | in every interleaving without such a step a load never reports a disabled monitor enabled, unless the disable has not yet come to its DEL |
| CacheRace.StaleFillReachable | internals/modules/monitor/service.go:107-118 | a load that straddles a disable leaves a disabled monitor cached as enabled |
| CacheRace.EnableVisibleUnlessCached | internals/modules/monitor/service.go:168-173 | an enable is visible to the executor if and only if no disabled entry is cached, until that entry expires |
| CacheRace.InvisibleEnableReachable | internals/modules/monitor/service.go:168-173 | a run in which an enabled monitor loads as disabled |
| Quota.QuotaHolds | pkg/db/users.sql.go:87-99 | in every interleaving rows + pending + failed creates of a user equal its count, at most ten |
| Quota.AdmittedBelowTen | pkg/db/users.sql.go:87-99 | in every run a registered user's create is admitted exactly while its rows, pending and failed creates are fewer than ten |
| ServicePaths.Answers | internals/modules/monitor/service.go:63-120 | a get answers its owner's cached entry, else the owner's row; a load the cached entry, else the row |
| ServicePaths.FillPath | internals/modules/monitor/service.go:107-118 | the commands of a get or load that misses are an enabled run that caches the row and nothing else |
| ServicePaths.DisablePath | internals/modules/monitor/service.go:163-196 | so are those of a disable, with the call's effect on row and cache |
| ServicePaths.EnablePath | internals/modules/monitor/service.go:163-170 | so are those of an enable, which leaves the cache alone |
| ServicePaths.CreatePath | internals/modules/monitor/service.go:47-57 | so are those of an admitted create, with the call's effect on rows and count |

## Left out

- HTTP handlers, routing, middleware, validation, authentication, configuration and logging.
- The network: a reply is an input; so are clocks, random draws and which commands fail.
- Encodings: ids are opaque ordered numbers, scores are integers in milliseconds, cached monitors are values; ids that do not parse as UUIDs and the slice-copying loops around the scripts are not modelled.
- `doWork`, `doWorkOld`, `PopDue` and `ScheduleBatch`, which `Run` does not call, beyond the fetch-due script itself.
- The status hash (`StoreStatus`, `DelStatus`, also in a disable) and the incident timestamps, which nothing reads back.
- Redis eviction and persistence, Postgres failures other than those named, and clock skew between instances.
- The start and end times of incident rows at the grain of single commands; they are stated at the handler grain.
- Goroutines of one pool are counted, not named; the scheduling of goroutines and channel wake-ups is any order.
- RunsAreBounded: bounds the number of steps, not time; a check that hangs is cut by its own 15-second deadline, which is not modelled.
