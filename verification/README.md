# Scale-to-zero activator: a verified model

The activator holds requests for an InferencePool whose workload may be scaled to zero, scales
the workload to one replica when a request needs it, and scales it back to zero when a ticker
says that it has been idle. All of it is concurrency and time: any number of request
goroutines, one deactivator, one reconciler, a ticker, the clock and the API server share a
guard (`scalingUp` and a channel), a cached pool, the ticker and a versioned scale object.

## How it is modelled

- `System.dfy` is the protocol as a labelled transition system. A state holds the clock, the
  cached pool, the ticker, the scale object, the guard and the control point of every request
  and of the deactivator. A label says who moves and fixes every outcome that the environment
  decides (failed reads, refused, lost or stored updates, what a poll sees, how time passes,
  writes by outsiders), so `Next` is a function. A *run* is a sequence of states joined by
  enabled labels; main results quantify over all runs, with any number of requests.
- Check and begin are separate steps, as they are separate critical sections in the code
  (`pkg/activator/requestcontrol/activator.go:96` and `:197`), so scale-ups can overlap. A crash
  is a state without successors: closing a nil channel, reading a nil pool, resetting the
  ticker to a period that is not positive, a status that is not a map.
- `Activator.dfy` and `Deactivator.dfy` are the code itself in imperative form, over the objects
  of `Datastore.dfy`, `Guards.dfy` and `World.dfy`. Between any two steps the rest of the world
  may do anything (`World.Interfere` promises only how long that takes, that the history stays
  executable and that the caller's own control point is left alone). Each method proves that what
  it does is a step that the transition system enables at that moment; so `MayActivate`, run among
  everybody else, leaves a history that is a run, and the theorems about runs hold for it
  (`Activators.HistoryExplainsOutcome`). What the calls answer is a script, and each result is
  proved to be the one that the script adds up to (`VerdictFor`, `PollWindow`, `TickEnds`), with
  the check, the read and the update it rests on in the history.
- `Order.dfy` states the order of the program on the labels of runs alone: which step a request
  or the deactivator takes after which, given what it found.
- `Polling.dfy` is one polling window as a function of its polls, and when exactly it succeeds.
- `StoreLocks.dfy` opens up the one step that `System.dfy` takes as atomic, `PoolGet`, with
  Go's writer-preferring read-write lock.
- `Streams.dfy` is the ext_proc loop, `Reconciler.dfy` the cache maintenance.
- `Witnesses.dfy` builds runs, most of them for every pool, that show which hypotheses of the
  theorems are needed and which bounds are attained; `Exactness.dfy` joins the two sides into
  conditions that hold if and only if.

Durations are integer nanoseconds. `time.ParseDuration` with its error dropped is a parameter
(`Config.parse`), as is the API group. Ready counts are truncated to 32 bits as the code does.

## What is found

- The process never crashes if scale-ups do not overlap, the deactivator's `PoolGet` finds a
  pool, stored scale-down delays are positive and polled objects have a status map. Each
  hypothesis is needed. It is not enough that a pool is stored when the tick is received.
- When all scale-ups have ended, a nil channel has been closed if and only if two of them had
  overlapped. Overlap is the same thing as a dropped channel; without it every channel made is
  closed exactly once.
- With overlap a waiter can be let through at once, by the end of a scale-up it did not wait
  for; without it, a waiter leaves only after its own scale-up ended, five seconds after
  readiness if that one succeeded.
- From a poll of a scale-up to its end the deactivator receives no tick, provided that every
  reset meanwhile is to more than 64 s; a tick received before can still erase the new replica.
  The bound is exact: any positive delay of 64 s or less lets a tick in.
- A request is held for up to its grace period and 65 s more, and this is attained for every
  pool. So it is answered within the 120 s of the Envoy filter, its scale calls aside, if and only
  if the pool's grace period is at most 55 s; the default of 60 s is too long. The grace
  annotation has no effect on the window of the scale-up itself.
- These bounds on a request need only that request's own timers to fire on time; others may stall.
- `PoolGet` takes the read lock twice, and callers of the datastore can all return if and only
  if no `PoolGet` stands between its two locks while a writer waits.

## Model

| member | source | states |
|---|---|---|
| Pools.DurationsReadOwnAnnotation | pkg/activator/requestcontrol/activator.go:109-134 | each duration follows its own optional annotation and no other change of the annotations |
| Pools.AnnotatedNeedsAllThree | pkg/activator/requestcontrol/activator.go:237-251 | removing any one of the three required annotations, and no other, loses the annotation of a pool |
| Pools.ToInt32 | pkg/activator/requestcontrol/activator.go:183 | the 32-bit truncation of the ready count: in range, congruent to the count, and exact on counts that fit |
| Guards.BeginValid | pkg/activator/requestcontrol/activator.go:261-267 | beginning keeps flag, channel and channel history consistent |
| Guards.EndValid | pkg/activator/requestcontrol/activator.go:269-276 | ending keeps flag, channel and channel history consistent |
| Guards.ScaleUpGuard.BeginScalingUp | pkg/activator/requestcontrol/activator.go:261-267 | the fields after a begin, a still open channel being dropped |
| Guards.ScaleUpGuard.EndScalingUp | pkg/activator/requestcontrol/activator.go:269-276 | panics exactly on a nil channel, otherwise closes and clears it |
| Guards.ScaleUpGuard.IsScalingUp | pkg/activator/requestcontrol/activator.go:278-283 | flag and channel are read together |
| Guards.DroppedCounts | pkg/activator/requestcontrol/activator.go:261-276 | begins without an end are as many as dropped channels plus the current one |
| Guards.ClosedOnce | pkg/activator/requestcontrol/activator.go:269-276 | no channel is closed twice, whatever the order of begins and ends |
| Guards.BalancedSafeIffAlternates | pkg/activator/requestcontrol/activator.go:197-198 | when every begin has its end, no end closes nil if and only if begins and ends alternate, and then every channel made is closed exactly once |
| Datastores.Datastore.constructor | pkg/activator/datastore/datastore.go:48-55 | an empty store with a 60 s ticker |
| Datastores.Datastore.PoolSet | pkg/activator/datastore/datastore.go:67-72 | the pool is replaced |
| Datastores.Datastore.PoolGet | pkg/activator/datastore/datastore.go:74-81 | an error exactly when there is no pool, otherwise the pool |
| Datastores.Datastore.PoolHasSynced | pkg/activator/datastore/datastore.go:83-87 | whether there is a pool |
| Datastores.Datastore.Clear | pkg/activator/datastore/datastore.go:89-91 | no pool is left |
| Datastores.Datastore.ResetTicker | pkg/activator/datastore/datastore.go:93-97 | panics on a period that is not positive, otherwise the next tick is a period away and no stale one is pending |
| Datastores.Datastore.GetTicker | pkg/activator/datastore/datastore.go:99-103 | the ticker |
| Datastores.Datastore.StopTicker | pkg/activator/datastore/datastore.go:105-109 | the ticker is stopped with no tick pending |
| StoreLocks.ReachableValid | pkg/activator/datastore/datastore.go:67-91 | in every interleaving writers exclude each other and readers, and a test agrees with the pool until the outer lock is released |
| StoreLocks.DeadlockStays | pkg/activator/datastore/datastore.go:74-87 | a `PoolGet` between its locks and a waiting writer block each other whatever anybody does |
| StoreLocks.DoomedNeverFinishes | pkg/activator/datastore/datastore.go:74-87 | from such a state no order of steps lets everybody return |
| StoreLocks.UndoomedProgress | pkg/activator/datastore/datastore.go:67-87 | in any other state some caller can step without leading into such a state |
| StoreLocks.FinishIffNotDoomed | pkg/activator/datastore/datastore.go:67-91 | all callers can return if and only if the state is not doomed |
| StoreLocks.StuckOnlyIfDoomed | pkg/activator/datastore/datastore.go:74-87 | stuck callers are doomed ones, and a single-acquire `PoolGet` is never stuck |
| StoreLocks.NestedCanBeDoomed | pkg/activator/datastore/datastore.go:74-77 | one `PoolGet` and one `PoolSet` reach a doomed state |
| StoreLocks.SchedulesEnd | pkg/activator/datastore/datastore.go:67-91 | every order of steps is bounded by the steps left |
| StoreLocks.PoolGetIsAtomic | pkg/activator/datastore/datastore.go:74-81 | `PoolGet` returns the latest completed `PoolSet`, with an error exactly when that is nil, under every interleaving |
| StoreLocks.PoolHasSyncedIsAtomic | pkg/activator/datastore/datastore.go:83-87 | `PoolHasSynced` tells whether the latest completed `PoolSet` left a pool, under every interleaving |
| StoreLocks.UnguardedReturnsNil | pkg/activator/datastore/datastore.go:75-80 | without the outer lock a nil pool is returned without an error |
| Reconciling.Reconciler.Reconcile | pkg/activator/controller/inferencepool_reconciler.go:44-99 | an error, and nothing changed, exactly on an unsupported group, a failed fetch or a failed conversion; otherwise no pool exactly after a missing or deleting object, else the object or its conversion |
| Reconciling.CacheIsLastConclusive | pkg/activator/controller/inferencepool_reconciler.go:62-98 | after any history the cache is what the last conclusive fetch reported |
| Reconciling.CachedPool | pkg/activator/controller/inferencepool_reconciler.go:73-96 | after any history a pool is cached exactly if the last conclusive fetch found one that is not being deleted: the object under v1, its conversion under v1alpha2 |
| Reconciling.CacheKeptWithoutConclusive | pkg/activator/controller/inferencepool_reconciler.go:57-70 | failed fetches, failed conversions and unsupported groups change nothing |
| Safety.StoreFollowsFetches | pkg/activator/controller/inferencepool_reconciler.go:62-98 | in every run the cached pool is what the fetches so far make it, whoever else runs |
| Safety.StoreSinceFetch | pkg/activator/controller/inferencepool_reconciler.go:62-98 | in every run the store is empty from a missing or deleting fetch to the next conclusive one, and holds the fetched pool from any other |
| Safety.GuardInvariant | pkg/activator/requestcontrol/activator.go:261-283 | in every reachable state: flag iff channel, current channel open, captured channel not nil, made = closed + dropped + current |
| Safety.ScaleUpsConserved | pkg/activator/requestcontrol/activator.go:196-198 | scale-ups in flight = dropped channels + current channel |
| Safety.OverlapIffDropped | pkg/activator/requestcontrol/activator.go:261-267 | scale-ups have overlapped if and only if a channel was dropped |
| Safety.OverlapNeverSettles | pkg/activator/requestcontrol/activator.go:196-198 | after an overlap every later state has closed a nil channel or has a scale-up in flight |
| Safety.CloseOfNilIffOverlap | pkg/activator/requestcontrol/activator.go:196-198 | when all scale-ups have ended, a nil channel was closed if and only if scale-ups overlapped |
| Safety.SettledRunsNeverOverlapped | pkg/activator/requestcontrol/activator.go:269-276 | if all scale-ups ended without a crash there was no overlap and every channel was closed; closing nil needs an overlap |
| Safety.RunFollowsGuardOps | pkg/activator/requestcontrol/activator.go:261-276 | the guard of a run is the guard after its begins and ends |
| Safety.SettledRunsAlternate | pkg/activator/requestcontrol/activator.go:197-198 | in a settled run begins and ends alternate |
| Safety.CrashShowsHazard | pkg/activator/requestcontrol/activator.go:108-276 | each kind of crash comes only after its own hazard |
| Safety.CrashFreedom | pkg/activator/requestcontrol/deactivator.go:59-104 | a run without the four hazards never crashes |
| Writing.NoLostDecision | pkg/activator/requestcontrol/activator.go:200-208 | when an update is stored nobody has written since that actor's own read |
| Writing.SameReadOneWinner | pkg/activator/requestcontrol/activator.go:145-149 | of actors that read the same version at most one gets its update stored |
| Writing.ScaleOfNext | pkg/activator/requestcontrol/deactivator.go:95-97 | requests write only 1, the deactivator only 0, nothing else changes the scale object; an update leaves it alone exactly if refused |
| Writing.OnlyZeroOrOne | pkg/activator/requestcontrol/activator.go:160-162 | without outsiders the desired count is the initial one, 0 or 1 |
| Writing.SingleFlight | pkg/activator/requestcontrol/activator.go:196-208 | without an overlap so far, between two updates by requests the first scale-up has ended |
| Admission.AdmittedIffEvidence | pkg/activator/requestcontrol/activator.go:84-116 | a finished request was let through for a reason if and only if the run holds the evidence for it |
| Admission.SettledIffReason | pkg/activator/requestcontrol/activator.go:145-158 | the control point of a request tells exactly which deciding step it has made |
| Admission.NotSyncedIffNoPool | pkg/activator/requestcontrol/activator.go:88-93 | a request ends unsynced if and only if there was no pool when it arrived |
| Admission.ParkedSince | pkg/activator/requestcontrol/activator.go:95-100 | a parked request captured the guard of a scale-up and a deadline 60 s later |
| Admission.GraceSince | pkg/activator/requestcontrol/activator.go:130-153 | a grace window begins with the read of a positive count and lasts the grace period |
| Admission.OverwritesOnlyAfterGrace | pkg/activator/requestcontrol/activator.go:151-163 | a positive count is overwritten only after the whole grace period in which no poll saw that many ready |
| Ordering.CheckComesFirst | pkg/activator/requestcontrol/activator.go:84-96 | the first step of a request is the check of the guard |
| Ordering.GuardDecidesPath | pkg/activator/requestcontrol/activator.go:95-104 | guard up at the check: every later step of the request is its release; guard down: none is |
| Ordering.ReleasedIffGuardUp | pkg/activator/requestcontrol/activator.go:95-101 | a request is let through by its release if and only if the guard was up at its check |
| Ordering.AfterCheckAndRead | pkg/activator/requestcontrol/activator.go:95-163 | which step follows the check and the read, by guard, annotations, outcome of the read and count read |
| Ordering.AfterPoll | pkg/activator/requestcontrol/activator.go:151-217 | which step follows a poll, what it saw, and the end of a window |
| Ordering.AfterBeginAndUpdate | pkg/activator/requestcontrol/activator.go:196-219 | which step follows begin, update, sleep and end of a scale-up |
| Ordering.LastStepAnswers | pkg/activator/requestcontrol/activator.go:84-116 | a request is let through exactly after its release or its reset of the ticker, and refused exactly after a read without annotations or resource or an unsuccessful scale-up |
| Ordering.ChecksAndReadsOnce | pkg/activator/requestcontrol/activator.go:95-149 | a request checks the guard once and reads the scale object once |
| Ordering.DeactivatorOrder | pkg/activator/requestcontrol/deactivator.go:59-104 | the deactivator reads the pool at every tick, the scale object exactly if the pool is annotated, and sends zero exactly after a successful read |
| Ordering.MissingAnnotationRefuses | pkg/activator/requestcontrol/activator.go:237-251 | a request whose pool lacks any required annotation never polls, scales or resets, and its read refuses it |
| Ordering.MissingAnnotationEndsTick | pkg/activator/requestcontrol/deactivator.go:74-79 | a tick that finds such a pool ends there |
| Timing.TicksComeAfterIdlePeriod | pkg/activator/requestcontrol/deactivator.go:54-64 | a tick is received no earlier than the latest period after the latest reset |
| Timing.TickerRuns | pkg/activator/requestcontrol/deactivator.go:54-57 | until the deactivator stops it the ticker runs, with a positive period |
| Timing.NoTickWithinDelay | pkg/activator/requestcontrol/activator.go:108-115 | after an admission with delay d a tick comes within d only if a later reset shortened the wait |
| Timing.CountdownExact | pkg/activator/requestcontrol/activator.go:108-115 | after an admission with nobody touching the ticker it can fire if and only if the whole scale-down delay has passed |
| Timing.DefaultCountdownExact | pkg/activator/requestcontrol/deactivator.go:54-64 | after a poll or the start of the deactivator it can fire if and only if two minutes have passed |
| Timing.GuardPathActs | pkg/activator/requestcontrol/activator.go:95-101 | a request on the guard path has done nothing but check and be released |
| Timing.ReleasedRequestsAreSilent | pkg/activator/requestcontrol/activator.go:95-101 | a released request makes no scale call, no poll and no reset in the whole run |
| Retaining.CurrentHasMaker | pkg/activator/requestcontrol/activator.go:261-267 | the maker of the current channel is still scaling up |
| Retaining.ReadySince | pkg/activator/requestcontrol/activator.go:211-217 | a scale-up that ends ready saw the pods ready at least 5 s before |
| Retaining.ReleasedAfterRetention | pkg/activator/requestcontrol/activator.go:211-219 | without an overlap so far a waiter leaves after its own scale-up ended, and 5 s after readiness if it succeeded |
| Waiting.LongestWait | pkg/activator/requestcontrol/activator.go:130-163 | a request whose own timers are on time waits at most 60 s parked, 65 s from zero, grace + 65 s otherwise, its scale calls aside, whatever the others do |
| Waiting.PollsAreBounded | pkg/activator/requestcontrol/activator.go:166-168 | one poll per second of a window and none at its end |
| Waiting.AtMost59Polls | pkg/activator/requestcontrol/activator.go:166-168 | at most 59 polls in a default window |
| Waiting.NoTickDuringScaleUp | pkg/activator/requestcontrol/activator.go:168-170 | no tick is received from a poll of an on-time scale-up to its end if resets meanwhile exceed 64 s, whatever the other requests do |
| Waiting.AtMostOneWriteDuringScaleUp | pkg/activator/requestcontrol/deactivator.go:59-101 | at most one write of zero lands in that span, on a tick received before it |
| Witnesses.OverlapCrashes | pkg/activator/requestcontrol/activator.go:269-276 | two requests that both check first: the second end closes nil |
| Witnesses.EmptyStoreCrashes | pkg/activator/requestcontrol/deactivator.go:67-72 | a pool deleted between the tick and its reading crashes the process |
| Witnesses.BadDelayCrashes | pkg/activator/requestcontrol/activator.go:109-114 | a delay that is not positive crashes the process |
| Witnesses.MissingStatusCrashes | pkg/activator/requestcontrol/activator.go:178-181 | an object without a status map crashes the process |
| Witnesses.EveryHazardCrashes | pkg/activator/requestcontrol/activator.go:108-276 | none of the four hypotheses of crash freedom can be dropped |
| Witnesses.LongestWaitAttained | pkg/activator/requestcontrol/activator.go:151-163 | for every annotated pool and replica count a prompt run in which a request waits grace + 65 s, or 65 s from zero |
| Exactness.TimeoutKeptIffShortGrace | charts/activator-filter/templates/istio.yaml:25 | every on-time request of a pool is answered within the 120 s message timeout, its scale calls aside, if and only if the grace period is at most 55 s or the pool is not served |
| Witnesses.ParkedForAMinute | pkg/activator/requestcontrol/activator.go:95-100 | the bound of 60 s on a parked request is attained |
| Witnesses.StalledRequestWaits | pkg/activator/requestcontrol/activator.go:84-96 | a request that is not on time itself can wait arbitrarily long |
| Witnesses.FiftyNinePolls | pkg/activator/requestcontrol/activator.go:166-168 | both windows of a pool with the default durations can hold 59 polls |
| Witnesses.OverlapReleasesEarly | pkg/activator/requestcontrol/activator.go:269-276 | with overlap a waiter is released before its scale-up has updated anything |
| Witnesses.OverlapUpdatesTwice | pkg/activator/requestcontrol/activator.go:196-208 | with overlap two scale-ups send their updates one after the other |
| Witnesses.ZeroLandsDuringScaleUp | pkg/activator/requestcontrol/deactivator.go:89-101 | one write of zero can undo a scale-up in progress |
| Witnesses.TickWithinQuiet | pkg/activator/requestcontrol/activator.go:109-114 | every positive delay of at most 64 s lets a tick in before the scale-up ends |
| Exactness.DelaySafeIffAbove64 | pkg/activator/requestcontrol/activator.go:108-114 | a positive delay keeps ticks out of every on-time scale-up if and only if it is above 64 s |
| Witnesses.StalledScaleUpGetsTick | pkg/activator/requestcontrol/activator.go:168-170 | a scale-up that stalls itself can get a tick without any short reset |
| Streams.ErrResponse | pkg/activator/handlers/server.go:129-197 | an immediate response with the error text whose status gives back the error code, or none for a foreign error |
| Streams.Process | pkg/activator/handlers/server.go:66-127 | the loop stops at the first turn that does not pass, with the replies due so far |
| Streams.ServesOneWay | pkg/activator/handlers/server.go:73-127 | turns determine responses, ending and length |
| Streams.StreamDiscipline | pkg/activator/handlers/server.go:88-126 | the i-th response answers the i-th headers message, all but the last are CONTINUE, an immediate one ends the stream |
| Streams.StreamEnding | pkg/activator/handlers/server.go:73-112 | how the stream ends if and only if its last turn had a done context, a broken receive, an orderly end, an immediate response, a failed send or a foreign error |
| Streams.StatusPerCode | pkg/activator/handlers/server.go:129-197 | the status of an immediate response for each error code |
| Streams.OtherMessagesPass | pkg/activator/handlers/server.go:114-126 | a message that is not request headers neither ends the stream nor is answered |
| Streams.StreamOfRun | pkg/activator/handlers/server.go:91-106 | in a stream of requests of a run, CONTINUE if and only if the run holds evidence for the request, any other response is 503, and the stream ends unhandled if and only if a request came before the pool |
| Worlds.ScaleServer.Update | pkg/activator/requestcontrol/activator.go:203-208 | an update is stored only on the current version, which it then advances |
| Polling.WindowEndsForAReason | pkg/activator/requestcontrol/activator.go:166-194 | a window sees the pods or panics only on its first deciding poll, and times out only after its whole length |
| Polling.WindowEndsExactly | pkg/activator/requestcontrol/activator.go:166-194 | a window sees the pods, or panics, if and only if its first deciding poll says so and comes before the window closes |
| Polling.LateWindow | pkg/activator/requestcontrol/activator.go:166-168 | a window that times out on a deciding poll was filled by the seconds and the delays up to it |
| Polling.PunctualWindow | pkg/activator/requestcontrol/activator.go:166-194 | a window with punctual polls sees the pods if and only if its first deciding poll shows them before it closes |
| Activators.Activator.MayActivate | pkg/activator/requestcontrol/activator.go:84-116 | under any interference the call leaves a run in which the request ends with the outcome returned: unsynced exactly without a pool, released exactly if the guard was up at its check, otherwise the outcome that the read, the update and the polls add up to, all of them in the history, unless the end of the scale-up closes nil |
| Activators.Activator.InferencePoolReady | pkg/activator/requestcontrol/activator.go:119-164 | the verdict that annotations, the read, the grace window, the update and the polls add up to; the history holds that read and that update |
| Activators.VerdictMeans | pkg/activator/requestcontrol/activator.go:119-219 | the verdict case by case: failed read, pods seen in the grace window, stored update with a pod seen, panic, refusal |
| Activators.OutcomeMeans | pkg/activator/requestcontrol/activator.go:103-116 | the outcome case by case, with a positive scale-down delay needed for every admission |
| Activators.PunctualGrace | pkg/activator/requestcontrol/activator.go:151-158 | with punctual polls: ready without a scale-up if and only if the first deciding poll shows the count read within the grace period |
| Activators.PunctualScaleUp | pkg/activator/requestcontrol/activator.go:196-219 | with punctual polls: scaled up if and only if the update was stored and the first deciding poll shows one ready replica within the minute |
| Activators.Activator.InferencePoolPodsReady | pkg/activator/requestcontrol/activator.go:166-194 | the polling loop ends with the result, and at the time, that its polls determine |
| Activators.Activator.Condition | pkg/activator/requestcontrol/activator.go:168-191 | one poll resets the ticker, is done exactly if the object shows the wanted ready replicas and panics exactly on a missing status map |
| Activators.Activator.ScaleInferencePool | pkg/activator/requestcontrol/activator.go:196-219 | begin, update, poll, retain and end are steps of the system in this order; ready exactly if the update was stored and the window saw one replica, unless the end closes nil |
| Activators.Activator.WaitOnGuard | pkg/activator/requestcontrol/activator.go:285-292 | a channel closed by the time the request looks releases it then, otherwise the timeout does, and the request is let through |
| Activators.HistoryExplainsOutcome | pkg/activator/requestcontrol/activator.go:84-116 | the history of the program is a run in which every answered request has its evidence |
| Activators.HistoryChecksAndReadsOnce | pkg/activator/requestcontrol/activator.go:84-149 | the history of the program holds at most one check and one read of each request |
| Deactivators.Deactivator.MonitorInferencePoolIdleness | pkg/activator/requestcontrol/deactivator.go:50-106 | under any interference every round until a cancelled one handles one tick to its end, in order; cancelling stops the loop and the ticker, and it panics only on a missing pool |
| Deactivators.Deactivator.Select | pkg/activator/requestcontrol/deactivator.go:59-66 | a cancelled round stops the ticker, any other one waits for a tick and handles it to its end |
| Deactivators.Deactivator.HandleTick | pkg/activator/requestcontrol/deactivator.go:64-103 | the handling ends on a pool without annotations, on a failed read, or with zero sent on the object read and refused exactly if stale or the environment says so; it panics on a missing pool |

## Left out

- Client construction, discovery and `GetResourceForKind`: the lookup is an outcome of the read step.
- Several targets: one scale object stands for the target, also when the pool's annotations change it.
- The texts of errors and logs, except the log line that reads a nil pool.
- Liveness: nothing says that the scheduler is fair or that the API server answers.
- Timing bounds (`Waiting`) are for requests whose own timers fire on time and whose code between waits takes no time; `OnTime` says exactly which delays that excludes. Other requests may be late, and all other results are for every run.
- A poll's read is not cancelled by its window: an answer may be looked at after the window closed, so bounds cover that too, and the runs that attain 65 s, the grace period and 64 s look at their answer at the very instant at which a window closes.
- A panic is the end of the process; deferred calls that run while it unwinds are not modelled.
- Worlds.World.Interfere: promises that the others have not crashed the process, because a dead process takes no further step; its body only lets time pass, and callers use only the contract.
- Deactivators.Deactivator.MonitorInferencePoolIdleness: the loop is endless in the source; here it runs any finite number of rounds. When a round finds no tick the others rest from then until the ticker fires; that they may reset it again is covered by the theorems about runs.
- Readiness and health service, flags, TLS, manager wiring and charts: they would only add easy members.
