# PilotDeck: concurrency and lifecycle, verified in Dafny

This project models the hand-written concurrency and lifecycle code of PilotDeck and proves
what it promises, for every input and every interleaving. `dafny verify dfyconfig.toml`
checks all of it.

An asynchronous function is cut into atomic steps at its `await` points. The steps are
functions on a state (`Step`), runs are sequences of events (`Run`), and any event may
interleave with any other. The invariants are proved step by step and the theorems are about
all runs from the initial state. Where the program is a class or a set of closures over
shared variables, a Dafny class updates the same variables in place, and each of its methods
is proved to be the step of that name (`View() == Step(old(View()), ...)`). Of these methods
the table below names those with a loop, several branches or a result of their own. What a
step comes to is stated a second time, without the helper functions it is built from: in
the modules called `...Decisions` and at the end of the smaller ones.

| files | what they model |
|---|---|
| `SessionProtocol`, `SessionInvariants`, `SessionSteps`, `SessionTheorems`, `SessionProjects`, `SessionFreshness`, `SessionLimits`, `SessionOutcomes`, `SessionDecisions`, `SessionRouter` | the gateway's session cache: generation symbols, project generations, the pause set and runtime revisions instead of locks |
| `RouterPlan`, `RouterExecution`, `RouterContent`, `RouterRun` | one model call through a chain of fallbacks with two kinds of retry |
| `DateNotices` | date notices placed so that prompt prefixes stay cacheable |
| `Compaction` | the tiered auto-compaction ladder |
| `RuntimeLeases`, `RuntimeSafety`, `RuntimeDecisions`, `RuntimeRegistry` | project runtimes, shared by leases and retired while in use |
| `Supervisor`, `SupervisorSafety`, `SupervisorDecisions`, `RuntimeSupervisor` | the process supervisor of the web runtime |
| `Watermark`, `ServiceWorker`, `NotificationStamps`, `SessionNotifications`, `NotificationDelivery` | read progress of notifications, in the service worker and on the server |
| `Telemetry`, `TelemetrySender` | the telemetry queue |
| `Activity`, `SessionActivity` | the sidebar's activity registry |
| `RateLimit` | the route rate limiter |
| `ChannelOps`, `PilotdeckServer` | the chain of starts and stops per channel |
| `UpdateScheduler` | the debounced project scan |

## What turned out not to hold

* A paused project can get into the session cache in two ways. If one session key is used
  with two projects, a record without a project can adopt one that was paused in the meantime
  (`SessionLimits.PausedProjectCanBeAdopted`); `SessionProjects.StepNonePaused` says exactly
  when. And the empty project key is falsy in every guard, so closing it pauses nothing
  (`SessionLimits.EmptyProjectIsNotPaused`).
* A retired runtime does not have a holder at every moment: when its last holder is a
  background task, the task's status changes before its completion is reported. If the hook
  in between rejects, the report is lost and the runtime stays behind until the next step that
  collects (`RuntimeSafety.HeldAfterStep`, `RuntimeSafety.LostReportLeavesRuntime`).
* Two instances of a channel can run side by side: a hot reload goes on if the old instance
  refuses to stop (`ChannelOps.RejectedStopDoubles`). `ChannelOps.OneInstancePerKey` says
  exactly when.
* A telemetry shutdown does not wait for a flush that is already under way; the batch of that
  flush is not in the file it writes (`Telemetry.ShutdownMissesPendingBatch`).
* A rate limiter with `maxRequests` below 1 still admits the request that opens a window
  (`RateLimit.BoundIsMaxRequests`). Two windows that meet never add up to two full quotas:
  the sharp bound is one less (`RateLimit.FewerThanTwoQuotas`, `RateLimit.BoundIsReached`).
* A skipped compaction may return a snapshot of messages the caller does not get
  (`Compaction.SkippedMeasuresInput`, `Compaction.PruningExample`).
* Two read reports of the same date leave whichever came first (`Watermark.OrderOfReports`).
* The router's branch for an empty attempt list is dead code (`RouterPlan.NeverEmpty`).

## Modelling decisions

* Session cache: sessions are numbered by their factory calls, which are assumed to return
  fresh sessions; a disposal promise is named by its step and key. Overlapping calls on one
  key are not merged and a generation symbol may outlive its callers, as in the source.
  Reasons are reduced to a dirty flag; `channelKey` does not influence anything and is absent.
* Router: the provider is an arbitrary function from the call to what it streams and how it
  ends, and health, budget and aborts are arbitrary as well. A hook that throws while a
  request is prepared ends the run like an abort.
* Date notices: a fingerprint is taken to be injective on role and content; dates are UTC
  days, for years in which the ISO form has four digits.
* Compaction: the budget may answer differently each time it is asked. On the path that
  leads to the emergency tier the compaction engine is present, so its test is absent there.
  Ratios are real numbers.
* Runtimes: a background task starts inside a turn, and the release function of a turn is
  called once, as its only caller does.
* Supervisor: 'error' counts as a failed spawn, as the handlers treat it, while the child is
  the current one; children of one `stopAll` are signalled in a fixed order.
* Notifications, activity: absent identifiers are empty strings. The worker's updates run
  one after the other, as its queue and its database transactions make them.
* Telemetry: the limits are the non-negative integers the configuration parser lets through.

## Model

| member | source | states |
|---|---|---|
| `SessionTheorems.ClosedWhileRunning` | src/gateway/SessionRouter.ts:78-153 | In every interleaving, if the key is closed, swept as idle or shut down while a `getOrCreate` on it runs, that call never returns a session, none of its sessions is ever in a record, and once it has ended every session its factory produced is disposed of |
| `SessionTheorems.ClosingCutsOff` | src/gateway/SessionRouter.ts:229-238 | Closing the key or its project, a sweep that finds it idle, and `shutdown` leave every running call on the key without its symbol |
| `SessionTheorems.CutOffLasts` | src/gateway/SessionRouter.ts:83-84 | A call that lost its symbol never gets it back, whatever later calls on the key do, and never returns |
| `SessionTheorems.ClosedProjectRejects` | src/gateway/SessionRouter.ts:156-170 | A call that began before its project was closed never installs a session, returns none if it was past its lookup, and, if it throws, every session its factory produced is disposed of; `resumeProject` does not change that |
| `SessionProjects.StepNonePaused` | src/gateway/SessionRouter.ts:101-102 | One step, exactly: no paused project is cached afterwards if and only if the step does not let a record without a project adopt a paused one |
| `SessionProjects.PausedStaysOut` | src/gateway/SessionRouter.ts:137-139 | Over every run without such an adoption, no record of a paused project is cached |
| `SessionFreshness.PausedProjectsAreNotCached` | src/gateway/SessionRouter.ts:156-168 | With one project per session key: while a project is paused no record of it is cached, in any interleaving of creations, recreations, waits and closes |
| `SessionFreshness.FixedNeverAdopts` | src/gateway/SessionRouter.ts:381-390 | With one project per session key, merging contexts never changes the project of a record |
| `SessionFreshness.CleanRecordsAreLive` | src/gateway/SessionRouter.ts:85-127 | A cached record without a dirty reason holds a session its factory has delivered and the router has not disposed of, whose factory call began at the current `runtimeRevision` |
| `SessionFreshness.CleanRecordsAreUpToDate` | src/gateway/SessionRouter.ts:240-261 | ... and, with one project per session key, at the current revision of its project |
| `SessionLimits.PausedProjectCanBeAdopted` | src/gateway/SessionRouter.ts:101-103 | A run with two projects on one key after which a paused project is cached |
| `SessionLimits.EmptyProjectIsNotPaused` | src/gateway/SessionRouter.ts:137-139 | Closing the empty project key keeps nothing out, because the guard treats it as absent |
| `SessionSteps.StepKeeps` | src/gateway/SessionRouter.ts:43-58 | Every step keeps the invariant on calls, sessions, records and cached keys |
| `SessionOutcomes.ReturnedForItsKey` | src/gateway/SessionRouter.ts:78-135 | In every run a call returns a session that was created for its own key, by itself or by another call |
| `SessionOutcomes.CachedForItsKey` | src/gateway/SessionRouter.ts:120-127 | ... and what is cached under a key was created for it |
| `SessionOutcomes.StepReturns` | src/gateway/SessionRouter.ts:99-127 | In every step a call that returns returns its own session or the one cached under its key |
| `SessionDecisions.NewCallDecides` | src/gateway/SessionRouter.ts:78-113 | A new call is refused after shutdown and for a paused project, waits for a pending disposal of its key, and otherwise returns the cached session, refreshes it if it is dirty and no other turn uses it, or starts a creation |
| `SessionDecisions.WaitingCallDecides` | src/gateway/SessionRouter.ts:97-113 | A call that waited for a disposal decides in the same way, unless the key was closed or the disposal failed |
| `SessionDecisions.NewCallRemembers` | src/gateway/SessionRouter.ts:81-96 | A call remembers the symbol of its key, the runtime revision, the revision of the cached or else its own project, and the generation of its own |
| `SessionDecisions.RefreshDecides` | src/gateway/SessionRouter.ts:104-106 | After the disposal of a dirty session a new one is created for its record, unless the key was closed, the disposal failed or the project is paused |
| `SessionDecisions.FactoryDecides` | src/gateway/SessionRouter.ts:141-153 | A delivered session goes to its caller, or is disposed of at once if its project was paused meanwhile |
| `SessionDecisions.LateSessionIsDisposed` | src/gateway/SessionRouter.ts:107-119 | A session that comes after its key or project was closed is disposed of, and nothing else changes |
| `SessionDecisions.RefreshedRecord` | src/gateway/SessionRouter.ts:111-115 | In time, it replaces the session of its record, which is dirty again exactly if a reload came meanwhile |
| `SessionDecisions.NewRecord` | src/gateway/SessionRouter.ts:121-127 | ... or is cached in a new record, dirty exactly if a reload came meanwhile |
| `SessionDecisions.CachedRecord` | src/gateway/SessionRouter.ts:99-115 | The cached branch keeps the known project or else takes the caller's, and marks the use |
| `SessionDecisions.SymbolIsDropped` | src/gateway/SessionRouter.ts:128-134 | The `finally` block drops the symbol exactly if nothing cached or pending needs it and it is the call's own |
| `SessionDecisions.SweepTakesExpired` | src/gateway/SessionRouter.ts:326-339 | A sweep takes exactly the sessions out of the cache that have been unused for longer than the timeout and have no turn in flight, and disposes of them |
| `SessionDecisions.LiveTurnKeepsSession` | src/gateway/SessionRouter.ts:326-332 | Only a close takes the session away from a key whose turn is in flight |
| `SessionDecisions.BeginTakesSlot` | src/gateway/SessionRouter.ts:172-180 | `beginTurn` takes a free slot, and neither a taken one nor another |
| `SessionDecisions.EndFreesSlot` | src/gateway/SessionRouter.ts:190-199 | `endTurn` frees the slot for its holder or an unnamed run, and no other slot |
| `SessionDecisions.UseIsNoted` | src/gateway/SessionRouter.ts:196-198 | A use is noted on the record of the key and on no other |
| `SessionDecisions.AllAreMarked` | src/gateway/SessionRouter.ts:240-248 | `markAllDirty` marks every cached session and moves the revision on |
| `SessionDecisions.ProjectIsMarked` | src/gateway/SessionRouter.ts:250-261 | `markProjectDirty` marks exactly the cached sessions of the project and moves its revision on |
| `SessionDecisions.CloseTakesKey` | src/gateway/SessionRouter.ts:229-238 | `close` takes the key out of the cache and no other, and disposes of its session |
| `SessionDecisions.CloseProjectTakes` | src/gateway/SessionRouter.ts:156-168 | `closeProject` takes exactly the sessions of the project out of the cache and disposes of them |
| `SessionDecisions.CloseProjectPauses` | src/gateway/SessionRouter.ts:156-170 | ... pauses it, moves its generation on and will drain its creations; `resumeProject` takes back only the pause |
| `SessionDecisions.ShutdownEmpties` | src/gateway/SessionRouter.ts:297-309 | `shutdown` empties the cache, disposes of everything in it and frees every turn |
| `SessionDecisions.SettledIsForgotten` | src/gateway/SessionRouter.ts:341-352 | A settled disposal is forgotten unless a later one of its key has begun |
| `SessionCache.SessionRouter.GetOrCreate` | src/gateway/SessionRouter.ts:78-103 | `getOrCreate` up to its first `await` is the step of that name |
| `SessionCache.SessionRouter.FactoryDone` | src/gateway/SessionRouter.ts:141-153 | `createTrackedSession` from the end of `await pending`: rejected, delivered to a paused project, or delivered |
| `SessionCache.SessionRouter.ResumeCreated` | src/gateway/SessionRouter.ts:108-127 | ... after the session has been created: dispose of it, put it into the dirty record, or cache it |
| `SessionCache.SessionRouter.CloseProject` | src/gateway/SessionRouter.ts:156-168 | `closeProject` pauses the project, bumps its generation, notes the creations under way and closes exactly the cached sessions of the project |
| `SessionCache.SessionRouter.BeginTurn` | src/gateway/SessionRouter.ts:172-180 | `beginTurn` sweeps, then takes the slot of the key if it is free; its result says whether it did |
| `SessionCache.SessionRouter.EvictEach` | src/gateway/SessionRouter.ts:326-359 | The loop over a set of cached keys takes exactly those out of the cache, whatever their order, disposes of their sessions and notes each disposal |
| `SessionCache.SessionRouter.MarkEach` | src/gateway/SessionRouter.ts:240-261 | The loop over a set of cached keys marks exactly their records dirty, whatever their order, and counts them |
| `SessionCache.MethodsAreCallable` | src/gateway/SessionRouter.ts:116-127 | In every reachable state the references the methods follow are in range |
| `RouterPlan.StablePartition` | src/router/RouterRuntime.ts:635-656 | The attempt list names no model twice, has all media-capable attempts before all downgraded ones, and keeps the configured order inside each part |
| `RouterPlan.EveryModelOnce` | src/router/RouterRuntime.ts:640-656 | Every requested or fallback model is in the attempt list |
| `RouterPlan.NeverEmpty` | src/router/RouterRuntime.ts:671-691 | The attempt list is never empty, so the branch for an empty one is never taken |
| `RouterPlan.RequestedLeads` | src/router/RouterRuntime.ts:648-656 | The first attempt is the requested model if and only if it supports the media or no fallback does |
| `RouterPlan.NoMoreThanCandidates` | src/router/RouterRuntime.ts:640-656 | There are at most as many attempts as candidates |
| `RouterPlan.Fallbacks` | src/router/fallback/runFallbackChain.ts:11-37 | None for a model the user named; else the first ones configured, all of them or as many as the cap, which is 5 unless configured |
| `RouterRun.ExecuteRequest` | src/router/RouterRuntime.ts:631-1006 | The whole call, from the request on: its attempts are those of the attempt list, it makes at most (1 + number of fallbacks up to the cap)*Z + T provider calls, and what it yields as content is the content of its calls |
| `RouterRun.EachModelOnce` | src/router/RouterRuntime.ts:640-656 | Between two calls to the same provider and model there are only calls to that model, all under one attempt: a model that has been left is never called again |
| `RouterRun.CallsGoToCandidates` | src/router/RouterRuntime.ts:692-718 | Every call goes to the requested model or a fallback, with its media downgraded exactly if the model does not support them |
| `RouterRun.CandidatesArePlanned` | src/router/RouterRuntime.ts:640-656 | The requested model has an attempt, and so has every configured fallback up to the cap |
| `RouterRun.FailedRunTriedAll` | src/router/RouterRuntime.ts:692-704 | A run that shows nothing and ends with an error another model might not have had has made calls under every attempt but the unhealthy ones, and under the first and the last of all |
| `RouterRun.FailedRunRetried` | src/router/RouterRuntime.ts:850-877 | ... and, unless transient retries are off, has made more than T calls under the last |
| `RouterRun.BlankSuccessIsLast` | src/router/RouterRuntime.ts:932-964 | A run succeeds with a blank response only after Z tries, or if such retries are off |
| `RouterRun.RetryLimits` | src/router/RouterRuntime.ts:657-662 | Both limits are 5 unless configured, and at least 1 |
| `RouterRun.WhatIsContent` | src/router/RouterRuntime.ts:1095-1103 | Content is everything but start, end, usage and error events |
| `RouterRun.EligibleErrors` | src/router/fallback/runFallbackChain.ts:56-76 | Which errors may be cured by another model or another try, code by code |
| `RouterRun.BlankResponses` | src/router/retry/zeroUsageRetry.ts:18-63 | Text, tool calls, errors and reported tokens each keep a response from being blank; a finished one without any of them is blank |
| `RouterRun.FramingDropsErrors` | src/router/RouterRuntime.ts:997-1003 | What is replayed after a failure without content has no errors ... |
| `RouterRun.FramingKeepsRest` | src/router/RouterRuntime.ts:997-1003 | ... and everything else that was buffered, in order |
| `RouterExecution.PassThrough` | src/router/RouterRuntime.ts:590-629 | A disabled router makes one call and relays all of it, followed by the error if the stream did not show one |
| `RouterRun.PassThroughIsFaithful` | src/router/RouterRuntime.ts:613-627 | ... so no content is lost, and the output shows an error exactly if the attempt had one |
| `RouterPlan.Filter` | src/router/RouterRuntime.ts:642-652 | `filter` keeps exactly the chosen positions, in order |
| `RouterExecution.Execute` | src/router/RouterRuntime.ts:692-1006 | For every provider behaviour and every list of n attempts: each provider call is the first one, or a fallback, transient retry or zero-usage retry its predecessor justifies; the run ends for a stated reason with exactly the stated output; at most n*Z+T calls; one statistics record for a success or a failure and none otherwise |
| `RouterExecution.TryPlan` | src/router/RouterRuntime.ts:741-930 | The retry loop of one plan makes at most Z calls plus its transient retries, and retries transiently on the last plan only |
| `RouterExecution.TryOnce` | src/router/RouterRuntime.ts:743-964 | The verdict after one call: fall back, retry, give up or finish |
| `RouterExecution.Relay` | src/router/RouterRuntime.ts:752-776 | Framing events are held back until the first content event; then everything passes, in order |
| `RouterExecution.ObserveAttempt` | src/router/RouterRuntime.ts:1161-1234 | The outcome: the buffered events, the error (a rejection, else the last error event) and whether the response was empty |
| `RouterExecution.Conclude` | src/router/RouterRuntime.ts:966-1005 | A failed run ends with its error under the last attempt's name, after replaying the framing events if no content was shown |
| `RouterContent.ContentIsConserved` | src/router/RouterRuntime.ts:752-776 | However the run ends, the content yielded is the content of all calls together, and all of it comes from the last call |
| `RouterContent.RetriedCallsWereSilent` | src/router/RouterRuntime.ts:789-877 | No call that was retried or fallen back from had delivered content |
| `RouterContent.RunIsDetermined` | src/router/RouterRuntime.ts:692-1005 | Providers, settings and surroundings determine the calls, the output and the result: the contract of `Execute` has one solution |
| `DateNotices.AgreedPrefixIsKept` | src/context/DefaultContextRuntime.ts:191-246 | For every p up to which a request agrees with the last committed one, without a new checkpoint, both begin with the same first p messages and the notices among them |
| `DateNotices.ExtensionExtends` | src/context/DefaultContextRuntime.ts:199-246 | A request that only appends messages extends the previous request, notices included, if and only if it brings no new checkpoint or no notice was showing |
| `DateNotices.PrefixOnlyGrows` | src/context/DefaultContextRuntime.ts:212-246 | Over any number of appending requests and date changes no earlier prefix is lost |
| `DateNotices.NoticesOnlyAdd` | src/context/DefaultContextRuntime.ts:239-246 | Erasing the notices gives back the projected messages |
| `DateNotices.NoticeStandsAt` | src/context/DefaultContextRuntime.ts:239-246 | Each notice stands right after the messages that were there when it was placed |
| `DateNotices.PlanIsValid` | src/context/DefaultContextRuntime.ts:221-238 | Notices are in order and inside the messages, no date repeats the one shown before, and the last date shown is the date of the request |
| `DateNotices.DateIsRefreshed` | src/context/DefaultContextRuntime.ts:207-218 | The date of the system prompt is refreshed, and all notices are dropped, exactly when a request that is not a preview begins with a checkpoint the last committed one did not begin with |
| `DateNotices.FirstRequest` | src/context/DefaultContextRuntime.ts:218-233 | A first request is dated today and shows no notice |
| `DateNotices.NoticesThatStay` | src/context/DefaultContextRuntime.ts:221-238 | Otherwise exactly the notices up to the first changed message stay, and the only new one is today's at the end |
| `DateNotices.ContextRuntime.PrepareContextAttempt` | src/context/DefaultContextRuntime.ts:191-246 | The loops compute the planned state and its messages |
| `DateNotices.ContextRuntime.Commit` | src/context/DefaultContextRuntime.ts:326-334 | `commit` stores the state for its session only |
| `DateNotices.UnchangedPrefix` | src/context/DefaultContextRuntime.ts:196-201 | The loop finds the longest common prefix |
| `DateNotices.InsertNotices` | src/context/DefaultContextRuntime.ts:239-246 | The loop over the updates inserts each notice at its index, with clamping slices |
| `Compaction.TryAutoCompact` | src/context/DefaultContextRuntime.ts:399-643 | Every stage runs on the transcript measured last and under the pressure that justifies it, in order; the outcome's messages, snapshot, tier, error and result are those of the trace; pressure of 90 % or more remains only after every configured emergency stage |
| `Compaction.RunEmergencyCompaction` | src/context/DefaultContextRuntime.ts:645-749 | The emergency tier ends with a measurement of what it returns, reports a change exactly if one happened, and leaves 90 % or more only after trying everything |
| `Compaction.StageEffects` | src/context/DefaultContextRuntime.ts:458-591 | What each stage that ran made of the transcript: a summary that succeeded replaces it, a failed one leaves it, and so on |
| `Compaction.StagesUnderPressure` | src/context/DefaultContextRuntime.ts:458-749 | The snip runs only above 60 %, summaries and emergency stages only at 90 % or more, the projection only if the first budget is not fine |
| `Compaction.AtMostTwoSummaries` | src/context/DefaultContextRuntime.ts:504-512 | The summariser runs at most twice, and at most once before the emergency tier |
| `Compaction.SummariesUnderPressure` | src/context/DefaultContextRuntime.ts:486-504 | Every summary run was preceded by a measurement of the same transcript at 90 % or more |
| `Compaction.EachStageOnce` | src/context/DefaultContextRuntime.ts:458-591 | No stage runs twice |
| `Compaction.SkippedMeasuresInput` | src/context/DefaultContextRuntime.ts:583-590 | The snapshot of a skipped outcome is the budget of the caller's messages if the first budget is fine or no projection is configured, and else of the projected ones; so it measures the caller's messages if and only if one of these holds or the projection keeps them |
| `Compaction.PrunedButSkipped` | src/context/DefaultContextRuntime.ts:458-495 | With a projection, a first budget that is not fine, 90 % or more after the projection and no engine, every run is skipped with the snapshot of the projected messages |
| `Compaction.PruningExample` | src/context/DefaultContextRuntime.ts:458-495 | ... which a projection that drops a message makes a snapshot of other messages than the caller's |
| `RuntimeSafety.LeasedRuntimeIsAlive` | src/cli/createLocalGateway.ts:1327-1345 | In every run a leased runtime is torn down by gateway shutdown only; without one it is cached or retired |
| `RuntimeSafety.TornDownOnce` | src/cli/createLocalGateway.ts:902-911 | Every runtime is in exactly one of cached, retired and torn down, and is torn down once at most |
| `RuntimeSafety.TornWereUnheld` | src/cli/createLocalGateway.ts:902-911 | Apart from shutdown, a step tears down only runtimes without lease, turn, active task or maintenance |
| `RuntimeSafety.HeldAfterStep` | src/cli/createLocalGateway.ts:884-911 | After any step every retired runtime has a holder, except exactly when a background task exits whose runtime is retired and has no lease, no turn, no maintenance and no other active task |
| `RuntimeSafety.CollectingStepHolds` | src/cli/createLocalGateway.ts:869-911 | After every step that collects, every retired runtime has a holder, whatever was there before |
| `RuntimeSafety.LostReportLeavesRuntime` | src/task/runtime/BackgroundTaskRuntime.ts:221-241 | A run in which a task's settle hook rejects leaves a retired runtime without a holder, until the next step that collects |
| `RuntimeSafety.TaskCountIsExact` | src/cli/createLocalGateway.ts:869-882 | Every active background task is counted, also on runtimes that are retired or torn down |
| `RuntimeSafety.StepKeeps` | src/cli/createLocalGateway.ts:805-811 | Every step keeps placement, counters and leases consistent |
| `RuntimeDecisions.HoldersAreNeeded` | src/cli/createLocalGateway.ts:895-901 | The counters and loops see exactly the runtimes with an unreleased lease, an open turn, an active task or a memory loop |
| `RuntimeDecisions.TornIsNotNeeded` | src/cli/createLocalGateway.ts:902-911 | In every run a step other than shutdown tears down only runtimes without any of these |
| `RuntimeDecisions.RetiredIsNeeded` | src/cli/createLocalGateway.ts:902-911 | In every run the steps that collect leave only runtimes retired that have one of these |
| `RuntimeDecisions.InvalidationTakesRoot` | src/cli/createLocalGateway.ts:884-892 | Invalidating a project retires its runtime, or tears it down, and leaves every other one cached |
| `RuntimeDecisions.InvalidationTakesAll` | src/cli/createLocalGateway.ts:988-994 | Invalidating everything, or another interpreter, leaves nothing cached |
| `RuntimeDecisions.ShutdownTearsDown` | src/cli/createLocalGateway.ts:997-1015 | Shutdown tears down everything cached or retired at once |
| `RuntimeDecisions.LeaseIsShared` | src/cli/createLocalGateway.ts:1327-1331 | Sessions of one project share its cached runtime; a new one is created only if there is none |
| `RuntimeDecisions.ReleaseIsOnce` | src/cli/createLocalGateway.ts:1332-1338 | A release counts once, and for its own lease |
| `RuntimeDecisions.RequestIsHeard` | src/cli/createLocalGateway.ts:1153-1162 | A request for maintenance starts the loop of an idle runtime, or makes the running one look again |
| `RuntimeDecisions.PassTakesRequest` | src/cli/createLocalGateway.ts:1160-1163 | The loop runs again if there was a request, and otherwise leaves |
| `RuntimeDecisions.LateRequestIsHeard` | src/cli/createLocalGateway.ts:1192-1198 | A request that came while the loop was leaving is heard by the runtime that has the root then |
| `RuntimeDecisions.CountForgets` | src/cli/createLocalGateway.ts:869-882 | Counting forgets a runtime's tasks exactly if it has no active one and can get no more |
| `RuntimeRegistry.ProjectRuntimeRegistry.CollectEach` | src/cli/createLocalGateway.ts:902-911 | The loop tears down exactly the retired runtimes nobody holds |
| `RuntimeRegistry.ProjectRuntimeRegistry.MoveSelected` | src/cli/createLocalGateway.ts:884-892 | The loop moves exactly the selected runtimes to the retired ones, whatever their order |
| `RuntimeRegistry.ProjectRuntimeRegistry.ActiveBackgroundTaskCount` | src/cli/createLocalGateway.ts:869-882 | The loop counts the active tasks of all known runtimes and forgets those that can get no more |
| `RuntimeRegistry.ProjectRuntimeRegistry.MaintenanceEnds` | src/cli/createLocalGateway.ts:1192-1198 | The end of the loop collects, and reschedules a request that came too late |
| `SupervisorSafety.GatewaysDoNotOverlap` | ui/server/webRuntimeSupervisor.js:152-206 | A gateway is spawned only when every gateway before it has exited or closed, failed to spawn, or outlived the kill grace period |
| `SupervisorSafety.PublishedStates` | ui/server/webRuntimeSupervisor.js:193-256 | Each gateway's published states are starting, optionally ready, optionally error; ready needs the open port and the child's own message; after an error the child is no longer current |
| `SupervisorSafety.SignalPreventsRelaunch` | ui/server/webRuntimeSupervisor.js:283-312 | From a signal on nothing is spawned in any run, so a restart under way is not completed |
| `SupervisorSafety.SignalDecidesExitCode` | ui/server/webRuntimeSupervisor.js:283-343 | In every run that goes on from a signal, the only exit code is that of the signal: of the first one, or of one that came while a critical exit was being handled |
| `SupervisorSafety.ExitsOnce` | ui/server/webRuntimeSupervisor.js:283-343 | `exit` is called at most once in any run |
| `SupervisorSafety.StepKeeps` | ui/server/webRuntimeSupervisor.js:102-123 | Every callback, timer and continuation keeps the invariant |
| `SupervisorDecisions.CriticalExitEndsStop` | ui/server/webRuntimeSupervisor.js:283-312 | After a critical exit without a signal: a consumed restart request starts a new server, one that cannot be consumed exits with 1, and without a request the program exits with the child's code, or 1 if a signal killed it |
| `SupervisorDecisions.SignalEndsStop` | ui/server/webRuntimeSupervisor.js:288-343 | A stop that a signal began, or during which one came, ends with 0 for SIGINT and 1 for SIGTERM |
| `SupervisorDecisions.SignalStopsAll` | ui/server/webRuntimeSupervisor.js:337-343 | A signal stops every child unless a shutdown is under way, and is remembered in any case |
| `SupervisorDecisions.CriticalCloseStopsAll` | ui/server/webRuntimeSupervisor.js:320-324 | When the server or the client closes unasked, everything else is stopped, and its code is kept for the end |
| `SupervisorDecisions.CriticalErrorStopsAll` | ui/server/webRuntimeSupervisor.js:315-319 | ... and so it is when one of them cannot be spawned, which counts as code 1 |
| `SupervisorDecisions.ChildStops` | ui/server/webRuntimeSupervisor.js:152-175 | `stopChild` forgets the child and begins its stop, which is over at once if the child has exited |
| `SupervisorDecisions.GatewayStarts` | ui/server/webRuntimeSupervisor.js:193-202 | The gateway is started when the configuration is ready, none is running and nothing is being stopped; if the last one is being stopped, the start waits |
| `SupervisorDecisions.ConfigurationDecides` | ui/server/webRuntimeSupervisor.js:258-281 | The configuration starts or stops the gateway |
| `SupervisorDecisions.WaitingStartsResume` | ui/server/webRuntimeSupervisor.js:185-198 | A start that waited for a stop is made up for when the stop is over |
| `SupervisorDecisions.ReadinessIsPublished` | ui/server/webRuntimeSupervisor.js:205-232 | Readiness is published as soon as both the port is open and the gateway has said so, in either order |
| `SupervisorDecisions.FailureIsReported` | ui/server/webRuntimeSupervisor.js:212-220 | A gateway that does not get ready in time is reported and stopped |
| `SupervisorDecisions.UnexpectedCloseIsReported` | ui/server/webRuntimeSupervisor.js:240-249 | A gateway that closes unasked is reported, unless it had been before or everything is being stopped |
| `SupervisorDecisions.StopsSettle` | ui/server/webRuntimeSupervisor.js:152-175 | A stop ends when the child closes, or after the two timers |
| `SupervisorDecisions.ClientStarts` | ui/server/webRuntimeSupervisor.js:258-270 | In development the client is started once the server listens on a valid port |
| `RuntimeSupervisor.Supervisor.StartGateway` | ui/server/webRuntimeSupervisor.js:193-204 | `startGateway` does nothing, waits for the stop under way, or spawns |
| `RuntimeSupervisor.Supervisor.AfterStopAll` | ui/server/webRuntimeSupervisor.js:288-312 | After everything has stopped: exit for a signal, relaunch on request, or exit with the child's code |
| `Watermark.StepKeeps` | ui/public/sw.js:146-243 | Pending reminders stay later than the read progress, and read progress never moves back in time, never becomes undated and never disappears, unless the scope changes to another user's |
| `Watermark.PendingIsUnread` | ui/public/sw.js:170-191 | In every run no pending reminder is at or before the read progress of its session |
| `Watermark.LatestReportWins` | ui/public/sw.js:226-239 | Two read reports with different dates leave the same progress in either order: the later one, or the previous progress if that is at least as late |
| `Watermark.OrderOfReports` | ui/public/sw.js:226-239 | The order of two dated reports matters if and only if they are different, have the same date, and the session was not read up to it |
| `Watermark.DatedReport` | ui/public/sw.js:231-238 | A dated report replaces progress that is absent, undated or earlier, and no other |
| `Watermark.AcceptedIsPlaced` | ui/public/sw.js:170-181 | An accepted reminder becomes pending, or the read progress if its conversation is on screen |
| `Watermark.OldReminderIsRefused` | ui/public/sw.js:165-176 | A reminder is refused, and changes nothing, if it is for another user, was seen before, or is no later than what its session has read or has pending |
| `Watermark.NewReminderIsAccepted` | ui/public/sw.js:165-182 | ... and every other one is accepted |
| `Watermark.WhenItAppears` | ui/public/sw.js:183-186 | It appears unless the conversation is on screen or notifications are off, and is loud unless it is silent, sounds are off or one came less than two seconds ago; stored preferences go first |
| `Watermark.SoundsAreApart` | ui/public/sw.js:185-186 | In every run, and whatever the clock does, a sound comes at least two seconds after the one before |
| `Watermark.ReportIsHeard` | ui/public/sw.js:226-232 | A report is heard only under the scope in force, and what it names will not be shown again |
| `Watermark.PendingIsRead` | ui/public/sw.js:231-241 | A report that names the pending reminder, with its date or without any, reads it |
| `Watermark.DateIsRecovered` | ui/public/sw.js:233-235 | A report without a date takes the date of the pending reminder it names |
| `Watermark.UndatedReport` | ui/public/sw.js:236-240 | A report with an unreadable date never replaces dated progress, but replaces undated progress of another reminder |
| `Watermark.PreferencesDecide` | ui/public/sw.js:216-224 | Another user's scope starts afresh; otherwise preferences change nothing but themselves and an unknown scope |
| `NotificationStamps.FrameReminds` | ui/server/session-notifications.js:28-64 | Which frames remind, and the stamp: the time of the frame or of its receipt, or a millisecond after the last stamp if that is not earlier |
| `NotificationStamps.ReminderIsRemembered` | ui/server/session-notifications.js:44-60 | The same attention does not remind again, and the session keeps the stamp |
| `NotificationStamps.RunIsRemembered` | ui/server/session-notifications.js:30-37 | The session is in the run of the last frame that named one |
| `NotificationStamps.StampsIncrease` | ui/server/session-notifications.js:27-64 | While a session is retained its reminders are stamped in strictly increasing order, whatever the clock and the frames say |
| `NotificationStamps.StepKeeps` | ui/server/session-notifications.js:40-48 | The registry holds at most 2048 sessions and 4096 reminders, each once |
| `NotificationDelivery.LaterReminderIsNotSuppressed` | ui/public/sw.js:146-191 | Server and worker together: after any shows and reads of earlier reminders of a retained session, and anything about other sessions, the next reminder with a new id is accepted and becomes pending or, on screen, the read progress |
| `ServiceWorker.NotificationStore.ShowNotificationOnce` | ui/public/sw.js:162-219 | The handler is the step; its results say whether the reminder was accepted and is shown |
| `ServiceWorker.NotificationStore.OnRead` | ui/public/sw.js:226-241 | The loop over the reported records is the step |
| `SessionNotifications.SessionNotificationRegistry.Receive` | ui/server/session-notifications.js:27-64 | The handler is the step, and returns the reminder it emits |
| `Telemetry.NothingLostOrDuplicated` | src/telemetry/sender.ts:64-111 | In every run each queued or restored event is in exactly one of queue, batch in flight, sent and dropped |
| `Telemetry.QueueIsBounded` | src/telemetry/sender.ts:68-111 | Queue and batch together never exceed `maxQueueSize + batchSize` |
| `Telemetry.RetriesAreBounded` | src/telemetry/sender.ts:94-103 | An event is transmitted at most `maxRetries + 1` times, less the attempts it was restored with, but once in any case |
| `Telemetry.RestartKeepsNewest` | src/telemetry/sender.ts:145-192 | What a shutdown writes, the next process restores: the newest events up to the limit, in order, with their attempts |
| `Telemetry.FileMissesTheBatch` | src/telemetry/sender.ts:113-120 | What a shutdown writes, in any run: each event ever queued is in the file, sent or dropped, except exactly the batch in flight at that moment |
| `Telemetry.ShutdownMissesPendingBatch` | src/telemetry/sender.ts:113-120 | A shutdown that only responses come between misses exactly the batch of a flush that was under way when it was called, and nothing otherwise |
| `Telemetry.EnqueueTakes` | src/telemetry/sender.ts:64-75 | An event is taken as long as there is room, refused otherwise, and ignored while telemetry is off |
| `Telemetry.FullBatchIsSent` | src/telemetry/sender.ts:76-79 | An event that fills a batch starts a flush |
| `Telemetry.FlushSends` | src/telemetry/sender.ts:80-88 | A flush sends the oldest events, as many as fit, if none is under way |
| `Telemetry.DeliveryGoesOn` | src/telemetry/sender.ts:86-93 | A delivered batch counts as sent, and the flush goes on with what has come meanwhile |
| `Telemetry.FailureRetries` | src/telemetry/sender.ts:94-111 | After a failure the events with attempts left are back in front of the queue, in reverse, and exactly the others are given up |
| `Telemetry.FileIsReadOnce` | src/telemetry/sender.ts:43-63 | The queue file is read when telemetry is first switched on, and never again |
| `Telemetry.StepKeeps` | src/telemetry/sender.ts:43-120 | Every step keeps conservation, bounds, counters and attempts |
| `TelemetrySending.TelemetrySender.PutBack` | src/telemetry/sender.ts:95-102 | The loop drops exhausted events and unshifts the others one by one, onto whatever has been queued meanwhile |
| `TelemetrySending.TelemetrySender.RestoreLines` | src/telemetry/sender.ts:158-171 | The loop restores the lines one by one and counts what it refuses |
| `Activity.RegistryIsBounded` | ui/server/session-activity.js:61-68 | A user holds at most 2048 sessions unless all held ones are running |
| `Activity.RunningIsNeverEvicted` | ui/server/session-activity.js:63-67 | A frame about one session never evicts or changes another session that is running |
| `Activity.WaitingIsDerived` | ui/server/session-activity.js:47-56 | A pending-request entry exists only for a held, running session, and `waitingFor` is what the entry says |
| `Activity.RevisionsIncrease` | ui/server/session-activity.js:60-62 | Sessions are in the order of their revisions, and none is used twice |
| `Activity.RevisionTellsSidebar` | ui/server/session-activity.js:58-69 | Over any run of frames, two moments with the same revision have the same sidebar |
| `Activity.StaleFrameIsIgnored` | ui/server/session-activity.js:17-20 | A frame of another run changes nothing unless it starts that run; neither does a cancellation for an unknown session |
| `Activity.ReplayIsIgnored` | ui/server/session-activity.js:44-46 | Nor does a start of the run the session has already ended |
| `Activity.StartRuns` | ui/server/session-activity.js:18-29 | Any other start makes the session run, and a new run forgets what the old one was waiting for |
| `Activity.EndIdles` | ui/server/session-activity.js:30-36 | The end of its run makes the session idle, waiting for nobody, and a completion is noted |
| `Activity.OtherFramesAreIgnored` | ui/server/session-activity.js:34-43 | Errors that are not terminal and frames of no interest change nothing |
| `Activity.AskWaits` | ui/server/session-activity.js:47-56 | A running session that asks waits for an answer if any question is open, and else for an approval |
| `Activity.AnswerCloses` | ui/server/session-activity.js:50-53 | A cancellation closes the request it names, a tool result those of its tool, and no other |
| `Activity.QueuedInputRuns` | ui/server/session-activity.js:37-39 | A queued input that is being sent makes the session run |
| `Activity.FailedInputIdles` | ui/server/session-activity.js:40-41 | A failed input of the session's own run ends it |
| `Activity.AttentionIsNoted` | ui/server/session-activity.js:57-60 | The session shows the attention last asked for, and since when |
| `Activity.AttentionIsNamed` | ui/server/session-notifications.js:3-19 | Completed runs, questions, approvals, terminal errors and failed inputs ask for attention, each under its own name |
| `Activity.RemovalForgets` | ui/server/session-activity.js:9-9 | A removed session is no longer listed and waits for nothing; all others stay |
| `Activity.StepKeeps` | ui/server/session-activity.js:9-70 | Every frame and removal keeps the invariant |
| `SessionActivity.SessionActivityRegistry.Receive` | ui/server/session-activity.js:13-70 | The branch chain is the step, and publishes an activity exactly when it uses a new revision |
| `SessionActivity.SessionActivityRegistry.Classify` | ui/server/session-activity.js:24-43 | The chain of tests on the frame gives the run and whether it is being worked on |
| `RateLimit.WindowKeepsQuota` | ui/server/index.js:1193-1200 | One window admits at most `maxRequests`, or one request if that is less |
| `RateLimit.BoundIsMaxRequests` | ui/server/index.js:1192-1199 | `maxRequests` bounds every window if and only if it is at least 1 |
| `RateLimit.FewerThanTwoQuotas` | ui/server/index.js:1186-1199 | With a clock that does not go back, any half-open stretch of `windowMs` admits at most 2*maxRequests - 1 requests of one key |
| `RateLimit.BoundIsReached` | ui/server/index.js:1186-1199 | ... and a run that admits that many exists |
| `RateLimit.RetryAfterSuffices` | ui/server/index.js:1202-1203 | Waiting the returned Retry-After reaches the reset time, and the next request is admitted |
| `RateLimit.RetryAfter` | ui/server/index.js:1202-1202 | The seconds are at least 1, cover the wait, and are not a second too long |
| `RateLimit.RequestsAreCounted` | ui/server/index.js:1186-1203 | A window counts its requests from the first one on and admits a further one exactly if there were fewer than `maxRequests` |
| `RateLimit.RouteRateLimiter.Handle` | ui/server/index.js:1186-1208 | A request touches the bucket of its own key only |
| `ChannelOps.OperationsRunInOrder` | src/cli/pilotdeckServer.ts:78-88 | Operations on one key begin in the order they were enqueued, each after the one before has finished, whatever fails |
| `ChannelOps.ChainAdvances` | src/cli/pilotdeckServer.ts:78-88 | Of the unfinished operations on a key one is in progress or may begin |
| `ChannelOps.MapsAgree` | src/cli/pilotdeckServer.ts:90-104 | The handle and channel maps hold the same instances at any time |
| `ChannelOps.OneInstancePerKey` | src/cli/pilotdeckServer.ts:95-104 | Over a whole run, a key never has two instances that were started and not stopped successfully if and only if no start on it succeeds while an instance is left whose stop was rejected |
| `ChannelOps.StepKeepsOne` | src/cli/pilotdeckServer.ts:95-104 | ... and so for each single step |
| `ChannelOps.SuccessfulStopsSuffice` | src/cli/pilotdeckServer.ts:95-104 | In particular there is never more than one in a run in which no stop on the key is rejected |
| `ChannelOps.RejectedStopDoubles` | src/cli/pilotdeckServer.ts:97-103 | A hot reload whose stop of the old instance is rejected leaves two instances running |
| `ChannelOps.StartIsExclusive` | src/cli/pilotdeckServer.ts:95-101 | While an instance is being started, the only others of its key that were started and not stopped are those whose stop was rejected |
| `ChannelOps.OperationStopsInstance` | src/cli/pilotdeckServer.ts:95-158 | An operation on a running channel stops that very instance; a stop forgets it at once |
| `ChannelOps.OperationWithoutInstance` | src/cli/pilotdeckServer.ts:95-156 | With no instance running a start goes on at once and a stop has nothing to do |
| `ChannelOps.StartGoesOn` | src/cli/pilotdeckServer.ts:97-101 | Whether the old instance could be stopped or not, a start forgets it and goes on |
| `ChannelOps.StartIsTracked` | src/cli/pilotdeckServer.ts:101-103 | A start that succeeds is tracked under its key, and one that fails leaves nothing behind |
| `ChannelOps.LiveInstanceIsFound` | src/cli/pilotdeckServer.ts:72-103 | In every run a started instance that nobody has begun to stop is the one its key leads to |
| `ChannelOps.StepKeeps` | src/cli/pilotdeckServer.ts:69-104 | Every step keeps order and bookkeeping |
| `PilotdeckServer.ChannelRunner.StartAndTrack` | src/cli/pilotdeckServer.ts:90-97 | A start first looks for a running instance |
| `UpdateScheduler.ScansNeverOverlap` | ui/server/projectUpdateScheduler.js:8-24 | At most one scan is under way |
| `UpdateScheduler.PendingIsLookedAfter` | ui/server/projectUpdateScheduler.js:27-34 | A pending change has an armed timer or a running scan, and the scheduler is not disposed of |
| `UpdateScheduler.LatestScanSawEverything` | ui/server/projectUpdateScheduler.js:8-24 | When nothing is pending, the latest scan started after the latest change |
| `UpdateScheduler.PublishedInOrder` | ui/server/projectUpdateScheduler.js:13-15 | Changes are published in order and not twice |
| `UpdateScheduler.NothingAfterDispose` | ui/server/projectUpdateScheduler.js:36-41 | Nothing is published after `dispose` |
| `UpdateScheduler.ComesToRest` | ui/server/projectUpdateScheduler.js:18-23 | Without new changes every timer and scan brings rest nearer, and one of them is due until then |
| `UpdateScheduler.ScanIsPublished` | ui/server/projectUpdateScheduler.js:12-17 | A scan that succeeds publishes the change it was started for, unless the scheduler was disposed of |
| `UpdateScheduler.ChangeIsScanned` | ui/server/projectUpdateScheduler.js:8-34 | A change arms the timer, and when that fires a scan starts for the latest change unless one is running |
| `UpdateScheduler.LastChangeIsPublished` | ui/server/projectUpdateScheduler.js:8-34 | When all is quiet after scans that succeeded, the last publication is of the last change |
| `UpdateScheduler.ProjectUpdateScheduler.OnScanSettled` | ui/server/projectUpdateScheduler.js:12-24 | The end of a scan publishes, then drains what came in meanwhile unless its timer is running |

## Left out

- `SessionFreshness.PausedProjectsAreNotCached`: assumes one project per session key, because without that it is false; the exact condition is `SessionProjects.StepNonePaused`.
- `SessionFreshness.CleanRecordsAreUpToDate`: assumes one project per session key for the same reason.
- `SessionTheorems.ClosedProjectRejects`: a call that had not passed its lookup when the project was closed may still return the session that is cached then; it never installs its own.
- `RouterExecution.Execute`: the output after a failure without content shows the framing events twice, as the source does; only content is claimed to come from one call.
- `Compaction.TryAutoCompact`: in the micro tier the snapshot is taken before the trailing user message is ensured, so it is not claimed to measure the result.
- `RateLimit.FewerThanTwoQuotas`: needs a clock that does not go back, because the source compares wall-clock times.
- `Telemetry.RestartKeepsNewest`: the byte window of the file read and the 65,536-character limit per line appear only as lines that are too long.
- What `closeProject` waits for, and session listings, snapshots and eviction callbacks.
- Factories that throw synchronously instead of rejecting.
- The router's usage estimates, statistics contents, health tracking, custom routers and sticky decisions; a consumer that stops reading a stream.
- Cache plan generations, artifact and memory attachments, instructions and system prompts, and the suppression of a repeated commit of one context.
- Compaction diagnostics, token targets and the engines themselves.
- MCP runtimes, per-session MCP limits, permission rules and everything a project runtime is made of.
- Spawn options, ports, log output, the restart request file (an arbitrary answer here) and process groups.
- Database failures, notification texts, badges, closing of shown notifications, and which frames make a reminder in the notification registry (`sessionAttention` is modelled in the activity registry only).
- Request bodies, timeouts and the order of retried telemetry events: a failed batch goes back in reverse.
- Channel adapters, status reports, cron delivery and webhooks.
- Timers as durations: only the order in which they fire is kept, except in the rate limiter and the notification stamps.
- The null context runtime, URL and host helpers, permission-name normalisation and the watch registry: they would only add easy members.
