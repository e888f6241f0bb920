# GPU ownership between mining and inference: a verified model

A storage provider's GPU serves two masters. Filecoin mining (WindowPoSt and WinningPoSt proofs) must
have it whenever it needs it; LLM inference has it the rest of the time. Two cooperating processes pass
it back and forth: a Go scheduler decides a GPU state from the proving deadlines and block wins, and a
Python sidecar polls that state and loads or unloads N vLLM engines. This project models both and proves
"mining always wins", together with the arithmetic, event, routing and receipt code around it.

## What is modelled

Each imperative component has a step relation on values, over which the properties of all runs are
proved, and a class with the component's own fields whose methods are proved to take exactly those steps.

| files | component |
|---|---|
| `Sidecar`, `Lotus`, `Policy`, `LookAhead`, `ProofKeys` | deadline arithmetic, thresholds, the look-ahead and its proof keys |
| `EventBus`, `SchedulerModel`, `Scheduler` | the scheduler's goroutines over one state: poller, proof monitors, resume timers, wins |
| `SchedulerSafety`, `EventLog`, `YieldGuarantee` | what holds over its runs |
| `EngineModel`, `VllmEngine`, `EngineLifecycle`, `EngineCommands`, `EngineRetries`, `EngineProgress`, `EngineOverlap`, `LostCommands` | one engine: pause, resume, start and reload as program counters over its fields and its FIFO lock |
| `PoolModel`, `EnginePool`, `PoolSafety`, `PoolOverlap`, `PoolResume`, `Sessions`, `Routing` | N engines, sequential resume loops, and the choice of an engine |
| `Subprocess`, `CoreProcesses` | which engine spawned, recorded and kills which subprocess |
| `ListenerModel`, `SchedulerListener`, `ListenerHistory` | the polling listener |
| `Composition`, `SentPauses`, `LostResume` | listener thread, main loop and pool together |
| `Wrappers`, `Arith` | the optional value, and facts about products and quotients |
| `Json`, `Receipt`, `ReceiptObject`, `Streaming` | the signed receipt's payload, and streamed against buffered text |

asyncio is cooperative, so on the Python side a step is the code between two awaits. On the Go side the
atomic steps are: a poll's guards; the Lotus reply with its sector queries; the decision with its
application; a monitor's end; a win with its generation; and a timer's firing. Lotus replies, proof
detection, wins, load outcomes, drain outcomes and the clock are inputs of the steps.

## Where the code and its documentation part

The model follows the code. For each of these the project has a run or an input that shows it, and the exact
condition under which the documented behaviour does hold.

- A win is said to be protected from the WindowPoSt path (`scheduler.go:668-672`), but the fail-safe at
  `scheduler.go:183` is unguarded: `FailSafeOverwritesAWin`; `OwnershipKept`, `WhatEndsAWin`.
- The sector cache is said to be refreshed when stale (`scheduler.go:334-348`), but from `checkWindowPost` it
  never is: `RefreshIsNeverStale` and `CachedEntriesStay`, for all inputs, and `OldEntryHidesADeadline`. A
  missing entry counts as "no sectors", which is harmless exactly for entries other than the nearest one:
  `LookAheadNeedsTheEntry`; for any cache, `LookAheadFinds`.
- The GPU is said to be yielded ahead of a deadline, but nobody looks past a current deadline that has sectors:
  `NoLookAheadPastASectorDeadline`; `DirectPollNeedsTheRecord`, `DirectPollSafeIff`.
- A recorded proof is said to be a completed one (`scheduler.go:423-424`), but a monitor that times out records
  its deadline too: `TimeoutRecordsAnUnprovedDeadline`; `RecordsAreProofsKept`.
- The last command is not always the one that takes effect. A resume can be lost, to a load that will unload
  or to a drain: `ResumeIsLost`, `ResumeIsLostToADrain`; `LastResumeWins`. So can a pause: `PauseIsLost`;
  `LastPauseWins`, and among overlapping pauses `ReturnedPauseSinks`. While the listener gives up on no pause
  none can be lost: `StartIsInTurn`, `PatientListenerYields`. The resume still can, for good:
  `ResumeIsLostForGood`; `ResumeTakesEffect` says when it cannot.
- A pause that failed is said to be retried, so that none is dropped (`listener.py:183-186`); but one that only
  took too long goes on, and if the scheduler is back at the state remembered before it, nothing is sent, so
  that the engines stay PAUSED: `SlowYieldIsForgotten`. What a remembered yield state means all the same:
  `MiningAlwaysWins`.
- The countdowns are exact only for thresholds in order: `OutOfOrderIsWrong`; `CountdownsExactIff`; and those
  served only for deadlines not recorded: `ServedCountdownIsExact`. With a negative hard stop even the severity
  is not monotone: `SeverityIsMonotone`.
- The session table is said to be bounded by 4096 entries (`engine_pool.py:306`), but only expired entries are
  dropped: `TableHasNoBound`; `TableBoundKept`.
- Cache hits are said never to exceed the prompt (`engine.py:63-65`), but the cap is not applied to an empty
  one: `MoreHitsThanPrompt`; `CachedTokens`.
- The payload is injective on valid Unicode only: `SurrogatesCollide`; `EqualPayloads`.

## Model

| member | source | states |
|---|---|---|
| Composition.MiningAlwaysWins | src/py-inference/src/scheduler_client/listener.py:173-242 | End to end, for any N engines and any interleaving of polls, commands, loads, drains and requests, also when the listener gives up on pauses and later commands overtake them: in every run in which no pause is lost, whenever `_last_state` is a yield state, no resume is on its way, `_pause_requested` is set, and every engine sinks: it is not RUNNING, a load on it is bound to unload, and an unload has no resume pending behind it. |
| Composition.PatientListenerYields | src/py-inference/src/scheduler_client/listener.py:173-242 | While the listener gives up on no pause, no pause is ever lost, and a remembered yield state means more: no engine is RUNNING or UNLOADING, an engine in a load is bound to unload again, and an engine with no load is PAUSED (STOPPED if its first load failed) with no vLLM object. |
| Composition.NextKeepsSysInv | src/py-inference/src/scheduler_client/listener.py:208-242 | Every step of listener thread, main loop and engines that loses no pause keeps the invariant behind that: the pause the listener waits for is the last command given, is on its way or has made its engine sink on every engine, or is done. |
| Composition.StartIsInTurn | src/py-inference/src/scheduler_client/listener.py:214-237 | The discipline itself: while the listener gives up on no pause, every command the main loop starts finds no pause in progress. |
| SentPauses.PauseCarriesUrgency | src/py-inference/src/scheduler_client/listener.py:225-236 | Which urgency reaches the engines: in any run, whatever is queued and overlaps, when a poll sends a pause and later that very pause gets the lock of a RUNNING engine, the engine is UNLOADING by the end of that section if and only if the answer was WINDOW_POST or WINNING_POST, or the pause is the fail-safe's; and it keeps running what it has in flight, closed to new requests, if and only if the answer was YIELDING. |
| SentPauses.SentPauseStopsLoops | src/py-inference/src/scheduler_client/listener.py:219-223 | From the poll that sends a pause on, also before the main loop has started it, and until the main loop starts a resume: no engine gets a new `resume()` coroutine, and every resume loop ends at its next iteration with the engines as they are. |
| EngineOverlap.ReturnedPauseSinks | src/py-inference/src/inference/engine.py:497-548 | Exact condition, whatever other pauses are on the engine: when a pause returns the engine sinks if and only if the pause did not get the lock while the engine was UNLOADING with a resume pending. |
| EngineOverlap.HeldPauseSinks | src/py-inference/src/inference/engine.py:497-548 | A pause called on an engine in any state, with any other pauses, loads, unloads and waiting resumes on it: if it is not lost and `resume()` is not called meanwhile, the engine sinks by the time it returns, and goes on sinking. |
| LostResume.ResumeIsLostForGood | src/py-inference/src/scheduler_client/listener.py:176-217 | A run of listener and pool: AVAILABLE, WINDOW_POST during the load, AVAILABLE again before its end. It comes to rest with the engine PAUSED, no pause asked for and AVAILABLE remembered, and no later AVAILABLE poll tries a resume again. |
| LostResume.SlowYieldIsForgotten | src/py-inference/src/scheduler_client/listener.py:176-242 | A run of listener and pool: a yield whose pause takes too long, then AVAILABLE for ever. The pause takes effect later, the listener has remembered AVAILABLE throughout and sends nothing, and the engine ends PAUSED with `_pause_requested` set. |
| PoolSafety.PoolYieldSafety | src/py-inference/src/inference/engine_pool.py:94-135 | With commands given in turn, after any run up to a completed `pause()` and any further run without a new `resume()`, every engine has given up the GPU: none RUNNING, loads in flight bound to unload, engines without a load PAUSED (or STOPPED) and without a vLLM object. Holds when the pause lands between two engines of a resume loop and with several resume loops alive. |
| PoolSafety.NextKeepsPoolInv | src/py-inference/src/inference/engine_pool.py:103-135 | The pool invariant over every command given in turn and every other step: every `resume()` waiting for an engine's lock got there before the pause, and the pause has reached the stage its state says. |
| PoolSafety.RunKeepsYielded | src/py-inference/src/inference/engine_pool.py:126-130 | A yielded pool stays yielded over any run without `resume()`, overlapping pauses included; the loops that are still alive stop at their next check of `_pause_requested`. |
| PoolSafety.RequestStopsLoops | src/py-inference/src/inference/engine_pool.py:94-101 | What `request_pause()` achieves at once: over any run without `resume()` no engine gets a new `resume()` coroutine, no loop goes on to another engine, and every loop still alive ends at its next iteration, with the engines as they are. |
| PoolSafety.ResumeFindsNoUnload | src/py-inference/src/inference/engine.py:552-558 | With commands given in turn no `resume()` that gets the lock ever finds the engine UNLOADING, so no pause is answered by a reload. |
| PoolSafety.SoftYieldDrains | src/py-inference/src/inference/engine.py:512-534 | With commands given in turn a NORMAL pause whose drain does not time out leaves RUNNING with zero active requests, and `_destroy_engine` then finds no request to abort. |
| PoolResume.ResumeBringsAllBack | src/py-inference/src/inference/engine_pool.py:110-132 | A `resume()` of a pool at rest that no command disturbs has at most one engine loading at any time, in any interleaving and whichever load attempts fail, and once it has returned every engine is available. |
| PoolResume.ResumeTakesEffect | src/py-inference/src/inference/engine_pool.py:110-132 | When `resume()` does take effect: in any run, with no pause on its way on any engine, no load bound to unload and no engine STOPPED, other resume loops included, and whichever load attempts fail; once it has returned, with no command in between, every engine is RUNNING or in a load that will come up, unless a load on it is given up; and with nothing left to do on it it is available, or STOPPED after its first load. |
| PoolResume.RunKeepsReady | src/py-inference/src/inference/engine_pool.py:125-132 | Over every run no engine is closed to requests but to a pause, and no resume loop ever finds its own coroutine on the engine it goes on to. |
| EngineLifecycle.NextKeepsInv | src/py-inference/src/inference/engine.py:393-574 | Every step of every coroutine, in any interleaving, keeps the lifecycle invariant (lock queue, one loader, one unloader, fields in agreement with both). |
| EngineLifecycle.Lifecycle | src/py-inference/src/inference/engine.py:393-574 | In every run: at most one loader and one unloader; LOADING or STARTING exactly while there is a loader, UNLOADING exactly while there is an unloader; RUNNING has a vLLM object, PAUSED and STOPPED have none; pending flags only in the states that consume them; `_active_requests` is exactly the number of request bodies and the in-flight ids are among them, none without a vLLM object; no fourth attempt. |
| EngineLifecycle.RunningServes | src/py-inference/src/inference/engine.py:518-537 | No engine stays closed: a RUNNING engine accepts requests unless a soft yield is on its way through it. |
| EngineLifecycle.InflightIsExact | src/py-inference/src/inference/engine.py:248-262 | A step keeps "the in-flight ids are exactly the request bodies" if and only if it does not drop the vLLM object while there are request bodies. |
| EngineRetries.FailedAttemptIsRetried | src/py-inference/src/inference/engine.py:429-443 | Exact condition: with no pause on its way, a failed creation leaves the engine on its way up if and only if it was a reload's first or second attempt, and then the next attempt waits for the VRAM. |
| EngineRetries.ReloadSurvivesTwoFailures | src/py-inference/src/inference/engine.py:393-456 | Over any run of a reload that nobody pauses, started by `resume()` or by an unload with a resume pending: it is given up if and only if its creation has failed three times; until then the engine is on its way up, and RUNNING once nothing is left to do on it. |
| EngineProgress.CoroutinesGoOn | src/py-inference/src/inference/engine.py:393-574 | No deadlock and no livelock: in every run a coroutine on the engine can go on, or waits for the lock behind one that can, and it takes at most 16 steps before it has returned (or waits for the process to end), with its drain, unload, all attempts of a reload and a second unload. |
| EngineCommands.PauseDuringLoadIsHonoured | src/py-inference/src/inference/engine.py:415-427 | A pause that gets the lock during STARTING or LOADING makes that load end PAUSED (STOPPED if a first load fails) without ever being RUNNING, through all attempts and whatever else is called. |
| EngineCommands.NextKeepsDoomedLoad | src/py-inference/src/inference/engine.py:429-456 | One step of such a load, retries and failures included, leaves it doomed or ends it with no vLLM object. |
| EngineCommands.LastPauseWins | src/py-inference/src/inference/engine.py:507-508 | "The last command wins" is false for `pause()`; exact condition: with no other command but draining soft yields, whichever load attempts fail, the engine comes to rest without its vLLM object if and only if the pause did not find it UNLOADING with a resume pending. |
| LostCommands.PauseIsLost | src/py-inference/src/inference/engine.py:499-548 | A run from the start of an engine, every step as prompt as asyncio makes it and no load failing, whose last command is an IMMEDIATE pause and which comes to rest RUNNING: the input for which the last pause does not win. |
| EngineCommands.LastResumeWins | src/py-inference/src/inference/engine.py:552-572 | "The last command wins" is false for `resume()`; exact condition: with no other command but draining soft yields, whichever load attempts fail, the engine comes to rest RUNNING if and only if the resume found neither a load bound to unload, nor a soft yield draining, nor a STOPPED engine, and no first load still under way fails (none can once the first load is over). |
| EngineCommands.ResumeIsLost | src/py-inference/src/inference/engine.py:568-569 | Concrete run: a resume called after a pause, while the load is still going on, is dropped, and the engine comes to rest PAUSED. |
| LostCommands.ResumeIsLostToADrain | src/py-inference/src/inference/engine.py:512-530 | A prompt run without failures whose last command is a resume that finds the engine RUNNING while a soft yield drains; it comes to rest PAUSED. |
| LostCommands.StaleDrainUnloads | src/py-inference/src/inference/engine.py:523-530 | A prompt run whose last command, a resume, does bring the engine to RUNNING, and which comes to rest PAUSED: the soft yield that an immediate pause had overtaken then unloads it. |
| EngineCommands.NextKeepsSettled | src/py-inference/src/inference/engine.py:497-574 | An engine that has given up the GPU stays so over every step but a new `resume()`. |
| EnginePoolObject.EnginePool.Pause | src/py-inference/src/inference/engine_pool.py:103-108 | Sets the flag and starts a pause on every engine: the loop over the engines refines the one pool step. |
| EnginePoolObject.EnginePool.ExpirePins | src/py-inference/src/inference/engine_pool.py:306-308 | The loops delete exactly the first 512 expired keys in the dict's order, or all if fewer, from a table over its bound. |
| EnginePoolObject.EnginePool.PickEngine | src/py-inference/src/inference/engine_pool.py:275-309 | The whole pick: the engine, the counter and the session table with its order are those of the specification the routing results are proved about. |
| Routing.PickIsAvailable | src/py-inference/src/inference/engine_pool.py:282-309 | A pick fails if and only if no engine is available, and otherwise gives an available one. |
| Routing.LoadsStayWithinSlack | src/py-inference/src/inference/engine_pool.py:287-302 | Under least_busy with affinity, over any sequence of picks without completions, available loads never spread by more than slack + 1. |
| Routing.SessionSticks | src/py-inference/src/inference/engine_pool.py:278-305 | Whatever other sessions do in between, and whatever completes or becomes unavailable, a session's next request within the TTL goes to its last engine if that is then available and within the slack, and under least_busy only then. |
| Routing.StickingOnlyRenews | src/py-inference/src/inference/engine_pool.py:278-290 | A session that goes back to its engine only has its pin renewed: the counter, the other sessions and their order stay, expired or not. |
| Routing.LeastBusyPicks | src/py-inference/src/inference/engine_pool.py:278-298 | Exactly where a request goes under least_busy: to its session's engine if the pin has not run out and that engine is available and within the slack, and else to the first of the least busy available engines. |
| Routing.RoundRobinPicks | src/py-inference/src/inference/engine_pool.py:278-302 | The same under round_robin: else to the available engine with as many available ones before it as the counter says, around them; the counter moves only then, by one. |
| Routing.RoundRobinIsFair | src/py-inference/src/inference/engine_pool.py:300-302 | Under round_robin without sessions, from any counter and after any number of picks, pick counts of two available engines differ by at most one. |
| Routing.ExpiryIsInvisible | src/py-inference/src/inference/engine_pool.py:304-308 | Dropping expired sessions never changes where any later request goes, for any loads and availability the requests find. |
| Routing.TableBoundKept | src/py-inference/src/inference/engine_pool.py:304-308 | Exact condition: a pick keeps the table within 4096 sessions if and only if it does not store a new session in a full table without an expired entry. |
| Routing.TableHasNoBound | src/py-inference/src/inference/engine_pool.py:304-308 | For every n, a run of n sessions within one TTL makes the table n entries long. |
| Sessions.ExpireSize | src/py-inference/src/inference/engine_pool.py:306-308 | A table over its bound loses as many entries as are expired, at most 512. |
| Sessions.OldestExpireFirst | src/py-inference/src/inference/engine_pool.py:306-308 | What a table over its bound loses is a first part, by insertion, of what is expired, and what stays keeps its order. |
| Sessions.PutKeepsAge | src/py-inference/src/inference/engine_pool.py:304-305 | A new key is the youngest, and a key stored again keeps its age. |
| ListenerHistory.CommandHistory | src/py-inference/src/scheduler_client/listener.py:113-242 | Over every run: `_last_state` is a yield state only while the last of the resumes sent and the pauses whose success the listener saw is the pause for it (so no resume since), AVAILABLE only while it is a resume; `_failsafe_triggered` only while disconnected with `_last_state` WINDOW_POST; and `_disconnect_since` is set exactly while disconnected. |
| ListenerHistory.FailedPauseIsRetried | src/py-inference/src/scheduler_client/listener.py:176-191 | For any sequence of yield answers, escalating or not, and from every reachable listener: a poll sends nothing if the last pause that succeeded was for exactly its answer, and else tries the pause for its answer. |
| ListenerHistory.FailedResumeIsRetried | src/py-inference/src/scheduler_client/listener.py:163-191 | While AVAILABLE is answered one resume is sent, unless AVAILABLE was remembered, then one more after each resume that ended with an error, and none besides. |
| ListenerHistory.UnknownAnswerIsIgnored | src/py-inference/src/scheduler_client/listener.py:243-245 | An answer that is none of the four states commands nothing and is never remembered. |
| ListenerHistory.FailSafeIsRetried | src/py-inference/src/scheduler_client/listener.py:118-140 | Every outage of every run, counted from its first failed poll: a poll sends the fail-safe pause if and only if 60 seconds have passed and no such pause has succeeded in this outage. |
| SchedulerListenerObject.SchedulerListener.Poll | src/py-inference/src/scheduler_client/listener.py:113-191 | The whole poll refines the listener's step, for every reply, reconnect and reaped resume. |
| Subprocess.NextKeepsInv | src/py-inference/src/inference/engine.py:193-216 | Every step keeps each engine's recorded pids within what it spawned, and the spawned sets apart. |
| Subprocess.KillsOnlyItsOwn | src/py-inference/src/inference/engine.py:186-298 | Over every interleaving of creates, failed creates, exits and destroys: the `_child_pids` of two engines are disjoint and of their own spawning, so a destroy never kills another engine's core. |
| Subprocess.CreationRecordsItsChildren | src/py-inference/src/inference/engine.py:193-216 | A successful creation records exactly the living children it spawned, whatever the other engines did meanwhile and whatever failed creations left behind. |
| Subprocess.DestroyKillsItsChildren | src/py-inference/src/inference/engine.py:270-298 | So the next destruction of the engine, whenever it comes, leaves no child of that creation alive. |
| Subprocess.DestructionClears | src/py-inference/src/inference/engine.py:297-298 | A destroyed engine kills nobody, over any run, until a creation of it succeeds. |
| Subprocess.KillsRun | src/py-inference/src/inference/engine.py:287-295 | The await-free kill loop is the same as its kills one at a time, in any order. |
| CoreProcessesObject.Parent.KillStragglers | src/py-inference/src/inference/engine.py:287-295 | The loop kills exactly the pids of the copy. |
| SchedulerSafety.MonitorExclusion | src/go-scheduler/internal/scheduler/scheduler.go:156-166 | In every run at most one proof monitor is outstanding, `proofMonitorActive` is true exactly while one is, and then the state is WINDOW_POST or WINNING_POST. |
| SchedulerSafety.WinningOwnership | src/go-scheduler/internal/scheduler/scheduler.go:588-712 | Over every run in which no fail-safe is written during a win, WINNING_POST holds if and only if the timer of the current generation is live. |
| SchedulerSafety.OwnershipKept | src/go-scheduler/internal/scheduler/scheduler.go:174-186 | Exact condition: a step keeps that equivalence if and only if it is not the unguarded fail-safe write during a win. |
| SchedulerSafety.WhatEndsAWin | src/go-scheduler/internal/scheduler/scheduler.go:607-643 | A step ends a win window if and only if it is the win's own timer with no proof under way, or the fail-safe: stale timers, polls and monitors never do. |
| SchedulerSafety.WinWindowHolds | src/go-scheduler/internal/scheduler/scheduler.go:588-712 | From a win on the state stays WINNING_POST over any run until the latest win's timer fires (or the fail-safe is written). |
| SchedulerSafety.NoPollBeginsInAWin | src/go-scheduler/internal/scheduler/scheduler.go:156-166 | Only a poll already under way can let the fail-safe overwrite a win: from a win that no poll is waiting across no poll begins, and WINNING_POST holds over any run until the latest win's timer fires. |
| SchedulerSafety.WinIsResumed | src/go-scheduler/internal/scheduler/scheduler.go:624-642 | No resume is lost: from every reachable win window the monitor's end and then the live timer make the GPU AVAILABLE. |
| SchedulerSafety.WhatEndsATimer | src/go-scheduler/internal/scheduler/scheduler.go:611-643 | A resume timer ends if and only if it fires, and not when a proof under way re-arms it. |
| SchedulerSafety.FailSafeOverwritesAWin | src/go-scheduler/internal/scheduler/scheduler.go:174-184 | Concrete run: a Lotus error landing after a win turns WINNING_POST into WINDOW_POST while the win's timer is live. |
| SchedulerSafety.WindowOwnershipKept | src/go-scheduler/internal/scheduler/scheduler.go:282-291 | With proof detection, exact condition: a step keeps "WINDOW_POST only while a proof monitor is outstanding" if and only if it is not a fail-safe write. |
| SchedulerSafety.WindowOwnership | src/go-scheduler/internal/scheduler/scheduler.go:282-291 | So over every run in which no fail-safe is written WINDOW_POST always has a monitor that will end it. |
| SchedulerSafety.DecisionLaunches | src/go-scheduler/internal/scheduler/scheduler.go:282-291 | Exactly when a monitor is launched, under a win too: after a poll's decision about a deadline the one monitor is that deadline's if proof detection is on, its proof is due and not recorded, and the state was not WINDOW_POST; otherwise there is none. |
| SchedulerSafety.DueProofKeepsTheGpu | src/go-scheduler/internal/scheduler/scheduler.go:282-301 | A due proof keeps the GPU: in every run, from a decision about an unrecorded deadline in or close to its window, whatever wins come and go, nothing but the end of that deadline's own monitor lets the GPU be AVAILABLE. |
| SchedulerSafety.NeverStuck | src/go-scheduler/internal/scheduler/scheduler.go:156-166 | Over every run, between polls, the next poll passes its guards, or a monitor is outstanding whose end makes the GPU AVAILABLE unless a win owns it, or the current win's live timer makes it AVAILABLE. |
| SchedulerSafety.RecordsAreProofsKept | src/go-scheduler/internal/scheduler/scheduler.go:408-425 | Exact condition: a step keeps "every recorded deadline had its proof detected" if and only if it is not the undetected end of a monitor for a deadline never detected. |
| SchedulerSafety.RecordedMeansDetected | src/go-scheduler/internal/scheduler/scheduler.go:408-425 | So over every run without such an end a recorded deadline is a proved one. |
| SchedulerSafety.TimeoutRecordsAnUnprovedDeadline | src/go-scheduler/internal/scheduler/scheduler.go:417-425 | A run, for any open deadline with sectors: its monitor times out, and it is recorded with no proof detected. |
| SchedulerSafety.NextKeepsInv | src/go-scheduler/internal/scheduler/scheduler.go:156-301 | Every step of every goroutine keeps the control invariant, including a poll that was overtaken by a win. |
| SchedulerSafety.CompletedIsBounded | src/go-scheduler/internal/scheduler/scheduler.go:446-458 | At most 129 proofs are remembered. |
| SchedulerObject.StateMachine.TransitionUnless | src/go-scheduler/internal/scheduler/state.go:85-99 | Moves unless the current state is among the blocked ones; true if and only if it moved. |
| SchedulerObject.Scheduler.BroadcastEvent | src/go-scheduler/internal/scheduler/scheduler.go:714-733 | Every subscriber, and only they, is offered the event; a full channel drops it. The loop over the channels refines one map update. |
| SchedulerObject.Scheduler.RefreshFullSectorCache | src/go-scheduler/internal/scheduler/scheduler.go:336-396 | The loop over all deadlines leaves the specified cache, whichever queries fail. |
| SchedulerObject.Scheduler.FindNextSectorDeadline | src/go-scheduler/internal/scheduler/scheduler.go:305-322 | The loop finds what the search specification finds. |
| LookAhead.SearchIsLeast | src/go-scheduler/internal/scheduler/scheduler.go:314-321 | The search gives the deadline at the least cyclic distance with sectors; nothing if and only if there is none. |
| LookAhead.OpenEpochByDistance | src/go-scheduler/internal/scheduler/scheduler.go:325-332 | The wrap formula: a deadline i windows ahead opens i windows after the current one. |
| LookAhead.LookAheadIsOptimal | src/go-scheduler/internal/scheduler/scheduler.go:303-332 | Search and wrap formula give the least opening epoch after the current window over all other deadlines cached with sectors and over all proving periods; nothing if and only if there is none. |
| LookAhead.LookAheadNeedsTheEntry | src/go-scheduler/internal/scheduler/scheduler.go:317-319 | Exact condition for a cache with missing entries: the truly nearest deadline is found if and only if its entry is there. |
| LookAhead.LookAheadFinds | src/go-scheduler/internal/scheduler/scheduler.go:314-321 | For any cache, right or wrong, complete or not: deadline t is found if and only if the cache gives it sectors and gives none to a nearer one. |
| LookAhead.SearchReach | src/go-scheduler/internal/scheduler/scheduler.go:305-322 | The search finds any other deadline of the period if that alone has sectors, and nothing else; the period has 48 deadlines when the report does not say. |
| ProofKeys.VirtualKeyIsChainKey | src/go-scheduler/internal/scheduler/scheduler.go:213-233 | The (PeriodStart, Index) built for a coming deadline is what the chain reports at every epoch of its window, across the period wrap. |
| ProofKeys.DeadlineAtIsUnique | src/go-scheduler/internal/lotus/types.go:5-18 | The chain's report at an epoch is the only one of its shape on its grid. |
| ProofKeys.LookAheadIsStable | src/go-scheduler/internal/scheduler/scheduler.go:188-233 | Until the target opens, the look-ahead over one set of sector counts finds the same target, opening epoch and proof key at every later epoch. |
| YieldGuarantee.PollsKeepTheirTarget | src/go-scheduler/internal/scheduler/scheduler.go:188-233 | Successive look-ahead polls, each with its own cache that agrees with Lotus and all queries answered, decide about the same deadline, opening epoch and proof key until it opens. |
| Policy.SeverityIsMonotone | src/go-scheduler/internal/scheduler/policy.go:46-92 | Severity never decreases as the epoch advances, for any deadline, if and only if the hard-stop threshold is not negative. |
| Policy.CountdownsExactIff | src/go-scheduler/internal/scheduler/policy.go:60-92 | AVAILABLE and YIELDING countdowns name exactly the first epoch at which the decision changes, for all deadlines and epochs, if and only if the hard-stop threshold is not negative and, in whole epochs, not above the graceful one. |
| Policy.OutOfOrderIsWrong | src/go-scheduler/internal/scheduler/policy.go:60-92 | A deadline and an epoch with a wrong countdown for every policy outside it. |
| Policy.OpenCountdownIsExact | src/go-scheduler/internal/scheduler/policy.go:49-58 | While the window is open, the countdown less the resume delay names its close; the countdowns are those of lines 24-44 of internal/lotus/types.go. |
| Policy.HardStopCountdownIsExact | src/go-scheduler/internal/scheduler/policy.go:60-72 | Inside the hard-stop threshold the countdown of WINDOW_POST names the opening epoch. |
| YieldGuarantee.AvailableMeansSafe | src/go-scheduler/internal/scheduler/scheduler.go:188-291 | If what Lotus answers is true, the truly nearest deadline with sectors has a cache entry after a look-ahead poll (other queries may fail), and the poll leaves the GPU AVAILABLE, however it is interleaved before the decision, then that deadline is recorded, or none opens within the graceful threshold; and where every record is a detected one, its proof was detected. |
| YieldGuarantee.SafeMeansAvailable | src/go-scheduler/internal/scheduler/scheduler.go:188-291 | The converse, with a hard stop not above the graceful threshold: if the nearest deadline is recorded, or none opens within the threshold, the poll leaves the GPU AVAILABLE unless a win owns it. |
| YieldGuarantee.AnsweredMeansCached | src/go-scheduler/internal/scheduler/scheduler.go:336-396 | When every query is answered the nearest deadline always has its entry. |
| YieldGuarantee.ServedCountdownIsExact | src/go-scheduler/internal/scheduler/scheduler.go:674-698 | The countdown served with AVAILABLE or YIELDING after a poll about a deadline, with thresholds in order and also when the poll changed nothing, names exactly the first epoch at which a later poll changes the state if and only if that deadline is not recorded. |
| YieldGuarantee.RecordedProofIsRecognised | src/go-scheduler/internal/scheduler/scheduler.go:259-280 | A deadline seen ahead whose monitor has ended is recognised by every poll in its own window, after any run in which the records are not forgotten: the poll leaves the GPU AVAILABLE unless a win owns it. |
| YieldGuarantee.RecordIsForOneWindow | src/go-scheduler/internal/scheduler/scheduler.go:259-280 | A record counts for one window: with one proof recorded, a poll about its own open deadline leaves the GPU AVAILABLE if and only if it is in the window of that proof; the same deadline of another proving period is yielded for again. |
| YieldGuarantee.RecordKept | src/go-scheduler/internal/scheduler/scheduler.go:452-457 | Exact condition: a record survives a step unless the step is a monitor's end with more than 128 records, for another deadline. |
| YieldGuarantee.ExamineAgrees | src/go-scheduler/internal/scheduler/scheduler.go:336-396 | After a look-ahead poll whose queries are all answered the cache agrees with Lotus on every deadline. |
| YieldGuarantee.RefreshIsNeverStale | src/go-scheduler/internal/scheduler/scheduler.go:348 | The stale branch of the full refresh is never taken from `checkWindowPost`. |
| YieldGuarantee.CachedEntriesStay | src/go-scheduler/internal/scheduler/scheduler.go:362-371 | So a cached entry of another deadline is never queried again, at any age. |
| YieldGuarantee.CacheAges | src/go-scheduler/internal/scheduler/scheduler.go:466-498 | The cache's age over polls: the current deadline of a later poll, if cached, is asked about again if and only if more epochs than the interval (the configured one, else 2880) have passed since the last poll that was answered about its own deadline or filled up an incomplete cache. |
| YieldGuarantee.OldEntryHidesADeadline | src/go-scheduler/internal/scheduler/scheduler.go:472-497 | A run of two polls 60 epochs apart, for any refresh interval of at least 60: a deadline that got sectors in between is not asked about in its own open window, and the GPU is AVAILABLE with nothing recorded. |
| YieldGuarantee.PollTargetStays | src/go-scheduler/internal/scheduler/scheduler.go:235-254 | Nothing that runs between the reply and the decision touches the target or the cache. |
| YieldGuarantee.DirectPollNeedsTheRecord | src/go-scheduler/internal/scheduler/scheduler.go:188-192 | A poll about the open deadline itself leaves AVAILABLE if and only if that deadline is recorded and no win owns the GPU. |
| YieldGuarantee.OpenDeadlineIsYielded | src/go-scheduler/internal/scheduler/scheduler.go:188-192 | A whole poll in the open window of a deadline with sectors, also one whose sector query fails, leaves AVAILABLE if and only if the proof is recorded and no win owns the GPU. |
| YieldGuarantee.DirectPollSafeIff | src/go-scheduler/internal/scheduler/scheduler.go:188-192 | Exact condition: after such a poll the yield guarantee holds, whatever sectors the other deadlines have, if and only if the next deadline that is not recorded opens after the graceful threshold. |
| YieldGuarantee.DirectPollSafeUntilClose | src/go-scheduler/internal/scheduler/scheduler.go:188-192 | In particular, while the next deadline is not recorded: if and only if the current window closes after the graceful threshold. |
| YieldGuarantee.NoLookAheadPastASectorDeadline | src/go-scheduler/internal/scheduler/scheduler.go:188-192 | A run from the start in which it fails: the current deadline is polled, proved and polled again, and the GPU is AVAILABLE 150 s before the next deadline with sectors opens, with nothing recorded for it; that is inside the graceful threshold exactly if the threshold is 150 s or more. |
| EventLog.EventLogAgrees | src/go-scheduler/internal/scheduler/scheduler.go:648-733 | Over every run: the latest decision carries the current state; neighbouring broadcasts differ and the last is current; each channel holds at most 32 events, and what it holds plus what was taken is a subsequence of the broadcasts since it subscribed, all of them if and only if none was dropped. |
| EventLog.EveryChangeIsBroadcast | src/go-scheduler/internal/scheduler/scheduler.go:648-667 | Every step that changes the state, the first one included, broadcasts exactly the decision that is the latest from then on, to everyone subscribed with room for it; a step that does not change it broadcasts nothing. |
| EventLog.EveryDecisionAnnounces | src/go-scheduler/internal/scheduler/scheduler.go:588-596 | Over every run the decision served and every event broadcast carry the urgency and reason of their state, and a win its configured resume delay. |
| EventLog.OtherResumesNameNoChange | src/go-scheduler/internal/scheduler/scheduler.go:268-281 | When the GPU becomes AVAILABLE by anything but the policy, no next change is announced. |
| EventLog.LossNeedsAFullBuffer | src/go-scheduler/internal/scheduler/scheduler.go:726-732 | A channel drops an event if and only if a broadcast finds it full. |
| EventLog.SubscribersAreIndependent | src/go-scheduler/internal/scheduler/scheduler.go:723-732 | What a subscriber receives, and all else the scheduler does, is the same whether the others drain their channels, let them fill up or leave. |
| Receipt.PayloadRoundTrip | src/py-inference/src/inference/receipt.py:73-89 | A reader recovers all nine fields from the payload, for all integers and all valid-Unicode strings. |
| ReceiptObject.PayloadMembers | src/py-inference/src/inference/receipt.py:78-89 | A reader of JSON objects that knows nothing of the template finds in the payload an object of exactly ten members, each field under its own name, and `v` with 1; for all receipts. |
| ReceiptObject.ObjectRoundTrip | src/py-inference/src/inference/receipt.py:78-89 | Any object of plainly named members is read back member by member. |
| Receipt.PayloadIsInjective | src/py-inference/src/inference/receipt.py:73-89 | So two valid receipts with one payload are one receipt. |
| Receipt.EqualPayloads | src/py-inference/src/inference/receipt.py:73-89 | For all strings, lone surrogates included: two payloads are equal if and only if the integers are equal and the strings have equal UTF-16 code units. |
| Receipt.SurrogatesCollide | src/py-inference/src/inference/receipt.py:82 | Concrete pair of receipts outside valid Unicode with one payload. |
| Receipt.PayloadIsAscii | src/py-inference/src/inference/receipt.py:78-89 | The payload is printable ASCII for all inputs, so encoding it changes nothing. |
| Receipt.ParseRender | src/py-inference/src/inference/receipt.py:78-89 | Any fixed template whose later slots start with a comma is read back value by value. |
| Json.Utf16RoundTrip | src/py-inference/src/inference/receipt.py:82-87 | Encoding valid Unicode as UTF-16 code units loses nothing. |
| Json.UnitsRoundTrip | src/py-inference/src/inference/receipt.py:82-87 | The escaped code units are read back up to the closing quote, whatever follows. |
| Json.EscapeForm | src/py-inference/src/inference/receipt.py:82-87 | Which of the three forms of `json.dumps` each code unit takes: itself, a two-character escape, or four hexadecimal digits. |
| Json.IntRoundTrip | src/py-inference/src/inference/receipt.py:80-81 | Every integer is read back from its decimal text, whatever non-digit follows. |
| Streaming.GenerateStream | src/py-inference/src/inference/engine.py:813-856 | The loop over the outputs yields the specified chunks. |
| Streaming.SseGenerator | src/py-inference/src/inference/api_server.py:299-349 | The loop over the chunks sends the specified frames, receipt and error frame included. |
| Streaming.DeltasAddUp | src/py-inference/src/inference/engine.py:819-833 | The deltas of cumulative outputs concatenate to the last text, none is empty, none is final. |
| Streaming.StreamingEqualsBuffering | src/py-inference/src/inference/engine.py:710-856 | The stream delivers the text of the buffered path (also up to a break), no empty delta precedes the final chunk, and it ends with the buffered finish reason and usage exactly when the buffered path succeeds. |
| Streaming.ClientReadsTheText | src/py-inference/src/inference/api_server.py:303-349 | What the client reads off the events: the contents concatenate to the text generated so far, there is one finish event exactly when the generation completed, with "length" exactly if the core stopped at the limit and the counts of its last output, and an error exactly when it broke off. |
| Streaming.ReceiptsAgree | src/py-inference/src/inference/api_server.py:335-383 | The text and usage attested by the stream's receipt are those of the non-streaming path, and there is a receipt exactly when it was asked for and that path succeeds. |
| Streaming.CachedTokens | src/py-inference/src/inference/engine.py:60-78 | Exact condition: cache hits are at most the prompt tokens if and only if the prompt has tokens or no hits are reported; and hits reported within that bound are given unchanged. |
| Streaming.MoreHitsThanPrompt | src/py-inference/src/inference/engine.py:76-78 | The input outside it: with no prompt tokens, five reported hits are returned and attested. |

## Step methods

Each method below modifies its object in place and ensures that the new state is the one of the named step of
the specification the rows above are about.

- `SchedulerObject.StateMachine` (`internal/scheduler/state.go:34-99`): the constructor, `Transition`.
- `SchedulerObject.Scheduler` (`internal/scheduler/scheduler.go:76-756`): the constructor, `ApplyDecision`, `ApplyDecisionUnlessWinning`, `Subscribe`, `Unsubscribe`, `Receive`, `MarkProofCompleted`, `RecordMonitor`, `DeadlineHasNoSectors`, `BeginPoll`, `LotusFailed`, `LookAheadTarget`, `LotusReplied`, `EvaluateAndApply`, `FinishPoll`, `FinishMonitor`, `TriggerWinningYield`, `ResumeTimerFired`.
- `VllmEngineObject.VLLMEngine` (`inference/engine.py:248-574` and `710-866`): the constructors `StartPaused` and `Start`; for the lock `AcquireAs` and `ReleaseAs`; for `pause()` `CallPause`, `BeginPause`, `PauseSection`, `DrainEnded`, `DrainedSection`, `UnloadSection`, `DropEngine`, `FinishUnload`; for `resume()` and the loads `CallResume`, `ResumeSection`, `VramReleased`, `EngineCreated`, `CreateRaised`, `LoadedSection`, `FinishPausedLoad`, `FailedSection`; for requests `RequestBegins` and `RequestEnds`.
- `EnginePoolObject.EnginePool` (`inference/engine_pool.py:34-135` and `275-309`): the constructor, `RequestPause`, `PauseReturned`, `ResumeEngine`, `Resume`, `ResumeReturned`, `AvailableEngines`, `LeastBusyOf`, `PinnedEngine`, `BalancedEngine`, `RememberPin`, `ExpiredBatch`, `DeletePins`, `ChooseEngine`.
- `SchedulerListenerObject.SchedulerListener` (`scheduler_client/listener.py:62-249`): the constructor, `ApplyState`, `PollFailed`.
- `CoreProcessesObject.Core` and `Parent` (`inference/engine.py:168-298`): the constructors, `BeginCreate`, `Spawn`, `CreateSucceeded`, `CreateRaised`, `BeginDestroy`, `EndDestroy`.

## Left out

- SchedulerSafety.WinningOwnership: takes the scheduler's steps as atomic; the Go code holds no single lock across `applyDecision` and the generation bump, across a timer's checks and its resume, or across an `evaluateAndApply`, so interleavings inside a step are not modelled.
- EventLog.EventLogAgrees: the same atomic steps; in the code a win that lands between the two checks of `applyDecisionUnlessWinning` can leave a stale latest decision until the win's resume, as the comment at `scheduler.go:691-694` says.
- SchedulerSafety.MonitorExclusion: the same atomic steps, and one poll goroutine (`Run` starts only one).
- PoolSafety.PoolYieldSafety: about runs with no `EngineDeadError`, `stop()` or `switch_model`, in which each pause finishes before the next command (what overlapping ones achieve is `EngineOverlap` and `PoolOverlap`); dead-core recovery and `switch_model` reload engines by themselves, so they break "paused until resumed".
- Composition.MiningAlwaysWins: pauses may take too long but do not raise, and no pause is lost; the condition is exact for one pause on one engine (`ReturnedPauseSinks`), `PauseIsLost` is a run with a lost one, and whether the listener's own commands can line up like that is not decided. That a pause finishes is claimed per engine only, in steps and not in time: `EngineProgress.CoroutinesGoOn`.
- EngineCommands.LastPauseWins: no other command on the engine but soft yields that drain while it is RUNNING; a soft yield that an immediate pause has overtaken decides by its timing, as `StaleDrainUnloads` shows.
- EngineCommands.LastResumeWins: the same.
- PoolSafety.SoftYieldDrains: commands in turn, so that no IMMEDIATE pause overlaps the drain; a drain that times out aborts the rest, as the code says.
- LostCommands.PauseIsLost: the reload in it finds the VRAM free at its first query, so it asks for the lock without a wait.
- YieldGuarantee.AvailableMeansSafe: true cache entries and answers, and an entry for the nearest deadline with sectors; what a missing entry does is `LookAheadNeedsTheEntry`, what an old one does `OldEntryHidesADeadline`.
- Subprocess.KillsOnlyItsOwn: pids are never reused, only engine creation spawns children, and listing the children does not raise.
- Streaming.StreamingEqualsBuffering: for cumulative outputs, as vLLM gives them, and a consumer that takes every chunk; tokens and the text of vLLM's finish reason are reduced to counts and a flag.
- PoolResume.ResumeBringsAllBack: a load given up after its third attempt ends the process, so the `resume()` that awaits it does not return.
- PoolResume.ResumeTakesEffect: one direction; a load that is bound to unload when `resume()` is called may have ended before the loop gets to its engine, and `LastResumeWins` is the exact condition there.
- Routing.LoadsStayWithinSlack: availability is fixed and no request completes during the run; with completions no bound holds.
- VllmEngineObject.VLLMEngine.AcquireAs: asking for the lock and entering it are two steps even when nobody holds it, where asyncio would go on at once; so the model has more interleavings than the code; `LostCommands.PauseIsLost` is a run of the code all the same. The queue is FIFO, as asyncio's is.
- VllmEngineObject.VLLMEngine.DropEngine: `_destroy_engine` is taken not to raise.
- VllmEngineObject.VLLMEngine.FailedSection: the process exit after a failed reload is a coroutine that never returns.
- EnginePoolObject.EnginePool.PickEngine: an empty session key is no key; the clock is a parameter.
- SchedulerObject.Scheduler.RefreshFullSectorCache: integers are unbounded (epochs, deadline indexes of at most 48, counters), so 64-bit wrap-around is not modelled anywhere in the scheduler.
- The class-wide creation lock delays loads but is not part of the engine model; it is the subject of `Subprocess`.
- tensor_parallel mode: one engine without the resume loop, a special case of what is proved for N.
- `EvaluateWindowPost` of a missing deadline (`policy.go:29-44`), which the scheduler never asks for.
- `EvaluateWinningPost`, `status()` aggregation, decision messages, logging, the `onStateChange` callback and context cancellation: branch-only or without effect on the state.
- HTTP, gRPC, SQL and JSON-RPC clients, the log watcher, the FOC bridge, the model manager and the mock engine: I/O or external.
- sha256, ed25519 and base64: the properties are about the bytes that are signed.
