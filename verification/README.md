# CEC control daemon: verified model

A Dafny model of the daemon that drives an HDMI-CEC adapter on behalf of
local clients, with proofs about it. `dafny verify dfyconfig.toml` checks the
whole project.

## What is modelled

**Power and commands.** The main thread owns two decision machines, the
suspend/resume sequencer (`power_lifecycle.dfy`) and the reconnect machine
over its back-off schedule (`adapter_reconnect.dfy`, `backoff_schedule.dfy`),
and a supervisor that carries out their effects (`supervisor.dfy`). Effects
call back into the supervisor, at once or through two FIFOs: jobs for the
worker thread, which owns the adapter, and closures posted to the main thread.
`pipeline.dfy` puts the supervisor, the parked commands, the dispatcher, the
standby policy, both queues and the worker together as one transition system.
A step is one main-thread handler, one stage of a worker job, one adapter
callback, one bus signal or one timer expiry, so a run is any interleaving.
Adapter calls answer anything, a lost connection may be reported at any
moment, timers may fire late or stale, and every attempt to arm a timer may
fail. Proofs: what a handler moves between the queues (`pipeline_moves.dfy`),
what is in flight in each phase (`pipeline_shape.dfy`), the invariant
(`pipeline_invariant.dfy`, `pipeline_runs.dfy`), lock calls
(`pipeline_locks.dfy`), what becomes of each command received
(`pipeline_requests.dfy`), of each suspend and resume asked for and of the
safety timer (`pipeline_book.dfy`) and of everything else that comes in
(`pipeline_arrivals.dfy`), what replies and results say (`pipeline_truth.dfy`,
`pipeline_success.dfy`), reconnect attempts outstanding
(`pipeline_attempts.dfy`), how a lost adapter is seen to
(`pipeline_recovery.dfy`, `pipeline_recovery_runs.dfy`) and when it is not
(`pipeline_lost.dfy`, `pipeline_lost_runs.dfy`, concrete runs in
`pipeline_witness.dfy`), draining without timers (`pipeline_drain.dfy`) and
with the retry timer (`pipeline_timed.dfy`, `pipeline_timed_runs.dfy`), and
further guarantees for a reader (`pipeline_theorems.dfy`).

**The same code in place.** The classes `PowerLifecycle`, `AdapterReconnect`,
`BackoffSchedule`, `PowerSupervisor`, `AdapterLifecycle`, `SuspendQueue`,
`AdapterWorker`, `WorkerThread`, `CommandDispatcher`, `StandbyPolicy`,
`MainThreadWork`, `TimerSource` and `CECDaemon` change their fields step by
step as the source does. Each method is proved to do to the object what the
specification function does to the state, re-entrant calls included; the
theorems are about those functions. A callback that the source calls last in
a method is a returned value that the caller acts upon.

**Around it.** `main_thread_work.dfy` splits the closure queue into its
critical sections and system calls. `command_throttler.dfy` has the 32-bit
interval and back-off arithmetic and the compare-and-swap slot reservation for
any number of callers. `cec_hook_subsystem.dfy` has the debounced,
deduplicated script hooks. `sessions.dfy` and `socket_server.dfy` have the
client sessions and the event loop's masks; `end_to_end.dfy` joins them to the
pipeline, and `end_to_end_runs.dfy` shows that the joint system does nothing
its parts do not. `dispatch_validation.dfy` has the startup check of the dispatch
table.

## Where code and comments differ

The model follows the code.

- The comment at src/daemon/socket_server.cpp:32 says that a request in flight
  and a pending response exclude each other. They do not: after an answer they
  hold together exactly if the send blocked and the descriptor's mask could be
  changed (`Sessions.BlockedSendKeepsBoth`). What holds is that a pending
  response implies a request in flight.
- The comment at src/daemon/command_throttler.cpp:50-52 wants a failed command
  to count as one failure. It counts as its number of attempts less one, which
  is one exactly for two attempts (`Throttle.FailingCallCounts`).
- The exponential pause of a failing command is exact only up to 26 attempts;
  the product wraps from the 27th on (`Throttle.BackoffIsIdealExactlyUpTo26`).
- There can be two reconnect attempts at once. A resume requested while awake
  and during an attempt leaves that attempt outstanding with nobody waiting for
  it (`PipelineAttempts.CleanExactly`: only such a step does); the next attempt
  started through an open gate is then the second
  (`PipelineAttempts.SecondAttemptExactly`, an equivalence;
  `PipelineWitness.ResumeDuringAttemptDoublesIt`, a run), and the stale result
  is not absorbed but taken for the second's (`PipelineWitness.CutAttemptStrands`;
  compare the comment at src/daemon/power/adapter_reconnect.cpp:92-93). Once none
  is outstanding, or a suspend or a resume has finished, all is as at the start.
- The comment at src/daemon/power/adapter_reconnect.cpp:97-100 says that a loss
  reported during an attempt is addressed by that attempt. Not if the attempt
  has already reopened the adapter: the loss is absorbed, the attempt's success
  ends the cycle, and the adapter stays closed with nothing under way
  (`PipelineWitness.EarlyLossIsMissed`). A restart command that fails with
  nothing else under way is not followed up either
  (`PipelineWitness.FailedRestartIsMissed`). With no bus suspend or resume on
  the queue, exactly these two steps let a lost adapter slip
  (`PipelineRecovery.CoveredExactly` for a step,
  `PipelineLostRuns.ExactlyMissesStrand` for runs), and it then stays lost until
  another alert, a suspend or resume, or a restart that works
  (`PipelineLost.LostExactly`). Unless an attempt was cut, any other lost
  adapter is open again or given up when the daemon, left to itself and awake,
  comes to an end (`PipelineTimedRuns.AdapterComesBack`).
- The supervisor's timer handlers read the expiry count and ignore it, so a
  stale firing is acted upon like a live one.

## Model

| member | source | states |
|---|---|---|
| Wire.FindDispatchByType | src/daemon/command_dispatch.cpp:155-160 | the scan returns the first row of the table for a type, and nothing exactly when no row has it |
| Wire.TableClassifies | src/daemon/command_dispatch.cpp:109-151 | what the table says of each of the 13 message types: response codes have no row, only adapter calls may be parked, only the restart command runs on a closed adapter |
| DispatchValidation.ValidateDispatchTable | src/daemon/command_dispatch.cpp:162-227 | accepts a table exactly when every registered type has a row, every row is registered, no type has two rows, and exactly the adapter calls have handlers |
| DispatchValidation.DaemonTableIsConsistent | src/daemon/command_dispatch.cpp:109-151 | the daemon's own table passes the validation against the client-side registry |
| DispatchValidation.ConsistentScan | src/daemon/command_dispatch.cpp:155-160 | in a table that passes validation the scan for a type finds its only row, wherever it stands |
| Backoff.BackoffSchedule.NextDelay | src/common/backoff_schedule.h:55-60 | the delays handed out since the last reset are always an initial stretch of the schedule, with matching 1-based positions; nothing is handed out exactly when all have been |
| Backoff.BackoffSchedule.Reset | src/common/backoff_schedule.h:63 | rewinds to the start of the schedule |
| Reconnect.AdapterReconnect.OnEvent | src/daemon/power/adapter_reconnect.cpp:37-149 | every event in every state, carried out in place, is the machine's transition function |
| Reconnect.AdapterReconnect.SeedCycle | src/daemon/power/adapter_reconnect.cpp:18-35 | a seed starts a cycle at rest and is absorbed otherwise |
| Reconnect.AdapterReconnect.ResetCycle | src/daemon/power/adapter_reconnect.cpp:12-16 | back to rest with schedule and attempt number cleared |
| Reconnect.Transition | src/daemon/power/adapter_reconnect.cpp:37-149 | keeps the attempt number at schedule position + 1 while a cycle runs (so at most size + 1) and both at zero at rest |
| Reconnect.AttemptsAreCountedAndBounded | src/daemon/power/adapter_reconnect.cpp:18-147 | over every history of events and seeds and any schedule: between fresh starts the attempts are numbered 1, 2, 3, ... without gaps and never exceed the schedule's length + 1 |
| Reconnect.AbandonsExactlyWhenBudgetSpent | src/daemon/power/adapter_reconnect.cpp:74-88 | over every history: a failure abandons the cycle exactly when all length + 1 attempts have failed; by then the cycle has waited the whole schedule and, before it, the start-up delay for a loss found at rest, nothing for a loss found waiting, the seed's delay for a seed |
| Lifecycle.PowerLifecycle.CoalescesWithEffectiveTail | src/daemon/power/power_lifecycle.cpp:5-17 | true exactly when the request equals, in kind and source, the last pending one or else the active one |
| Lifecycle.PowerLifecycle.OnSuspendRequested | src/daemon/power/power_lifecycle.cpp:19-25 | appends the request unless it coalesces |
| Lifecycle.PowerLifecycle.OnResumeRequested | src/daemon/power/power_lifecycle.cpp:27-33 | appends the request unless it coalesces |
| Lifecycle.PowerLifecycle.PumpQueue | src/daemon/power/power_lifecycle.cpp:35-73 | starts the first pending request when idle, with exactly that request's effects |
| Lifecycle.PowerLifecycle.OnSuspendCompleted | src/daemon/power/power_lifecycle.cpp:75-94 | ends the suspend; releases the lock for D-Bus unless the safety timer already did |
| Lifecycle.PowerLifecycle.OnResumeCompleted | src/daemon/power/power_lifecycle.cpp:96-111 | ends the resume; takes the lock for D-Bus whether or not the adapter is back |
| Lifecycle.PowerLifecycle.OnSafetyTimerFired | src/daemon/power/power_lifecycle.cpp:113-121 | forces the release once per suspend; stale and repeated firings do nothing |
| Lifecycle.EveryHistoryAgrees | src/daemon/power/power_lifecycle.cpp:5-129 | over every history of requests, pumps, completions and firings, stale ones included: the requests started followed by the pending queue are exactly an append-only ledger that drops a request only when it repeats an unfinished last one, no two neighbours still to be finished are equal, requests finish in order; the lock effects are one Release per finished D-Bus suspend and one Take per finished D-Bus resume, in order, plus a forced Release under way, and none for the wire; a suspend is reported overrun exactly when the timer fired during it |
| Lifecycle.LockAtRest | src/daemon/power/power_lifecycle.cpp:47-129 | at rest, over every history, the lock is held exactly when the last finished D-Bus request was a resume |
| Timers.TimerSource.ArmOnce | src/common/timer_source.cpp:25-48 | a negative duration disarms and fails; any other, zero included, arms if the system call succeeds and changes nothing if it fails; arming again discards an unread expiry |
| Timers.TimerSource.Consume | src/common/timer_source.cpp:77-85 | reads and clears an expiry; 0 when there is none |
| Supervisor.SignalEffect | src/daemon/power/power_supervisor.cpp:216-267 | one event for the reconnect machine with everything it causes at once (synchronous results, arm failures fed back): the retry timer is pending exactly while the machine waits for it, a job is submitted exactly when an attempt started with the adapter closed but reachable, and the machine is left attempting only then or if the event was absorbed |
| Supervisor.SeedEffect | src/daemon/power/power_supervisor.cpp:59-73 | a seed at rest leaves the machine waiting if its timer can be armed, and at rest with one more cycle abandoned if not; it submits nothing, and in a running cycle it does nothing |
| Supervisor.PumpSettles | src/daemon/power/power_supervisor.cpp:113-214 | the mutually recursive executor, with completions delivered inside the calls that caused them, terminates and does what one scan of the pending queue says: skip the requests for the state already in force with their lock calls, start the first one that asks for the other state, leave the rest |
| Supervisor.PumpGuards | src/daemon/power/power_supervisor.cpp:161-167 | the executor tries to arm the safety timer once for each suspend it begins, those it passes over included; it ends with the timer armed if it leaves a suspend under way whose arming succeeded, and off otherwise |
| Supervisor.RequestEffect | src/daemon/power/power_supervisor.cpp:34-40 | a request joins the queue while another is being carried out; otherwise the scan runs from it at once |
| Supervisor.SuspendCompletedEffect | src/daemon/power/power_supervisor.cpp:42-57 | a finished suspend disarms the safety timer, releases the lock unless that was forced, and the scan goes on from there |
| Supervisor.ResumeCompletedEffect | src/daemon/power/power_supervisor.cpp:59-73 | a finished resume takes the lock and the scan goes on; a lost adapter leaves recovery waiting for its retry, or one more cycle abandoned when its timer cannot be armed |
| Supervisor.ResumeRevives | src/daemon/power/power_supervisor.cpp:59-73 | a finished resume that finds the adapter gone, or passes over another resume in the queue, leaves a cycle waiting or one more abandoned; with the adapter back and nothing pending recovery is untouched |
| Supervisor.SafetyEffect | src/daemon/power/power_supervisor.cpp:75-84 | a live firing forces the release once; a stale one changes nothing but the unread expiry |
| Supervisor.RetryEffect | src/daemon/power/power_supervisor.cpp:104-107 | whether the expiry is read makes no difference to what a retry firing does |
| PowerSupervisors.PowerSupervisor.Execute | src/daemon/power/power_supervisor.cpp:222-267 | each reconnect effect in place, re-entrant results included, is the specification's |
| PowerSupervisors.PowerSupervisor.SubmitReconnectAttempt | src/daemon/power/power_supervisor.cpp:216-220 | a gated or already connected attempt reports its result at once |
| PowerSupervisors.PowerSupervisor.ApplyLifecycle | src/daemon/power/power_supervisor.cpp:113-116 | effects, then the pump, then the effects of what the pump started; terminates by the pending queue |
| PowerSupervisors.PowerSupervisor.ExecuteEffects | src/daemon/power/power_supervisor.cpp:118-186 | the axes of an output in the order the code carries them out, adapter work last |
| PowerSupervisors.PowerSupervisor.PrepareEffects | src/daemon/power/power_supervisor.cpp:139-178 | disarm, notify, arm, lock: in that order |
| PowerSupervisors.PowerSupervisor.SubmitSuspendWork | src/daemon/power/power_supervisor.cpp:188-200 | hands a suspend to the worker or completes it at once |
| PowerSupervisors.PowerSupervisor.SubmitResumeWork | src/daemon/power/power_supervisor.cpp:202-214 | hands a resume to the worker or completes it at once as failed |
| PowerSupervisors.PowerSupervisor.ResumeDone | src/daemon/power/power_supervisor.cpp:209-213 | parked commands are submitted before the sequencer hears of the resume |
| PowerSupervisors.PowerSupervisor.OnSuspendCompleted | src/daemon/power/power_supervisor.cpp:42-57 | in place, with the re-entrant pump, equals the specification the effect lemmas describe |
| PowerSupervisors.PowerSupervisor.OnResumeCompleted | src/daemon/power/power_supervisor.cpp:59-73 | in place, with the re-entrant pump and the seed after it, equals the specification |
| PowerSupervisors.PowerSupervisor.OnSafetyTimerFired | src/daemon/power/power_supervisor.cpp:75-84 | in place, equals the specification; the expiry count is read and ignored |
| PowerSupervisors.PowerSupervisor.OnReconnectRetryTimerFired | src/daemon/power/power_supervisor.cpp:104-107 | in place, equals the specification; the expiry count is read and ignored |
| SuspendQueues.SuspendQueue.Push | src/daemon/power/suspend_queue.cpp:19-22 | appends only while suspended |
| SuspendQueues.SuspendQueue.Drain | src/daemon/power/suspend_queue.cpp:24-26 | hands back everything parked, in order, and leaves nothing |
| AdapterWorkers.AdapterWorker.Submit | src/daemon/cec/adapter_worker.cpp:45-53 | appends to the queue; drops silently after stop |
| AdapterWorkers.AdapterWorker.TakeJob | src/daemon/cec/adapter_worker.cpp:68-85 | takes the oldest job; after stop drops them all |
| AdapterWorkers.AdapterWorker.Stop | src/daemon/cec/adapter_worker.cpp:28-43 | drops pending jobs, closes and releases the adapter, once |
| AdapterWorkers.WorkerThread.StartReopening | src/daemon/cec/libcec_adapter.cpp:232-241 | a reopen closes the adapter first and leaves it closed until it is answered |
| AdapterWorkers.WorkerThread.Perform | src/daemon/adapter_lifecycle.cpp:62-147 | the adapter calls of each job: suspend closes, resume and reconnect reopen, commands pass the connection gate first; whether the adapter was open when the job was run is recorded |
| AdapterWorkers.WorkerThread.RunCommand | src/daemon/command_dispatcher.cpp:164-183 | a command fails without touching the adapter when the gate or its payload check refuses it; only the restart command changes the connection |
| AdapterWorkers.WorkerThread.Finish | src/daemon/adapter_lifecycle.cpp:73-77 | posts exactly the completion of the job that ran; replays and the startup scan post nothing |
| AdapterLifecycles.AdapterLifecycle.SuspendAsync | src/daemon/adapter_lifecycle.cpp:43-79 | completes at once exactly when shut down or already suspended; otherwise raises the flag and submits one job |
| AdapterLifecycles.AdapterLifecycle.ResumeAsync | src/daemon/adapter_lifecycle.cpp:81-117 | completes at once exactly when shut down or not suspended; otherwise submits one job |
| AdapterLifecycles.AdapterLifecycle.ReconnectAsync | src/daemon/adapter_lifecycle.cpp:119-152 | fails at once when shut down or suspended, succeeds at once when connected, otherwise submits one job |
| AdapterLifecycles.AdapterLifecycle.OnResumeWorkerComplete | src/daemon/adapter_lifecycle.cpp:154-177 | drains, then unsuspends; the drained commands come back in order to a working adapter and are discarded otherwise |
| AdapterLifecycles.AdapterLifecycle.Shutdown | src/daemon/adapter_lifecycle.cpp:18-29 | discards what is parked, once |
| StandbyPolicies.StandbyPolicy.Observe | src/daemon/standby_policy.cpp:23-45 | posts a suspend request exactly for a TV standby seen armed and enabled |
| StandbyPolicies.StandbyPolicy.Apply | src/daemon/standby_policy.cpp:14-21 | an empty payload is an error and changes nothing; otherwise the flag follows the first byte |
| CommandDispatchers.CommandDispatcher.Dispatch | src/daemon/command_dispatcher.cpp:40-98 | in place, every branch equals the specification: one reply at once, or the sink handed to a worker job |
| CommandDispatchers.CommandDispatcher.HandleSuspendedInline | src/daemon/command_dispatcher.cpp:120-145 | parks and acknowledges a queueable command, refuses any other, parking nothing |
| CommandDispatchers.CommandDispatcher.Replay | src/daemon/command_dispatcher.cpp:100-118 | submits every command it is given, in order, skipping none |
| CommandDispatchers.DispatchParksAdapterCalls | src/daemon/command_dispatcher.cpp:100-118 | only adapter calls are ever parked, so that no replay skips an entry |
| PipelineShape.ResumeFinishes | src/daemon/adapter_lifecycle.cpp:154-177 | one main-thread step resolves the parked commands, unsuspends and lets the sequencer start the next cycle behind the replays |
| PipelineRuns.NextKeeps | src/daemon/cec_daemon.cpp:511-595 | every one of the fourteen kinds of step, of every thread, keeps the whole invariant |
| PipelineTheorems.SuspendMeetsResume | src/daemon/adapter_lifecycle.cpp:43-152 | in every run the worker runs each resume right after a suspend, and after a suspend nothing but its resume: no command, replay or reconnect in between |
| PipelineTheorems.AdapterClosedWhileSuspended | src/daemon/adapter_lifecycle.cpp:43-152 | in every run the adapter is closed from the end of a suspend job to the start of the next job; once the suspend is acknowledged the worker is idle with an empty queue |
| PipelineTheorems.CommandsRunInArrivalOrder | src/daemon/power/power_supervisor.cpp:202-214 | in every run the commands run by the worker, live or replayed, come in arrival order, each at most once |
| PipelineRuns.AlwaysInv | src/daemon/cec_daemon.cpp:511-595 | the whole invariant holds of every state of every run, whatever the interleaving, the adapter's answers and the arm failures |
| PipelineTheorems.PhaseMatchesOutstanding | src/daemon/power/power_supervisor.cpp:113-214 | between handlers exactly one suspend job is outstanding while suspending, one resume job while resuming, neither while idle; idle leaves nothing pending; a phase other than idle means suspended |
| PipelineTheorems.ParkedCommandsAccountedFor | src/daemon/command_dispatcher.cpp:100-145 | everything acknowledged as queued is, in order and once, still parked, replayed or discarded; the replays the worker gets are exactly the replayed ones; awake means nothing parked |
| PipelineTheorems.ShutdownDiscardsTheRest | src/daemon/adapter_lifecycle.cpp:18-29 | a shutdown after any run shuts the sequencer's gate and leaves every acknowledged command replayed or discarded, in order and once |
| PipelineTheorems.RequestsAnsweredOnce | src/daemon/command_dispatcher.cpp:40-162 | in every run each request received has its sink invoked once or is in flight as one live command, never both, never twice |
| PipelineRequests.CommandOutcome | src/daemon/command_dispatcher.cpp:40-145 | a command other than suspend and resume, in any state, is submitted to the worker, parked and acknowledged, or told its response, by its type, its payload, whether the system is awake, whether commands are queued and whether the gate is open; nothing else changes |
| PipelineRequests.PowerCommandOutcome | src/daemon/cec_daemon.cpp:511-557 | a suspend or resume command goes to the sequencer as a request from the wire and is told success at once, whatever the state |
| PipelineRequests.RequestsAreDealtWith | src/daemon/command_dispatcher.cpp:40-145 | in every run, against a ledger of the commands received and the state each met: the live jobs ever submitted are exactly the adapter commands received awake and open, in order; the commands parked are exactly the parkable ones received asleep with queueing on, in order; every other one has been told the response its type, state and payload earn; the standby switch is as last set |
| PipelineTruth.RepliesAreTruthful | src/daemon/command_dispatcher.cpp:120-162 | in every run each finished command job has its result told or posted to its own sink, and every command acknowledged as queued has been told success |
| PipelineTruth.RepliesSayNothingElse | src/daemon/command_dispatcher.cpp:147-162 | in every run the reply to a command handed to the worker is its own job's result and nothing else |
| PipelineSuccess.ExecuteExactly | src/daemon/command_dispatcher.cpp:164-183 | a command's handler succeeds exactly when the adapter says so, the restart command aside on an open adapter and with the payload it needs |
| PipelineSuccess.JobsDo | src/daemon/adapter_lifecycle.cpp:62-147 | what each kind of job makes of the connection and what it comes to, for any answer of the adapter |
| PipelineSuccess.JobsReport | src/daemon/adapter_lifecycle.cpp:43-147 | what each kind of finished job posts back, with the result it came to |
| PipelineSuccess.SuccessMetAnOpenAdapter | src/daemon/command_dispatcher.cpp:147-183 | in every run each live or replayed command that came to success, the restart command aside, met an open adapter when its job was run, is an adapter command and had its payload |
| PipelineSuccess.ToldSuccessMetAnOpenAdapter | src/daemon/command_dispatcher.cpp:147-183 | in every run a client told success by its command's own job can rely on the same |
| PipelineTheorems.WaitsAreFounded | src/daemon/power/power_supervisor.cpp:216-267 | in every run an attempt under way has its result outstanding and the system awake, a wait has its timer armed or expired unread and nothing else has, the safety timer runs only while suspending |
| PipelineAttempts.AttemptsEvolve | src/daemon/power/power_supervisor.cpp:216-267 | the list of attempts outstanding after any step: one started through an open gate joins at the end, a result taken leaves from the front, nothing else changes it |
| PipelineAttempts.SecondAttemptExactly | src/daemon/power/power_supervisor.cpp:216-267 | a second attempt comes to be outstanding exactly when one is started through an open gate while another is outstanding that the machine no longer awaits |
| PipelineAttempts.CleanExactly | src/daemon/power/adapter_reconnect.cpp:90-95 | from a state whose one outstanding attempt is the awaited one, a step leads to another such state if and only if it is not a resume requested while awake during an attempt |
| PipelineAttempts.CutOrphans | src/daemon/power/adapter_reconnect.cpp:90-95 | such a resume leaves the attempt outstanding and not awaited, so the next attempt started through an open gate is the second |
| PipelineAttempts.DrainedIsClean | src/daemon/power/power_supervisor.cpp:86-102 | with no attempt outstanding the state is such a state again, whatever went before |
| PipelineAttempts.CompletionIsClean | src/daemon/adapter_lifecycle.cpp:43-117 | after any history a finished suspend or resume leaves no attempt outstanding |
| PipelineAttempts.AttemptsStaySingle | src/daemon/power/power_supervisor.cpp:216-267 | in every run from such a state (the first one, or any with none outstanding) in which no resume cuts an attempt there is never a second one, and a result taken while one is awaited is the awaited one's |
| PipelineWitness.ResumeDuringAttemptDoublesIt | src/daemon/power/power_lifecycle.cpp:66-73 | an eight-step run from the start, with the daemon's own delays, that ends with the first and the second attempt both in the worker's queue |
| PipelineRecovery.CoveredExactly | src/daemon/power/adapter_reconnect.cpp:37-149 | from a state in which a lost adapter is seen to (a queued bus suspend or resume counts), a step that gives no cycle up leads to another such state if and only if it is not one of two misses: with no bus request queued, an alert between an awaited attempt's reopening and its result, or a restart command that fails with nothing else under way |
| PipelineRecoveryRuns.QuietExactly | src/daemon/power/power_supervisor.cpp:216-267 | quiet, awake and with the adapter closed, being seen to means exactly that recovery waits and its timer is armed or expired unread |
| PipelineRecoveryRuns.LostAdapterIsRecovered | src/daemon/power/power_supervisor.cpp:86-111 | in every run without such a step, a cut or an abandoned cycle: whenever the daemon is quiet, awake and without an open adapter, recovery waits for its timer; the converse is PipelineLostRuns.ExactlyMissesStrand |
| PipelineRecoveryRuns.InitialCovered | src/daemon/cec_daemon.cpp:37-302 | every initial state qualifies, the adapter lost again before the event loop starts included |
| PipelineRecoveryRuns.SleepHeals | src/daemon/adapter_lifecycle.cpp:43-177 | in every run without an abandoned cycle, whatever was cut or missed before: a lost adapter is seen to throughout a suspend, and the resume that ends it leaves it seen to with no attempt outstanding |
| PipelineLost.LostExactly | src/daemon/power/adapter_reconnect.cpp:37-149 | a step that gives no cycle up leaves a lost adapter (awake, closed, not seen to) lost if and only if it is no rescue: another alert not as early as the first, a bus signal, a suspend or resume command, a restart command that opens the adapter |
| PipelineLostRuns.MissLoses | src/daemon/power/adapter_reconnect.cpp:97-100 | each of the two missing steps leads to a lost adapter, with no cycle given up |
| PipelineLostRuns.LostStaysLost | src/daemon/power/power_supervisor.cpp:216-267 | in every run without a rescue, whatever else happens, a lost adapter stays lost and no cycle is given up; whenever the daemon is quiet, recovery is at rest and no retry timer is running |
| PipelineLostRuns.ExactlyMissesStrand | src/daemon/power/adapter_reconnect.cpp:37-149 | after any undisturbed run from the start, one more step, and whatever follows without cut, miss, rescue or abandoned cycle: once the daemon is quiet and awake, the adapter is open or waited for if and only if that step was not one of the two |
| PipelineTimedRuns.OwnStepDecreases | src/daemon/power/power_supervisor.cpp:86-267 | every step the daemon takes by itself, expiry and firing of the retry timer included, lowers its fuel; attempts started and attempts still claimed do not grow together |
| PipelineTimedRuns.OwnRunsAreBounded | src/daemon/power/power_supervisor.cpp:86-267 | left to itself from any state, the daemon comes to an end within its fuel, starting at most the attempts it claims: what the cycle has left, and a whole budget for each loss, bus signal and request on the way |
| PipelineTimedRuns.ExhaustedRests | src/daemon/power/power_supervisor.cpp:86-267 | with no step of its own left the daemon is quiet, recovery at rest and the retry timer off |
| PipelineTimedRuns.AdapterComesBack | src/daemon/power/adapter_reconnect.cpp:37-149 | from a state in which a lost adapter is seen to, the daemon left to itself ends within those bounds, asleep, with the adapter open or with a cycle abandoned, unless an attempt was cut or a loss missed on the way |
| PipelineTimedRuns.WaitingAdapterIsSettled | src/daemon/power/adapter_reconnect.cpp:66-88 | quiet, awake, waiting for a retry and left to itself, the daemon ends after at most the attempts the schedule has left (its length plus one in all) and at most eight steps for each and one, awake, with the adapter open or the cycle abandoned |
| PipelineWitness.EarlyLossIsMissed | src/daemon/power/adapter_reconnect.cpp:97-100 | a twelve-step run from the start, with the daemon's own delays, that ends quiet and awake with the adapter closed, recovery at rest, no timer armed and no cycle abandoned: the loss was absorbed during an attempt that had already reopened the adapter |
| PipelineWitness.FailedRestartIsMissed | src/daemon/command_dispatcher.cpp:164-183 | a seven-step run from the start, of a failing restart command, that ends quiet and awake with the adapter closed, recovery at rest, no timer armed and no cycle abandoned |
| PipelineWitness.CutAttemptStrands | src/daemon/power/power_supervisor.cpp:86-95 | an eighteen-step run in which a cut attempt's success is taken for the next one's, which then fails unheeded: the adapter is left closed with recovery at rest |
| PipelineTheorems.MonitorCallsFollowRequests | src/daemon/power/power_supervisor.cpp:172-178 | in every run the calls made to the D-Bus monitor are those owed by the finished requests, in order, plus a forced release under way |
| PipelineBook.RequestsAreBegunInOrder | src/daemon/power/power_lifecycle.cpp:5-33 | in every run the requests begun followed by those queued are the coalescing fold of the requests the steps brought in, from the bus for a bus signal and from the wire for a command; the safety timer was armed once for each suspend begun; while one is under way and not yet forced its timer is armed or expired unread exactly if its arming succeeded |
| PipelineBook.SafetyForcesRelease | src/daemon/power/power_supervisor.cpp:75-84 | a suspend under way with its timer armed: expiry is possible, and its handler then makes exactly one release if the bus asked for the suspend, none if the wire did, and marks the suspend as forced |
| PipelineBook.BusRequestsMoveTheLock | src/daemon/power/power_supervisor.cpp:172-178 | in every run with a monitor the lock calls made are exactly those owed by the finished requests of that fold, one release for a bus suspend and one take for a bus resume, and a forced release under way |
| PipelineBook.CompletionMovesTheLock | src/daemon/power/power_lifecycle.cpp:75-111 | a completion in any reachable state: a bus suspend that was not forced adds one release, a bus resume one take, anything else nothing, before the requests behind it are looked at |
| PipelineArrivals.ArrivalsAreHandled | src/daemon/cec_daemon.cpp:403-509 | in every run the alerts, observations and bus signals that came in are, in order, those handled and those still queued; the standby policy asked for one suspend for each TV standby handled while armed and switched on; a resume's verdict is what it found when it looked at the adapter again, and the parked commands met the fates those verdicts gave them |
| PipelineDrain.InternalStepDecreases | src/daemon/power/power_supervisor.cpp:113-267 | every step the daemon takes by itself lowers a measure over pending entries, parked commands, jobs and posts |
| PipelineDrain.InternalRunsAreBounded | src/daemon/power/power_supervisor.cpp:113-267 | however the threads are scheduled, the number of steps left without new input is bounded by the measure |
| PipelineDrain.QuietMeansDone | src/daemon/cec_daemon.cpp:511-557 | when no such step is left both queues are empty, the sequencer is idle with nothing pending, recovery is at rest or waiting for a live timer, and every request has been answered exactly once |
| CECDaemons.CECDaemon.Start | src/daemon/cec_daemon.cpp:37-302 | startup ends in an initial state of the transition system with the configured queueing and standby flags, the start-up scan if one is configured, and the arming closure behind everything the adapter posted |
| CECDaemons.CECDaemon.HandleCommand | src/daemon/cec_daemon.cpp:511-557 | in place, equals the command step of the transition system |
| CECDaemons.CECDaemon.RunClosure | src/common/main_thread_work.cpp:57-66 | each closure, in place, equals the step that runs it |
| CECDaemons.CECDaemon.FinishResume | src/daemon/adapter_lifecycle.cpp:154-177 | drain, unsuspend, replay, complete: in that order, in one step |
| CECDaemons.CECDaemon.Drain | src/common/main_thread_work.cpp:41-67 | running a swapped-out batch, whose closures may post more, equals as many single closures off the front of one FIFO |
| CECDaemons.CECDaemon.ShutDownGates | src/daemon/cec_daemon.cpp:366-372 | closing the gates in place is the shutdown of the transition system: nothing parked stays parked |
| CECDaemons.DrainManyIsARun | src/common/main_thread_work.cpp:41-67 | a batch is a run of the transition system, so the theorems about runs hold of it |
| CECDaemons.CECDaemon.OnAdapterConnectionLost | src/daemon/cec_daemon.cpp:587-593 | the connection flag is cleared and the loss is posted |
| CECDaemons.CECDaemon.WorkerStartsReopening | src/daemon/cec/libcec_adapter.cpp:232-241 | in place, equals the step in which a reopening job closes the adapter |
| CECDaemons.CECDaemon.WorkerTakesJob | src/daemon/cec/adapter_worker.cpp:68-85 | in place, equals the step in which the worker takes its next job |
| CECDaemons.CECDaemon.WorkerRunsJob | src/daemon/adapter_lifecycle.cpp:62-147 | in place, equals the step in which the job's adapter calls are made |
| CECDaemons.CECDaemon.WorkerProbes | src/daemon/adapter_lifecycle.cpp:108-112 | in place, equals the step in which a resume reads the connection flag again |
| CECDaemons.CECDaemon.WorkerFinishesJob | src/daemon/adapter_lifecycle.cpp:73-77 | in place, equals the step in which the job's completion is posted |
| CECDaemons.CECDaemon.OnAdapterObservation | src/daemon/cec_daemon.cpp:559-585 | an observation reaches the main thread as one post |
| CECDaemons.CECDaemon.OnPowerState | src/daemon/cec_daemon.cpp:473-486 | a system suspend or resume reaches the supervisor as one post |
| WorkQueue.MainThreadWork.Post | src/common/main_thread_work.cpp:27-39 | appends, then bumps; the counter is positive afterwards |
| WorkQueue.MainThreadWork.TakeBatch | src/common/main_thread_work.cpp:41-55 | clears the counter, then swaps the whole queue out |
| WorkQueue.NoLostWakeup | src/common/main_thread_work.cpp:27-67 | for every interleaving of posters and drainer: with the drainer idle a non-empty queue has a positive counter or a poster about to bump it; what has run is always a prefix of what was posted, and all of it once nothing is due |
| WorkQueue.RefinesFifo | src/common/main_thread_work.cpp:48-66 | batch and queue together behave as one FIFO, step by step |
| WorkQueue.DueStepsDrain | src/common/main_thread_work.cpp:27-67 | without new posts every due step lowers a measure, and when none is due everything posted has run |
| WorkQueue.FiresExactlyWhenArmedBefore | src/daemon/standby_policy.cpp:23-52 | for every interleaving of posting, draining and toggling: the closures that asked for a suspend are exactly the TV-standby observations run with the flag on and posted after the arming closure |
| Throttle.IntervalIsIdeal | src/daemon/command_throttler.cpp:64-77 | for every configuration and failure count no 32-bit operation wraps and base <= interval <= max(base, maximum) |
| Throttle.IntervalIsMonotone | src/daemon/command_throttler.cpp:64-77 | more failures never shorten the interval, and beyond five change nothing |
| Throttle.BackoffIsIdealExactlyUpTo26 | src/daemon/command_throttler.cpp:26-46 | a fully failing call of n attempts pauses 100 * (2^n - 1) ms in all exactly when n <= 26; from the 27th attempt on the 32-bit delay wraps |
| Throttle.FailingCallCounts | src/daemon/command_throttler.cpp:50-61 | a failing call leaves old + n - 1 failures for n >= 1; it counts as the single failure its comment intends exactly when n = 2 |
| Throttle.CommandThrottler.ExecuteWithThrottle | src/daemon/command_throttler.cpp:26-62 | run alone, for any number of attempts: succeeds exactly when some attempt does and stops there, pauses as totalled (past the 32nd attempt, where the shift is undefined, by whatever it yields), slots keep the base interval and their clock readings, and the count is cleared or softened as stated |
| Throttle.CommandThrottler.ReserveSlot | src/daemon/command_throttler.cpp:79-104 | the slot is the later of now and the next allowed instant, which moves on by the whole interval |
| Throttle.ReservationIsLinearizable | src/daemon/command_throttler.cpp:79-104 | for any number of callers, any interleaving and spurious failures: each slot is the later of its caller's clock reading and the end of the interval before it, so slots in compare-and-swap order are at least that interval apart; no slot has two owners, nobody reaches its command before its slot, and the failure count never underflows |
| Throttle.CallersGoByTheirReadings | src/daemon/command_throttler.cpp:64-104 | in every run each caller goes by the ideal interval for the failure count when it measured and by the clock when it read it; the count is the attempts failed since the last success less those softened |
| Throttle.GrantsGoByReadings | src/daemon/command_throttler.cpp:83-95 | in every run a swap that finds its slot unchanged grants the later of the caller's own reading and the next allowed instant, which moves on by the interval that caller measured; any other swap changes nothing shared |
| Hooks.CecHookSubsystem.Observe | src/daemon/hook/cec_hook_subsystem.cpp:100-150 | in place, each observation equals the transition, with the commit made at once when the timer cannot be armed |
| Hooks.CecHookSubsystem.OnDebounceTimerFired | src/daemon/hook/cec_hook_subsystem.cpp:152-166 | commits only on a real expiry; a superseded one commits nothing |
| Hooks.CecHookSubsystem.CommitPending | src/daemon/hook/cec_hook_subsystem.cpp:168-184 | fires the pending address unless it was the last one fired, and clears it |
| Hooks.FiringsRefineLists | src/daemon/hook/cec_hook_subsystem.cpp:100-213 | over every history: power hooks are the Standby opcodes and ON reports without adjacent repeats, input-switch hooks the committed addresses without adjacent repeats, each naming its predecessor; host hooks are the host observations one for one; commits pick ever later observations and a pending address always has its timer armed or expired unread |
| Hooks.SettledAddressIsFired | src/daemon/hook/cec_hook_subsystem.cpp:126-184 | with nothing pending, the last address given to scripts is the last one observed |
| Hooks.SqueezeHasNoRepeats | src/daemon/hook/cec_hook_subsystem.cpp:168-184 | the list function the firings refine leaves no two equal neighbours and loses no value |
| Hooks.SubmittedIsFiltered | src/daemon/hook/cec_hook_subsystem.cpp:249-264 | scripts are run for exactly the hooks that have one, in order |
| Hooks.ScriptsRun | src/daemon/hook/cec_hook_subsystem.cpp:190-264 | over every observation history, event by event: TV standby, TV wake, input switch, host activated and host deactivated each run their script for exactly their own firings, in order, if they have one, and nothing otherwise |
| Sessions.SessionsStayInStep | src/daemon/socket_server.cpp:143-361 | in every run each open session is registered for reading, nothing or writing exactly as it is idle, waiting or sending, requests and responses alternate, the loop holds exactly the open descriptors, and there are at most ten sessions |
| Sessions.EventExactly | src/daemon/socket_server.cpp:175-293 | what an event within the registered mask, or an error, leaves of its session and hands on, case by case: a well-formed request is taken in exactly when the session reads and its mask can be cleared, nothing changes on a spurious read, the rest of a response goes out or waits, everything else closes |
| Sessions.ProcessKeeps | src/daemon/socket_server.cpp:211-261 | reading: the request is handed on and the session waits with it if and only if it is well formed and the mask can be changed; a spurious read changes nothing; any other end closes |
| Sessions.DrainKeeps | src/daemon/socket_server.cpp:263-293 | sending on: told and reading again, unchanged while the send still blocks, or closed, exactly by how the send and the change of the mask end |
| Sessions.AcceptExactly | src/daemon/socket_server.cpp:143-173 | below ten sessions a connection on a new descriptor the event loop takes becomes a fresh session that reads; a refused one uses up an id, and at ten nothing changes |
| Sessions.SweepExactly | src/daemon/socket_server.cpp:327-349 | the sweep closes exactly the sessions with no request in flight that have been silent for more than a minute |
| Sessions.IdsAreNeverReused | src/daemon/socket_server.cpp:160-172 | a closed session's id never comes back, and what an open session has said and heard is never rewritten |
| Sessions.SweepSparesInFlight | src/daemon/socket_server.cpp:327-349 | the idle sweep never closes a session with a request in flight |
| Sessions.EventKeeps | src/daemon/socket_server.cpp:175-293 | an event within the registered mask, or an error, changes nothing but its own session, and that only by taking in a request, sending the pending response or closing |
| Sessions.SendKeeps | src/daemon/socket_server.cpp:295-325 | answering a waiting session: delivered and registered for reading again, or kept for later with the write bit set, or closed, each exactly by how the send and the change of the mask end; others are untouched |
| Sessions.BlockedSendKeepsBoth | src/daemon/socket_server.cpp:295-325 | after answering a waiting session a request is in flight and a response pending at once if and only if the send blocked and the mask could be changed |
| SocketServers.SocketServer.SendResponse | src/daemon/socket_server.cpp:295-325 | in place, equals the specification; a closed session drops the response |
| SocketServers.SocketServer.DrainPendingSend | src/daemon/socket_server.cpp:263-293 | in place, equals the specification |
| SocketServers.SocketServer.ProcessRequest | src/daemon/socket_server.cpp:199-261 | in place, equals the specification; the handler is called last |
| SocketServers.SocketServer.OnSessionEvent | src/daemon/socket_server.cpp:175-197 | in place, equals the specification |
| SocketServers.SocketServer.OnAcceptReady | src/daemon/socket_server.cpp:143-173 | in place, accepting until the queue is empty equals one acceptance after another |
| SocketServers.SocketServer.OnIdleSweep | src/daemon/socket_server.cpp:327-349 | in place, closing the expired sessions one by one equals removing them all |
| SocketServers.SocketServer.CloseSession | src/daemon/socket_server.cpp:351-356 | in place, the session and its registration go together |
| EndToEnd.ResponsesReachWhoAsked | src/daemon/socket_server.cpp:363-367 | end to end, over every interleaving: the turns of an open session are its requests and the daemon's answers to exactly those, in order; a request of an open session is unanswered exactly when it is its last and the session waits |
| EndToEnd.NobodyWaitsForAQuietDaemon | src/daemon/socket_server.cpp:295-325 | once the daemon has nothing left to do, no open session is waiting for it |
| EndToEnd.StepReplies | src/daemon/command_dispatcher.cpp:40-162 | one step produces at most one reply and never takes one back |
| EndToEndRuns.PipeProjects | src/daemon/cec_daemon.cpp:511-557 | in every joint run the pipeline is where its own steps have taken it, each request a session hands on among them as one command |
| EndToEndRuns.ServerProjects | src/daemon/cec_daemon.cpp:511-557 | in every joint run the sessions are where their own steps have taken them, each reply to a request among them as one answer to the session that asked |

## Left out

- libcec, the adapter's own code and the CEC operations: the adapter is a connection flag and calls with arbitrary answers; an exception from it is a failed answer.
- The D-Bus monitor: a source of suspend and resume signals and a list of lock calls received. When the real lock changes hands is not modelled.
- Time: an armed timer may expire at any moment, whatever its duration; which system calls that arm a timer succeed is fixed beforehand by an arbitrary function of their number. The throttler's clock is any non-decreasing value.
- Stopping: the guarantees are about runs before the worker is stopped. Of the teardown only the closing of the gates is modelled; giving up on the adapter counts the callback and lets the run go on.
- CECDaemons.CECDaemon.RunClosure: an observation reaches the standby policy only; the hook subsystem, which the same closure calls next, is modelled on its own over an arbitrary observation history.
- CECDaemons.CECDaemon.Start: subsystem failures during startup, the watchdog, signals and the exit status are not part of it.
- AdapterWorkers.WorkerThread.Perform: the key-code allowlist and the range checks of the operations are part of the arbitrary answer; the worker's mutex is the atomicity of a step. A job that reopens the adapter is two steps, since the adapter counts as closed in between.
- WorkQueue.MainThreadWork.TakeBatch: the closures of the batch are run by the daemon's Drain; an invalid event descriptor, which stops the daemon from starting, is not modelled.
- Throttle.CommandThrottler.ExecuteWithThrottle: past the 32nd attempt, where the shift in the source is undefined, it is taken to yield some number; the run of one caller alone. Several callers are the transition system beside it, whose pauses between attempts take no modelled time.
- Throttle.ReservationIsLinearizable: time points are unbounded integers.
- Sessions.SessionsStayInStep: an event carries only bits its descriptor is registered with, and errors. An event left over for a descriptor closed and reopened within one poll is outside it.
- Sessions.IdsAreNeverReused: ids are unbounded; the 64-bit wrap is not modelled.
- SocketServers.SocketServer.ProcessRequest: sessions are values in the table, replaced when they change; the request goes back to the caller, who hands it to the handler. A handler that is missing or throws, and the error response it earns, are not part of it.
- SocketServers.SocketServer.OnAcceptReady: what accept returns is given as a list; interrupted sends and receives are retried until they end otherwise and only the final outcome is modelled. Opening and closing the listener is left out.
- EndToEnd.ResponsesReachWhoAsked: a response that cannot be sent closes its session, so delivery is about sessions that stay open.
- Hooks.CecHookSubsystem.Observe: the environment of a script is reduced to the part that depends on state; rendering addresses and spawning are left out.
- The wire format, the client, command-line and configuration parsing, logging: plumbing around the parts above.
