/**
 * The supervisor in place: it owns both decision machines, drives the timers,
 * the adapter lifecycle and the D-Bus monitor, and is called back by its own
 * effects.
 */
module PowerSupervisors {
  import opened Wire
  import opened Timers
  import opened Supervisor
  import opened AdapterWorkers
  import opened AdapterLifecycles
  import opened CommandDispatchers
  import P = Pipeline
  import B = Backoff
  import PL = Lifecycle
  import AR = Reconnect

  /** The inhibit-lock calls it has received. */
  class DBusMonitor {
    var calls: seq<PL.Lock>

    constructor ()
      ensures calls == []
    {
      calls := [];
    }

    method ReleaseInhibitLock()
      modifies this
      ensures calls == old(calls) + [PL.Release]
    {
      calls := calls + [PL.Release];
    }

    method TakeInhibitLock()
      modifies this
      ensures calls == old(calls) + [PL.Take]
    {
      calls := calls + [PL.Take];
    }
  }

  class PowerSupervisor {
    const dispatcher: CommandDispatcher
    const lifecycle: AdapterLifecycle
    const worker: AdapterWorker
    const suspendSafetyTimer: TimerSource
    const reconnectRetryTimer: TimerSource
    const dbusMonitor: DBusMonitor?
    const powerLifecycle: PL.PowerLifecycle
    const adapterReconnect: AR.AdapterReconnect
    var attempts: nat   // numbers the attempts, so that their results can be told apart
    var abandoned: nat  // calls of the unrecoverable-adapter callback

    ghost function Objects(): set<object> {
      {this, lifecycle, lifecycle.suspendQueue, worker, suspendSafetyTimer, reconnectRetryTimer,
       powerLifecycle, adapterReconnect, adapterReconnect.schedule}
      + (if dbusMonitor == null then {} else {dbusMonitor})
    }

    ghost predicate Valid()
      reads Objects()
    {
      && suspendSafetyTimer != reconnectRetryTimer
      && lifecycle.worker == worker && dispatcher.worker == worker
      && adapterReconnect.Valid()
      && !worker.stopRequested && worker.adapterHeld
    }

    ghost function TimerOracle(): Oracle {
      Oracle(reconnectRetryTimer.outcome, suspendSafetyTimer.outcome)
    }

    ghost function RecoveryView(): Recovery
      reads this, adapterReconnect, adapterReconnect.schedule, reconnectRetryTimer
    {
      Recovery(adapterReconnect.View(), reconnectRetryTimer.state, reconnectRetryTimer.arms, attempts, abandoned)
    }

    ghost function View(): Core
      reads Objects()
    {
      Core(powerLifecycle.View(), RecoveryView(),
           suspendSafetyTimer.state, suspendSafetyTimer.arms,
           lifecycle.suspendQueue.suspended, lifecycle.shutdownComplete, worker.connected, worker.jobs,
           dbusMonitor != null, if dbusMonitor == null then [] else dbusMonitor.calls)
    }

    /** What the supervisor never touches in the objects it changes. */
    ghost function Untouched(): (seq<Request>, seq<Request>, seq<P.Fate>)
      reads lifecycle, lifecycle.suspendQueue
    {
      (lifecycle.suspendQueue.queued, lifecycle.accepted, lifecycle.fates)
    }

    constructor (dispatcher: CommandDispatcher, lifecycle: AdapterLifecycle, worker: AdapterWorker,
                 suspendSafety: TimerSource, reconnectRetry: TimerSource, dbusMonitor: DBusMonitor?,
                 schedule: seq<int>, connectionLostDelay: int)
      requires suspendSafety != reconnectRetry && lifecycle.worker == worker && dispatcher.worker == worker
      requires !worker.stopRequested && worker.adapterHeld
      ensures Valid()
      ensures this.dispatcher == dispatcher && this.lifecycle == lifecycle && this.worker == worker
      ensures suspendSafetyTimer == suspendSafety && reconnectRetryTimer == reconnectRetry
      ensures this.dbusMonitor == dbusMonitor
      ensures fresh(powerLifecycle) && fresh(adapterReconnect) && fresh(adapterReconnect.schedule)
      ensures View() == Core(PL.AT_REST,
                             Recovery(AR.Fresh(schedule, connectionLostDelay),
                                      reconnectRetry.state, reconnectRetry.arms, 0, 0),
                             suspendSafety.state, suspendSafety.arms,
                             lifecycle.suspendQueue.suspended, lifecycle.shutdownComplete,
                             worker.connected, worker.jobs,
                             dbusMonitor != null, if dbusMonitor == null then [] else dbusMonitor.calls)
    {
      this.dispatcher, this.lifecycle, this.worker := dispatcher, lifecycle, worker;
      suspendSafetyTimer, reconnectRetryTimer := suspendSafety, reconnectRetry;
      this.dbusMonitor := dbusMonitor;
      powerLifecycle := new PL.PowerLifecycle();
      var backoff := new B.BackoffSchedule(schedule);
      adapterReconnect := new AR.AdapterReconnect(backoff, connectionLostDelay);
      attempts, abandoned := 0, 0;
    }

    // ---------------------------------------------------------------------
    // Reconnecting
    // ---------------------------------------------------------------------

    /** `s` with the reconnect machine's part replaced and some jobs more. */
    static ghost function Recovered(c: Core, r: (Recovery, seq<Job>)): Core {
      c.(rc := r.0, jobs := c.jobs + r.1)
    }

    method Execute(out: AR.Output)
      requires Valid()
      requires out.effect.StartAttempt? ==> adapterReconnect.state.Attempting?
      requires out.effect.ScheduleRetry? ==> adapterReconnect.state.WaitingForRetry?
      modifies Objects()
      ensures Valid() && Untouched() == old(Untouched())
      ensures View() == Recovered(old(View()),
                                  Supervisor.Execute(TimerOracle(), old(View().rc), old(View().Gate()), out))
      decreases Rank(out.effect), 0
    {
      hide AR.Transition, Supervisor.SubmitReconnectAttempt;
      match out.effect {
        case NoEffect =>
        case StartAttempt =>
          reconnectRetryTimer.Disarm();
          attempts := attempts + 1;
          SubmitReconnectAttempt();
        case ScheduleRetry =>
          ScheduleRetry(out);
        case CancelRetry =>
          reconnectRetryTimer.Disarm();
        case AbandonCycle =>
          abandoned := abandoned + 1;
      }
    }

    /** A retry whose timer cannot be armed is fed back to the machine. */
    method ScheduleRetry(out: AR.Output)
      requires Valid() && out.effect.ScheduleRetry? && adapterReconnect.state.WaitingForRetry?
      modifies Objects()
      ensures Valid() && Untouched() == old(Untouched())
      ensures View() == Recovered(old(View()),
                                  Supervisor.Execute(TimerOracle(), old(View().rc), old(View().Gate()), out))
      decreases 0, 1
    {
      var ok := reconnectRetryTimer.ArmOnce(out.delay);
      if !ok {
        var next := adapterReconnect.OnEvent(AR.TimerArmFailed);
        Execute(next);
      }
    }

    method SubmitReconnectAttempt()
      requires Valid() && adapterReconnect.state.Attempting?
      modifies Objects()
      ensures Valid() && Untouched() == old(Untouched())
      ensures View() == Recovered(old(View()),
                                  Supervisor.SubmitReconnectAttempt(TimerOracle(), old(View().rc), old(View().Gate())))
      decreases 1, 2
    {
      var done := lifecycle.ReconnectAsync(attempts);
      if done.Some? {
        ReconnectResult(done.value);
      }
    }

    method ReconnectResult(ok: bool)
      requires Valid()
      modifies Objects()
      ensures Valid() && Untouched() == old(Untouched())
      ensures View() == Recovered(old(View()),
                                  Supervisor.OnReconnectResult(TimerOracle(), old(View().rc), old(View().Gate()), ok))
      decreases 1, 1
    {
      var out := adapterReconnect.OnEvent(if ok then AR.AttemptSucceeded else AR.AttemptFailed);
      Execute(out);
    }

    /** Feeds one event to the reconnect machine and carries out its effect. */
    method Signal(e: AR.Event)
      requires Valid()
      modifies Objects()
      ensures Valid() && Untouched() == old(Untouched())
      ensures View() == Recovered(old(View()),
                                  Supervisor.Signal(TimerOracle(), old(View().rc), old(View().Gate()), e))
    {
      hide Supervisor.Execute;
      var out := adapterReconnect.OnEvent(e);
      Execute(out);
    }

    method OnConnectionLost()
      requires Valid()
      modifies Objects()
      ensures Valid() && Untouched() == old(Untouched())
      ensures View() == Recover(TimerOracle(), old(View()), AR.ConnectionLost)
    {
      hide Supervisor.Signal;
      Signal(AR.ConnectionLost);
    }

    method OnReconnectResult(ok: bool)
      requires Valid()
      modifies Objects()
      ensures Valid() && Untouched() == old(Untouched())
      ensures View() == Recover(TimerOracle(), old(View()), if ok then AR.AttemptSucceeded else AR.AttemptFailed)
    {
      hide Supervisor.Signal;
      Signal(if ok then AR.AttemptSucceeded else AR.AttemptFailed);
    }

    /** The expiry is read, but a reading of 0 makes no difference. */
    method OnReconnectRetryTimerFired()
      requires Valid()
      modifies Objects()
      ensures Valid() && Untouched() == old(Untouched())
      ensures View() == OnRetryTimerFired(TimerOracle(), old(View()))
    {
      hide Supervisor.Signal;
      var expirations := reconnectRetryTimer.Consume();
      Signal(AR.RetryTimerFired);
    }

    // ---------------------------------------------------------------------
    // Suspending and resuming
    // ---------------------------------------------------------------------

    method ApplyLifecycle(out: PL.Output)
      requires Valid()
      modifies Objects()
      ensures Valid() && Untouched() == old(Untouched())
      ensures View() == Supervisor.ApplyLifecycle(TimerOracle(), old(View()), out)
      decreases |powerLifecycle.pending|, if out.work.NoWork? then 1 else 5
    {
      hide Supervisor.ExecuteEffects;
      ExecuteEffects(out);
      var next := powerLifecycle.PumpQueue();
      ExecuteEffects(next);
    }

    method ExecuteEffects(out: PL.Output)
      requires Valid()
      modifies Objects()
      ensures Valid() && Untouched() == old(Untouched())
      ensures View() == Supervisor.ExecuteEffects(TimerOracle(), old(View()), out)
      decreases |powerLifecycle.pending|, if out.work.NoWork? then 0 else 4
    {
      hide Supervisor.Prepare, Supervisor.SubmitSuspendWork, Supervisor.SubmitResumeWork;
      PrepareEffects(out);
      match out.work {
        case StartSuspend => SubmitSuspendWork();
        case StartResume => SubmitResumeWork();
        case NoWork =>
      }
    }

    /** Timers, the reconnect machine and the inhibit lock, in that order; adapter work comes last. */
    method PrepareEffects(out: PL.Output)
      requires Valid()
      modifies Objects()
      ensures Valid() && Untouched() == old(Untouched())
      ensures View() == Prepare(TimerOracle(), old(View()), out)
      ensures out.safetyTimer == PL.Arm ==> suspendSafetyTimer.armedFor == out.safetyDelay
    {
      hide Supervisor.Notified, Supervisor.ArmSafety;
      if out.safetyTimer == PL.Disarm {
        suspendSafetyTimer.Disarm();
      }
      NotifyReconnect(out.reconnectNotify);
      if out.safetyTimer == PL.Arm {
        ArmSafetyTimer(out.safetyDelay);
      }
      ChangeLock(out.lock);
    }

    method NotifyReconnect(notify: PL.Notify)
      requires Valid()
      modifies Objects()
      ensures Valid() && Untouched() == old(Untouched())
      ensures View() == Notified(TimerOracle(), old(View()), notify)
    {
      hide Supervisor.Signal;
      match notify {
        case SystemSuspend => Signal(AR.SystemSuspend);
        case SystemResume => Signal(AR.SystemResume);
        case NoNotify =>
      }
    }

    method ArmSafetyTimer(delay: nat)
      requires Valid()
      modifies Objects()
      ensures Valid() && Untouched() == old(Untouched())
      ensures View() == ArmSafety(TimerOracle(), old(View()))
      ensures suspendSafetyTimer.armedFor == delay
    {
      var ok := suspendSafetyTimer.ArmOnce(delay);
      if !ok {
        var inert := powerLifecycle.OnSafetyTimerArmFailed();
      }
    }

    /** Without a monitor there is no lock to change. */
    method ChangeLock(lock: Option<PL.Lock>)
      requires Valid()
      modifies Objects()
      ensures Valid() && Untouched() == old(Untouched())
      ensures
        var c := old(View());
        View() == if c.monitored && lock.Some? then c.(locks := c.locks + [lock.value]) else c
      ensures unchanged(suspendSafetyTimer)
    {
      if dbusMonitor != null {
        match lock {
          case Some(Release) => dbusMonitor.ReleaseInhibitLock();
          case Some(Take) => dbusMonitor.TakeInhibitLock();
          case None =>
        }
      }
    }

    method SubmitSuspendWork()
      requires Valid()
      modifies Objects()
      ensures Valid() && Untouched() == old(Untouched())
      ensures View() == Supervisor.SubmitSuspendWork(TimerOracle(), old(View()))
      decreases |powerLifecycle.pending|, 3
    {
      hide Supervisor.OnSuspendCompleted;
      var done := lifecycle.SuspendAsync();
      if done {
        OnSuspendCompleted();
      }
    }

    method SubmitResumeWork()
      requires Valid()
      modifies Objects()
      ensures Valid() && Untouched() == old(Untouched())
      ensures View() == Supervisor.SubmitResumeWork(TimerOracle(), old(View()))
      decreases |powerLifecycle.pending|, 3
    {
      hide Supervisor.OnResumeCompleted;
      var done := lifecycle.ResumeAsync();
      if done {
        OnResumeCompleted(false);
      }
    }

    method OnSuspendCompleted()
      requires Valid()
      modifies Objects()
      ensures Valid() && Untouched() == old(Untouched())
      ensures View() == Supervisor.OnSuspendCompleted(TimerOracle(), old(View()))
      decreases |powerLifecycle.pending|, 2
    {
      hide Supervisor.ApplyLifecycle;
      var out := powerLifecycle.OnSuspendCompleted();
      ApplyLifecycle(out);
    }

    method OnResumeCompleted(adapterValid: bool)
      requires Valid()
      modifies Objects()
      ensures Valid() && Untouched() == old(Untouched())
      ensures View() == Supervisor.OnResumeCompleted(TimerOracle(), old(View()), adapterValid)
      decreases |powerLifecycle.pending|, 2
    {
      hide Supervisor.ApplyLifecycle, Supervisor.Execute;
      var out := powerLifecycle.OnResumeCompleted(adapterValid);
      ApplyLifecycle(out);
      if adapterValid {
        return;
      }
      var seed := adapterReconnect.SeedCycle(POST_RESUME_RETRY_DELAY_MS);
      Execute(seed);
    }

    method OnSuspendRequested(source: PL.Source)
      requires Valid()
      modifies Objects()
      ensures Valid() && Untouched() == old(Untouched())
      ensures View() == Requested(TimerOracle(), old(View()), PL.Entry(PL.Suspend, source))
    {
      hide Supervisor.ApplyLifecycle, PL.Requested;
      var out := powerLifecycle.OnSuspendRequested(source);
      ApplyLifecycle(out);
    }

    method OnResumeRequested(source: PL.Source)
      requires Valid()
      modifies Objects()
      ensures Valid() && Untouched() == old(Untouched())
      ensures View() == Requested(TimerOracle(), old(View()), PL.Entry(PL.Resume, source))
    {
      hide Supervisor.ApplyLifecycle, PL.Requested;
      var out := powerLifecycle.OnResumeRequested(source);
      ApplyLifecycle(out);
    }

    method OnSafetyTimerFired()
      requires Valid()
      modifies Objects()
      ensures Valid() && Untouched() == old(Untouched())
      ensures View() == Supervisor.OnSafetyTimerFired(TimerOracle(), old(View()))
    {
      hide Supervisor.ApplyLifecycle;
      var expirations := suspendSafetyTimer.Consume();
      var out := powerLifecycle.OnSafetyTimerFired();
      ApplyLifecycle(out);
    }

    /** The resume callback: parked commands are handed to the worker before the sequencer hears of the resume. */
    method ResumeDone(adapterValid: bool, queued: seq<Request>)
      requires Valid() && AllParkable(queued)
      modifies Objects()
      ensures Valid() && Untouched() == old(Untouched())
      ensures
        var c := old(View());
        View() == Supervisor.OnResumeCompleted(TimerOracle(), c.(jobs := c.jobs + P.Replays(queued)), adapterValid)
    {
      hide Supervisor.OnResumeCompleted;
      assert P.Replays([]) == [];
      assert worker.jobs + [] == worker.jobs;
      if queued != [] {
        dispatcher.Replay(queued);
      }
      OnResumeCompleted(adapterValid);
    }
  }
}
