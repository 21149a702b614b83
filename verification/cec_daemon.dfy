/**
 * The daemon in place. Each of its handlers does to the objects what one step
 * of the transition system does to its state, so that every guarantee proved
 * for runs of the system holds of them.
 */
module CECDaemons {
  import opened Wire
  import opened Timers
  import opened Supervisor
  import opened Pipeline
  import opened PipelineInvariant
  import opened PipelineRuns
  import opened PipelineDrain
  import opened AdapterWorkers
  import opened AdapterLifecycles
  import opened StandbyPolicies
  import opened CommandDispatchers
  import opened PowerSupervisors
  import WQ = WorkQueue
  import PL = Lifecycle
  import AR = Reconnect

  /** The state in which startup leaves the daemon. */
  predicate FirstState(config: Config, connected: bool, early: seq<Post>, s: Pipe) {
    && s.core == Core(PL.AT_REST, Recovery(AR.Fresh(config.schedule, config.connectionLostDelay), Off, 0, 0, 0), Off, 0,
                      false, false, connected, if config.scanDevices then [ScanJob] else [], config.powerMonitor, [])
    && s.parked == [] && !s.standbyArmed && s.stage == Resting && s.posts == early + [ArmStandby]
    && s.nextId == 0 && s.replies == [] && s.accepted == [] && s.fates == []
    && s.ran == [] && s.met == [] && s.results == []
    && s.started == [] && s.autoSuspends == 0
    && s.standbyEnabled == config.standbyEnabled && s.queueing == config.queueCommandsDuringSuspend && !s.closed
  }

  lemma FirstStateInitial(config: Config, connected: bool, early: seq<Post>, s: Pipe)
    requires FirstState(config, connected, early, s)
    requires forall k :: 0 <= k < |early| ==> early[k].ConnectionLost? || early[k].Observation?
    requires connected || ConnectionLost in early
    ensures Initial(s)
  {
  }

  datatype Config = Config(
    standbyEnabled: bool, queueCommandsDuringSuspend: bool, powerMonitor: bool, scanDevices: bool,
    schedule: seq<int>, connectionLostDelay: int)

  /** A lifecycle command, acted upon and acknowledged. */
  function Intercepted(oracle: Oracle, s: Pipe, req: Request): Pipe
    requires s.core.rc.m.Valid()
  {
    if req.msg.ty == CMD_SUSPEND || req.msg.ty == CMD_RESUME then
      var e := PL.Entry(if req.msg.ty == CMD_SUSPEND then PL.Suspend else PL.Resume, PL.Wire);
      Respond(PowerRequest(oracle, s, e), req, Success)
    else Respond(s, req, Error)
  }

  lemma CommandSplits(oracle: Oracle, s: Pipe, msg: Message)
    requires s.core.rc.m.Valid()
    ensures
      var spec := DispatchOf(msg.ty);
      var req := Request(s.nextId, msg);
      var t := s.(nextId := s.nextId + 1);
      Pipeline.HandleCommand(oracle, s, msg)
      == if spec.Some? && spec.value.dispatch == SupervisorIntercepted then Intercepted(oracle, t, req)
         else Pipeline.Dispatch(t, req)
  {
    hide PowerRequest, Pipeline.Dispatch, DispatchOf;
  }

  lemma ResolvedAs(s: Pipe, valid: bool)
    ensures
      var t := s.(parked := [], fates := s.fates + Fates(s.parked, valid), core := s.core.(suspended := false));
      Resolve(s, valid) == Submit(t, Replays(if valid then s.parked else []))
  {
    assert s.core.jobs + Replays([]) == s.core.jobs;
  }

  lemma PowerRequestBehind(oracle: Oracle, s: Pipe, e: PL.Entry, posts: seq<Post>)
    requires s.core.rc.m.Valid()
    ensures PowerRequest(oracle, s.(posts := posts), e) == PowerRequest(oracle, s, e).(posts := posts)
    ensures PowerRequest(oracle, s, e).core.rc.m.Valid() && PowerRequest(oracle, s, e).posts == s.posts
  {
    hide Supervisor.ApplyLifecycle, PL.Requested;
  }

  lemma SuspendFinishedBehind(oracle: Oracle, s: Pipe, posts: seq<Post>)
    requires s.core.rc.m.Valid()
    ensures SuspendFinished(oracle, s.(posts := posts)) == SuspendFinished(oracle, s).(posts := posts)
    ensures SuspendFinished(oracle, s).core.rc.m.Valid() && SuspendFinished(oracle, s).posts == s.posts
  {
    hide Supervisor.OnSuspendCompleted;
  }

  lemma ResumeFinishedBehind(oracle: Oracle, s: Pipe, valid: bool, posts: seq<Post>)
    requires s.core.rc.m.Valid()
    ensures ResumeFinished(oracle, s.(posts := posts), valid) == ResumeFinished(oracle, s, valid).(posts := posts)
    ensures ResumeFinished(oracle, s, valid).core.rc.m.Valid() && ResumeFinished(oracle, s, valid).posts == s.posts
  {
    hide Supervisor.OnResumeCompleted;
  }

  /**
   * A closure leaves the reconnect machine sound, only appends to the queue,
   * and does not see what is queued in front of its own posts.
   */
  lemma RunPostBehind(oracle: Oracle, s: Pipe, p: Post, rest: seq<Post>)
    requires s.core.rc.m.Valid()
    ensures
      var r := RunPost(oracle, s, p);
      && r.core.rc.m.Valid() && s.posts <= r.posts
      && RunPost(oracle, s.(posts := rest + s.posts), p) == r.(posts := rest + r.posts)
  {
    hide PowerRequest, SuspendFinished, ResumeFinished, Supervisor.Recover, AR.Machine.Valid;
    var posts := rest + s.posts;
    assert rest + (s.posts + [SuspendSystem]) == posts + [SuspendSystem];
    if p.SuspendDone? {
      SuspendFinishedBehind(oracle, s, posts);
    } else if p.ResumeDone? {
      ResumeFinishedBehind(oracle, s, p.valid, posts);
    } else if p.PowerSignal? {
      PowerRequestBehind(oracle, s, PL.Entry(p.kind, PL.DBus), posts);
    }
  }

  /** `n` closures off the front of the queue. */
  ghost function DrainMany(oracle: Oracle, s: Pipe, n: nat): Pipe
    requires s.core.rc.m.Valid() && n <= |s.posts|
    decreases n
  {
    if n == 0 then s
    else
      RunPostBehind(oracle, s.(posts := s.posts[1..]), s.posts[0], []);
      DrainMany(oracle, Next(oracle, s, DrainOne), n - 1)
  }

  lemma DrainOneOfMany(oracle: Oracle, s: Pipe, rest: seq<Post>, n: nat)
    requires s.core.rc.m.Valid() && 0 < n == |rest|
    ensures RunPost(oracle, s, rest[0]).core.rc.m.Valid()
    ensures
      var r := RunPost(oracle, s, rest[0]);
      DrainMany(oracle, s.(posts := rest + s.posts), n) == DrainMany(oracle, r.(posts := rest[1..] + r.posts), n - 1)
  {
    hide RunPost;
    var t := s.(posts := rest + s.posts);
    assert t.posts[1..] == rest[1..] + s.posts;
    RunPostBehind(oracle, s, rest[0], rest[1..]);
  }

  lemma DrainNone(oracle: Oracle, s: Pipe)
    requires s.core.rc.m.Valid()
    ensures DrainMany(oracle, s.(posts := [] + s.posts), 0) == s
  {
  }

  class CECDaemon {
    const supervisor: PowerSupervisor
    const dispatcher: CommandDispatcher
    const lifecycle: AdapterLifecycle
    const standbyPolicy: StandbyPolicy
    const sinks: ReplySinks
    const work: WQ.MainThreadWork<Post>
    const thread: WorkerThread
    var nextId: nat  // numbers the requests as they arrive
    ghost var started: seq<PL.Entry>
    ghost var autoSuspends: nat

    ghost function Objects(): set<object> {
      supervisor.Objects() + {this, dispatcher, standbyPolicy, sinks, work, thread}
    }

    ghost predicate Wired() {
      && supervisor.lifecycle == lifecycle && supervisor.dispatcher == dispatcher
      && dispatcher.lifecycle == lifecycle && dispatcher.standbyPolicy == standbyPolicy && dispatcher.sinks == sinks
      && standbyPolicy.work == work
      && thread.worker == supervisor.worker && thread.work == work
      && {this, dispatcher, standbyPolicy, sinks, work, thread} !! supervisor.Objects()
    }

    ghost predicate Valid()
      reads Objects()
    {
      Wired() && supervisor.Valid() && work.Valid() && AllParkable(lifecycle.suspendQueue.queued)
    }

    ghost function View(): Pipe
      requires Wired()
      reads Objects()
    {
      Pipe(supervisor.View(), lifecycle.suspendQueue.queued,
           standbyPolicy.enabled, standbyPolicy.armed, dispatcher.queueCommandsDuringSuspend,
           dispatcher.shutdownComplete, thread.stage, work.pending,
           nextId, sinks.invoked, lifecycle.accepted, lifecycle.fates, thread.ran, thread.met, thread.results,
           started, autoSuspends)
    }

    lemma Ready()
      requires Valid()
      ensures Wired() && View().core.rc.m.Valid()
    {
    }

    /** Wires the parts together at the end of startup. */
    constructor (supervisor: PowerSupervisor, thread: WorkerThread)
      requires supervisor.Valid() && supervisor.dispatcher.lifecycle == supervisor.lifecycle
      requires thread.worker == supervisor.worker && supervisor.dispatcher.standbyPolicy.work == thread.work
      requires thread.work.Valid() && supervisor.lifecycle.suspendQueue.queued == []
      ensures Valid() && this.supervisor == supervisor && this.thread == thread
      ensures View() == Pipe(supervisor.View(), [],
                             standbyPolicy.enabled, standbyPolicy.armed, dispatcher.queueCommandsDuringSuspend,
                             dispatcher.shutdownComplete, thread.stage, thread.work.pending,
                             0, sinks.invoked, lifecycle.accepted, lifecycle.fates,
                             thread.ran, thread.met, thread.results,
                             [], 0)
      ensures dispatcher == supervisor.dispatcher && lifecycle == supervisor.lifecycle
      ensures standbyPolicy == dispatcher.standbyPolicy && sinks == dispatcher.sinks && work == thread.work
    {
      this.supervisor, this.thread := supervisor, thread;
      dispatcher, lifecycle, work := supervisor.dispatcher, supervisor.lifecycle, thread.work;
      standbyPolicy, sinks := supervisor.dispatcher.standbyPolicy, supervisor.dispatcher.sinks;
      nextId, started, autoSuspends := 0, [], 0;
    }

    /**
     * Startup up to the event loop. `early` is what the adapter's callbacks
     * post between its opening and the end of startup; the arming of the
     * standby policy comes after all of it.
     */
    static method Start(config: Config, connected: bool, early: seq<Post>, timers: Oracle) returns (d: CECDaemon)
      requires forall k :: 0 <= k < |early| ==> early[k].ConnectionLost? || early[k].Observation?
      requires connected || ConnectionLost in early
      ensures d.Valid() && Initial(d.View()) && d.supervisor.TimerOracle() == timers
      ensures
        var s := d.View();
        && s.standbyEnabled == config.standbyEnabled && s.queueing == config.queueCommandsDuringSuspend && !s.closed
        && s.core.monitored == config.powerMonitor && s.core.connected == connected
        && s.core.jobs == (if config.scanDevices then [ScanJob] else []) && s.posts == early + [ArmStandby]
        && s.core.rc.m.delays == config.schedule && s.core.rc.m.lostDelay == config.connectionLostDelay
    {
      hide CECDaemon.View, CECDaemon.Valid, PowerSupervisor.View, PowerSupervisor.Valid, Initial;
      var queue := PostEarly(early);
      var adapter := new AdapterWorker(connected);
      if config.scanDevices {
        adapter.Submit(ScanJob);
      }
      var thread := new WorkerThread(adapter, queue);
      var commands := BuildDispatcher(config, adapter, queue);
      var supervisor := BuildSupervisor(config, commands, timers);
      d := new CECDaemon(supervisor, thread);
      FirstStateInitial(config, connected, early, d.View());
    }

    static method BuildDispatcher(config: Config, adapter: AdapterWorker, queue: WQ.MainThreadWork<Post>)
      returns (commands: CommandDispatcher)
      ensures commands.worker == adapter && commands.lifecycle.worker == adapter
      ensures commands.standbyPolicy.work == queue && !commands.standbyPolicy.armed
      ensures fresh(commands) && fresh(commands.lifecycle) && fresh(commands.lifecycle.suspendQueue)
      ensures fresh(commands.standbyPolicy) && fresh(commands.sinks)
      ensures !commands.lifecycle.suspendQueue.suspended && commands.lifecycle.suspendQueue.queued == []
      ensures !commands.lifecycle.shutdownComplete
      ensures commands.lifecycle.accepted == [] && commands.lifecycle.fates == []
      ensures commands.sinks.invoked == [] && !commands.shutdownComplete
      ensures commands.standbyPolicy.enabled == config.standbyEnabled
      ensures commands.queueCommandsDuringSuspend == config.queueCommandsDuringSuspend
    {
      var suspender := new AdapterLifecycle(adapter);
      var policy := new StandbyPolicy(config.standbyEnabled, queue);
      var replies := new ReplySinks();
      commands := new CommandDispatcher(adapter, suspender, policy, replies, config.queueCommandsDuringSuspend);
    }

    static method BuildSupervisor(config: Config, commands: CommandDispatcher, timers: Oracle)
      returns (supervisor: PowerSupervisor)
      requires commands.lifecycle.worker == commands.worker
      requires !commands.worker.stopRequested && commands.worker.adapterHeld
      ensures supervisor.Valid() && fresh(supervisor) && supervisor.TimerOracle() == timers
      ensures supervisor.dispatcher == commands && supervisor.lifecycle == commands.lifecycle
      ensures supervisor.worker == commands.worker
      ensures supervisor.View()
           == Core(PL.AT_REST, Recovery(AR.Fresh(config.schedule, config.connectionLostDelay), Off, 0, 0, 0), Off, 0,
                   commands.lifecycle.suspendQueue.suspended, commands.lifecycle.shutdownComplete,
                   commands.worker.connected, commands.worker.jobs, config.powerMonitor, [])
    {
      hide PowerSupervisor.View, PowerSupervisor.Valid;
      var retry := new TimerSource(timers.retry);
      var safety := new TimerSource(timers.safety);
      var monitor: DBusMonitor? := null;
      if config.powerMonitor {
        monitor := new DBusMonitor();
      }
      supervisor := new PowerSupervisor(commands, commands.lifecycle, commands.worker, safety, retry, monitor,
                                        config.schedule, config.connectionLostDelay);
    }

    /** The queue as startup leaves it. */
    static method PostEarly(early: seq<Post>) returns (queue: WQ.MainThreadWork<Post>)
      ensures fresh(queue) && queue.Valid() && queue.pending == early + [ArmStandby]
    {
      queue := new WQ.MainThreadWork();
      for i := 0 to |early|
        invariant fresh(queue) && queue.Valid() && queue.pending == early[..i]
      {
        queue.Post(early[i]);
      }
      assert early[..|early|] == early;
      queue.Post(ArmStandby);
    }

    // ---------------------------------------------------------------------
    // Commands
    // ---------------------------------------------------------------------

    method RequestPower(e: PL.Entry)
      requires Valid()
      modifies Objects()
      ensures Valid() && View() == PowerRequest(supervisor.TimerOracle(), old(View()), e)
    {
      hide Requested, PowerSupervisor.View, PowerSupervisor.Valid, PL.Requested, Begun, AllParkable;
      ghost var before := PL.Requested(supervisor.View().pl, e).pending;
      if e.kind == PL.Suspend {
        supervisor.OnSuspendRequested(e.source);
      } else {
        supervisor.OnResumeRequested(e.source);
      }
      started := started + Begun(before, supervisor.View().pl.pending);
    }

    method NumberRequest(msg: Message) returns (req: Request)
      requires Valid()
      modifies this`nextId
      ensures Valid() && req == Request(old(View()).nextId, msg)
      ensures View() == old(View()).(nextId := old(View()).nextId + 1)
    {
      hide PowerSupervisor.View, PowerSupervisor.Valid, AllParkable;
      req := Request(nextId, msg);
      nextId := nextId + 1;
    }

    method Reply(req: Request, response: Response)
      requires Valid()
      modifies sinks
      ensures Valid() && View() == Respond(old(View()), req, response)
    {
      hide PowerSupervisor.View, PowerSupervisor.Valid, AllParkable;
      sinks.Invoke(req, response);
    }

    method DispatchCommand(req: Request)
      requires Valid()
      modifies Objects()
      ensures Valid() && View() == Pipeline.Dispatch(old(View()), req)
    {
      hide Pipeline.Dispatch, AllParkable;
      ghost var before := View();
      assert dispatcher.Over(before) == before;
      dispatcher.Dispatch(req);
      assert View() == dispatcher.Over(before);
      DispatchParksAdapterCalls(before, req);
    }

    method HandleCommand(msg: Message)
      requires Valid()
      modifies Objects()
      ensures Valid() && View() == Pipeline.HandleCommand(supervisor.TimerOracle(), old(View()), msg)
    {
      hide View, Valid, PowerSupervisor.Valid, Pipeline.HandleCommand, Pipeline.Dispatch, PowerRequest, DispatchOf;
      Ready();
      CommandSplits(supervisor.TimerOracle(), View(), msg);
      var req := NumberRequest(msg);
      var spec := DispatchOf(msg.ty);
      if spec.Some? && spec.value.dispatch == SupervisorIntercepted {
        Intercept(req);
      } else {
        DispatchCommand(req);
      }
    }

    /** The lifecycle commands: acted upon in place, then acknowledged. */
    method Intercept(req: Request)
      requires Valid()
      modifies Objects()
      ensures Valid()
      ensures View() == Intercepted(supervisor.TimerOracle(), old(View()), req)
    {
      hide View, Valid, PowerSupervisor.Valid, PowerRequest, AllParkable;
      match req.msg.ty {
        case CMD_SUSPEND =>
          RequestPower(PL.Entry(PL.Suspend, PL.Wire));
        case CMD_RESUME =>
          RequestPower(PL.Entry(PL.Resume, PL.Wire));
        case _ =>
          Reply(req, Error);
          return;
      }
      Reply(req, Success);
    }

    // ---------------------------------------------------------------------
    // Closures
    // ---------------------------------------------------------------------

    method FinishSuspend()
      requires Valid()
      modifies Objects()
      ensures Valid() && View() == SuspendFinished(supervisor.TimerOracle(), old(View()))
    {
      hide PowerSupervisor.View, PowerSupervisor.Valid, Supervisor.OnSuspendCompleted, Begun, AllParkable;
      ghost var before := supervisor.View().pl.pending;
      supervisor.OnSuspendCompleted();
      started := started + Begun(before, supervisor.View().pl.pending);
    }

    method LiftSuspension(adapterValid: bool) returns (queued: seq<Request>)
      requires Valid()
      modifies lifecycle`fates, lifecycle.suspendQueue
      ensures Valid() && AllParkable(queued)
      ensures
        var s := old(View());
        && View() == s.(parked := [], fates := s.fates + Fates(s.parked, adapterValid),
                        core := s.core.(suspended := false))
        && queued == if adapterValid then s.parked else []
    {
      queued := lifecycle.OnResumeWorkerComplete(adapterValid);
    }

    method CompleteResume(adapterValid: bool, queued: seq<Request>)
      requires Valid() && AllParkable(queued)
      modifies Objects()
      ensures Valid()
      ensures
        var t := Submit(old(View()), Replays(queued));
        View() == WithCore(t, t.core, Supervisor.OnResumeCompleted(supervisor.TimerOracle(), t.core, adapterValid))
    {
      hide PowerSupervisor.View, PowerSupervisor.Valid, Supervisor.OnResumeCompleted, Begun, AllParkable, Replays;
      ghost var before := supervisor.View().pl.pending;
      supervisor.ResumeDone(adapterValid, queued);
      started := started + Begun(before, supervisor.View().pl.pending);
    }

    /** The parked commands are drained and the suspension lifted before anything is submitted. */
    method FinishResume(adapterValid: bool)
      requires Valid()
      modifies Objects()
      ensures Valid() && View() == ResumeFinished(supervisor.TimerOracle(), old(View()), adapterValid)
    {
      hide View, Valid, WithCore, Supervisor.OnResumeCompleted, AllParkable;
      Ready();
      ResolvedAs(View(), adapterValid);
      var queued := LiftSuspension(adapterValid);
      CompleteResume(adapterValid, queued);
    }

    method FinishReconnect(ok: bool)
      requires Valid()
      modifies Objects()
      ensures Valid() && View() == ReconnectFinished(supervisor.TimerOracle(), old(View()), ok)
    {
      hide PowerSupervisor.View, PowerSupervisor.Valid, Recover, AllParkable;
      supervisor.OnReconnectResult(ok);
    }

    method LoseConnection()
      requires Valid()
      modifies Objects()
      ensures Valid()
      ensures View() == old(View()).(core := Recover(supervisor.TimerOracle(), old(View()).core, AR.ConnectionLost))
    {
      hide PowerSupervisor.View, PowerSupervisor.Valid, Recover, AllParkable;
      supervisor.OnConnectionLost();
    }

    method ObserveTv(tvStandby: bool)
      requires Valid()
      modifies work
      ensures Valid()
      ensures
        var s := old(View());
        View() == if tvStandby && s.standbyArmed && s.standbyEnabled then s.(posts := s.posts + [SuspendSystem]) else s
    {
      hide PowerSupervisor.View, PowerSupervisor.Valid, AllParkable;
      assert work.pending + [] == work.pending;
      standbyPolicy.Observe(tvStandby);
    }

    method ArmPolicy()
      requires Valid()
      modifies standbyPolicy
      ensures Valid() && View() == old(View()).(standbyArmed := true)
    {
      hide PowerSupervisor.View, PowerSupervisor.Valid, AllParkable;
      standbyPolicy.Arm();
    }

    /** The request to the system's power manager itself is not modelled. */
    method SuspendTheSystem()
      requires Valid()
      modifies this`autoSuspends
      ensures Valid() && View() == old(View()).(autoSuspends := old(View()).autoSuspends + 1)
    {
      hide PowerSupervisor.View, PowerSupervisor.Valid, AllParkable;
      autoSuspends := autoSuspends + 1;
    }

    method RunClosure(p: Post)
      requires Valid()
      modifies Objects()
      ensures Valid() && View() == RunPost(supervisor.TimerOracle(), old(View()), p)
    {
      hide View, Valid, SuspendFinished, ResumeFinished, ReconnectFinished, PowerRequest, Recover;
      match p {
        case SuspendDone => FinishSuspend();
        case ResumeDone(valid) => FinishResume(valid);
        case ReconnectDone(_, ok) => FinishReconnect(ok);
        case Answer(req, response) => Reply(req, response);
        case ConnectionLost => LoseConnection();
        case PowerSignal(kind) => RequestPower(PL.Entry(kind, PL.DBus));
        case Observation(tvStandby) => ObserveTv(tvStandby);
        case ArmStandby => ArmPolicy();
        case SuspendSystem => SuspendTheSystem();
      }
    }

    method TakeBatch() returns (batch: seq<Post>)
      requires Valid()
      modifies work
      ensures Valid() && View() == old(View()).(posts := []) && batch == old(View()).posts
    {
      hide PowerSupervisor.View, PowerSupervisor.Valid, AllParkable;
      batch := work.TakeBatch();
    }

    /** Running a whole batch is as many single closures off the front of one FIFO. */
    method Drain()
      requires Valid()
      modifies Objects()
      ensures Valid()
      ensures View() == DrainMany(supervisor.TimerOracle(), old(View()), |old(View()).posts|)
    {
      hide View, Valid, RunPost, DrainMany;
      Ready();
      ghost var before := View();
      ghost var oracle := supervisor.TimerOracle();
      var batch := TakeBatch();
      assert batch + [] == batch;
      var i := 0;
      while i < |batch|
        invariant 0 <= i <= |batch| && Valid() && Wired() && View().core.rc.m.Valid()
        invariant DrainMany(oracle, before, |batch|)
               == DrainMany(oracle, View().(posts := batch[i..] + View().posts), |batch| - i)
      {
        DrainOneOfMany(oracle, View(), batch[i..], |batch| - i);
        RunClosure(batch[i]);
        Ready();
        assert batch[i..][1..] == batch[i + 1..];
        i := i + 1;
      }
      DrainNone(oracle, View());
    }

    /** The part of `stop` that closes the gates of dispatcher and lifecycle. */
    method ShutDownGates()
      requires Valid()
      modifies dispatcher, lifecycle, lifecycle.suspendQueue
      ensures Valid() && View() == ShutDown(old(View()))
    {
      hide AR.Machine.Valid;
      dispatcher.Shutdown();
      lifecycle.Shutdown();
    }

    // ---------------------------------------------------------------------
    // Timers, the worker thread and the adapter's and bus's callbacks
    // ---------------------------------------------------------------------

    method OnSafetyTimerFired()
      requires Valid()
      modifies Objects()
      ensures Valid() && View() == Next(supervisor.TimerOracle(), old(View()), SafetyTimer)
    {
      hide PowerSupervisor.View, PowerSupervisor.Valid, Supervisor.OnSafetyTimerFired, AllParkable;
      supervisor.OnSafetyTimerFired();
    }

    method OnRetryTimerFired()
      requires Valid()
      modifies Objects()
      ensures Valid() && View() == Next(supervisor.TimerOracle(), old(View()), RetryTimer)
    {
      hide PowerSupervisor.View, PowerSupervisor.Valid, Supervisor.OnRetryTimerFired, AllParkable;
      supervisor.OnReconnectRetryTimerFired();
    }

    method SafetyTimerExpires()
      requires Valid() && Enabled(View(), SafetyExpires)
      modifies supervisor.suspendSafetyTimer
      ensures Valid() && View() == Next(supervisor.TimerOracle(), old(View()), SafetyExpires)
    {
      hide AllParkable;
      supervisor.suspendSafetyTimer.Expire();
    }

    method RetryTimerExpires()
      requires Valid() && Enabled(View(), RetryExpires)
      modifies supervisor.reconnectRetryTimer
      ensures Valid() && View() == Next(supervisor.TimerOracle(), old(View()), RetryExpires)
    {
      hide AllParkable;
      supervisor.reconnectRetryTimer.Expire();
    }

    method WorkerTakesJob()
      requires Valid() && Enabled(View(), Dequeue)
      modifies thread, supervisor.worker
      ensures Valid() && View() == Next(supervisor.TimerOracle(), old(View()), Dequeue)
    {
      hide AllParkable;
      thread.Dequeue();
    }

    method WorkerStartsReopening()
      requires Valid() && Enabled(View(), Reopening)
      modifies thread, supervisor.worker
      ensures Valid() && View() == Next(supervisor.TimerOracle(), old(View()), Reopening)
    {
      hide AllParkable;
      thread.StartReopening();
    }

    /** `ok` is what the adapter answers. */
    method WorkerRunsJob(ok: bool)
      requires Valid() && Enabled(View(), Perform(ok))
      modifies thread, supervisor.worker
      ensures Valid() && View() == Next(supervisor.TimerOracle(), old(View()), Perform(ok))
    {
      hide AdapterCalls, AllParkable;
      thread.Perform(ok);
    }

    method WorkerProbes()
      requires Valid() && Enabled(View(), Probe)
      modifies thread
      ensures Valid() && View() == Next(supervisor.TimerOracle(), old(View()), Probe)
    {
      hide AllParkable;
      thread.Probe();
    }

    method WorkerFinishesJob()
      requires Valid() && Enabled(View(), Finish)
      modifies thread, work
      ensures Valid() && View() == Next(supervisor.TimerOracle(), old(View()), Finish)
    {
      hide PowerSupervisor.View, PowerSupervisor.Valid, AllParkable, Completion;
      thread.Finish();
    }

    /** The adapter's alert thread: the flag is cleared and the loss is posted. */
    method OnAdapterConnectionLost()
      requires Valid()
      modifies supervisor.worker, work
      ensures Valid() && View() == Next(supervisor.TimerOracle(), old(View()), Alert)
    {
      hide AllParkable;
      supervisor.worker.connected := false;
      work.Post(ConnectionLost);
    }

    method OnAdapterObservation(tvStandby: bool)
      requires Valid()
      modifies work
      ensures Valid() && View() == Next(supervisor.TimerOracle(), old(View()), Observed(tvStandby))
    {
      hide PowerSupervisor.View, PowerSupervisor.Valid, AllParkable;
      work.Post(Observation(tvStandby));
    }

    method OnPowerState(kind: PL.Kind)
      requires Valid()
      modifies work
      ensures Valid() && View() == Next(supervisor.TimerOracle(), old(View()), BusSignal(kind))
    {
      hide PowerSupervisor.View, PowerSupervisor.Valid, AllParkable;
      work.Post(PowerSignal(kind));
    }
  }

  /** A batch is a run of the transition system. */
  lemma {:induction false} DrainManyIsARun(oracle: Oracle, s: Pipe, n: nat)
    requires Inv(s) && n <= |s.posts|
    ensures DrainMany(oracle, s, n) == End(oracle, s, seq(n, _ => DrainOne))
    decreases n
  {
    hide Inv, Next, RunPost;
    InvSound(s);
    if n > 0 {
      var r := Next(oracle, s, DrainOne);
      assert r == Take(oracle, s, DrainOne);
      PostsLeft(oracle, s);
      TakeKeeps(oracle, s, DrainOne);
      DrainManyIsARun(oracle, r, n - 1);
      var steps := seq(n, _ => DrainOne);
      assert steps[1..] == seq(n - 1, _ => DrainOne);
    }
  }

  lemma PostsLeft(oracle: Oracle, s: Pipe)
    requires s.core.rc.m.Valid() && s.posts != []
    ensures |Next(oracle, s, DrainOne).posts| >= |s.posts| - 1
    ensures Next(oracle, s, DrainOne).core.rc.m.Valid()
  {
    hide RunPost;
    RunPostBehind(oracle, s.(posts := s.posts[1..]), s.posts[0], []);
  }
}
