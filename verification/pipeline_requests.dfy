/**
 * What becomes of each request received: a ledger of the commands of a run,
 * the fate each of them deserves by its type, state and payload, and the
 * proof that the pipeline deals with them accordingly.
 */
module PipelineRequests {
  import opened Seqs
  import opened Wire
  import opened Supervisor
  import opened Pipeline
  import opened PipelineMoves
  import opened PipelineShape
  import opened PipelineInvariant
  import opened PipelineRuns
  import opened PipelineAttempts
  import PL = Lifecycle
  import AR = Reconnect

  /** A command as it came in: whether the system was awake, commands were being queued, the gate was closed. */
  datatype Case = Case(msg: Message, awake: bool, queueing: bool, closed: bool)

  datatype Outcome = ToWorker | Parked | Told(response: Response)

  const WORKER_COMMANDS := {
    CMD_POWER_ON, CMD_POWER_OFF, CMD_VOLUME_UP, CMD_VOLUME_DOWN, CMD_VOLUME_MUTE,
    CMD_CHANGE_SOURCE, CMD_KEY, CMD_RESTART_ADAPTER
  }

  const PARKED_COMMANDS := {CMD_POWER_ON, CMD_POWER_OFF, CMD_VOLUME_UP, CMD_VOLUME_DOWN, CMD_VOLUME_MUTE}

  /**
   * Suspend and resume are always accepted; everything else is refused once
   * the gate is closed. Awake, adapter commands go to the worker and the
   * standby switch is set if it has a payload; asleep, the queueable adapter
   * commands are parked if queueing is on, and all others are refused.
   */
  function OutcomeOf(c: Case): Outcome {
    if c.msg.ty in {CMD_SUSPEND, CMD_RESUME} then Told(Success)
    else if c.closed then Told(Error)
    else if c.awake then
      if c.msg.ty in WORKER_COMMANDS then ToWorker
      else Told(if c.msg.ty == CMD_AUTO_STANDBY && c.msg.data != [] then Success else Error)
    else if c.queueing && c.msg.ty in PARKED_COMMANDS then Parked
    else Told(Error)
  }

  function CaseNow(s: Pipe, msg: Message): Case {
    Case(msg, !s.core.suspended, s.queueing, s.closed)
  }

  /** The commands of a run, in the order they were received. */
  function Ledger(oracle: Oracle, s0: Pipe, steps: seq<Step>): seq<Case>
    requires s0.core.rc.m.Valid()
  {
    if steps == [] then []
    else
      var before := steps[..|steps| - 1];
      var step := steps[|steps| - 1];
      Ledger(oracle, s0, before)
      + if step.WireCommand? then [CaseNow(After(oracle, s0, before), step.msg)] else []
  }

  /** The requests of a ledger that have this outcome, numbered by arrival. */
  function With(cases: seq<Case>, outcome: Outcome): seq<Request> {
    if cases == [] then []
    else
      var last := |cases| - 1;
      With(cases[..last], outcome)
      + if OutcomeOf(cases[last]) == outcome then [Request(last, cases[last].msg)] else []
  }

  /** The standby switch: as configured, until a command sets it. */
  function StandbyAfter(cases: seq<Case>, configured: bool): bool {
    if cases == [] then configured
    else
      var c := cases[|cases| - 1];
      if c.msg.ty == CMD_AUTO_STANDBY && c.awake && !c.closed && c.msg.data != [] then c.msg.data[0] > 0
      else StandbyAfter(cases[..|cases| - 1], configured)
  }

  function LiveRequest(j: Job): seq<Request> {
    if j.LiveJob? then [j.req] else []
  }

  /** The commands ever handed to the worker by their dispatch, in order. */
  function Handed(s: Pipe): seq<Request> {
    FlatMap(LiveRequest, Log(s))
  }

  // ---------------------------------------------------------------------
  // One command
  // ---------------------------------------------------------------------

  lemma DispatchOutcome(s: Pipe, req: Request)
    requires req.msg.ty != CMD_SUSPEND && req.msg.ty != CMD_RESUME
    ensures
      var r := Dispatch(s, req);
      match OutcomeOf(CaseNow(s, req.msg))
      case ToWorker => r == s.(core := s.core.(jobs := s.core.jobs + [LiveJob(req)]))
      case Parked =>
        r == s.(parked := s.parked + [req], accepted := s.accepted + [req],
                replies := s.replies + [Reply(req.id, Success)])
      case Told(response) =>
        r == s.(replies := s.replies + [Reply(req.id, response)],
                standbyEnabled := StandbyAfter([CaseNow(s, req.msg)], s.standbyEnabled))
  {
    hide DispatchOf;
    TableClassifies(req.msg.ty);
  }

  /** Suspend and resume go to the sequencer as requests from the wire, and are acknowledged at once. */
  lemma PowerCommandOutcome(oracle: Oracle, s: Pipe, msg: Message)
    requires s.core.rc.m.Valid() && msg.ty in {CMD_SUSPEND, CMD_RESUME}
    ensures
      var e := PL.Entry(if msg.ty == CMD_SUSPEND then PL.Suspend else PL.Resume, PL.Wire);
      var u := PowerRequest(oracle, s, e);
      HandleCommand(oracle, s, msg) == u.(nextId := s.nextId + 1, replies := u.replies + [Reply(s.nextId, Success)])
  {
    hide DispatchOf, Dispatch, Requested, AR.Machine.Valid;
    TableClassifies(msg.ty);
    var e := PL.Entry(if msg.ty == CMD_SUSPEND then PL.Suspend else PL.Resume, PL.Wire);
    assert PowerRequest(oracle, s.(nextId := s.nextId + 1), e) == PowerRequest(oracle, s, e).(nextId := s.nextId + 1);
  }

  lemma OtherCommand(oracle: Oracle, s: Pipe, msg: Message)
    requires s.core.rc.m.Valid() && msg.ty !in {CMD_SUSPEND, CMD_RESUME}
    ensures HandleCommand(oracle, s, msg) == Dispatch(s.(nextId := s.nextId + 1), Request(s.nextId, msg))
  {
    hide DispatchOf, Dispatch, PowerRequest, AR.Machine.Valid;
    TableClassifies(msg.ty);
  }

  /** What any other command does, whatever the state. */
  lemma CommandOutcome(oracle: Oracle, s: Pipe, msg: Message)
    requires s.core.rc.m.Valid() && msg.ty !in {CMD_SUSPEND, CMD_RESUME}
    ensures
      var req := Request(s.nextId, msg);
      var r := HandleCommand(oracle, s, msg);
      match OutcomeOf(CaseNow(s, msg))
      case ToWorker => r == s.(nextId := s.nextId + 1, core := s.core.(jobs := s.core.jobs + [LiveJob(req)]))
      case Parked =>
        r == s.(nextId := s.nextId + 1, parked := s.parked + [req], accepted := s.accepted + [req],
                replies := s.replies + [Reply(s.nextId, Success)])
      case Told(response) =>
        r == s.(nextId := s.nextId + 1, replies := s.replies + [Reply(s.nextId, response)],
                standbyEnabled := StandbyAfter([CaseNow(s, msg)], s.standbyEnabled))
  {
    hide HandleCommand, Dispatch, OutcomeOf, StandbyAfter, AR.Machine.Valid;
    OtherCommand(oracle, s, msg);
    DispatchOutcome(s.(nextId := s.nextId + 1), Request(s.nextId, msg));
  }

  // ---------------------------------------------------------------------
  // Steps that bring no command
  // ---------------------------------------------------------------------

  /** No command is received, handed over, parked or forgotten; replies are only added. */
  ghost predicate Unasked(s: Pipe, r: Pipe) {
    && r.nextId == s.nextId && r.accepted == s.accepted && r.standbyEnabled == s.standbyEnabled
    && r.queueing == s.queueing && r.closed == s.closed
    && s.replies <= r.replies && Handed(r) == Handed(s)
  }

  /** The worker's queue grows by jobs that are no live commands. */
  lemma GrowsUnasked(s: Pipe, r: Pipe, gave: seq<Job>)
    requires Log(r) == Log(s) + gave && (forall k :: 0 <= k < |gave| ==> !gave[k].LiveJob?)
    ensures Handed(r) == Handed(s)
  {
    hide Log, FlatMap;
    FlatMapConcat(LiveRequest, Log(s), gave);
    FlatMapNothing(LiveRequest, gave);
  }

  lemma JobsGrow(s: Pipe, r: Pipe, gave: seq<Job>)
    requires r.ran == s.ran && r.stage == s.stage && r.core.jobs == s.core.jobs + gave
    ensures Log(r) == Log(s) + gave
  {
  }

  lemma SameLog(s: Pipe, r: Pipe)
    requires Log(r) == Log(s)
    ensures Handed(r) == Handed(s)
  {
  }

  lemma WorkerUnasked(oracle: Oracle, s: Pipe, step: Step)
    requires s.core.rc.m.Valid() && Enabled(s, step)
    requires step.Dequeue? || step.Reopening? || step.Perform? || step.Probe? || step.Finish?
    ensures Unasked(s, Next(oracle, s, step))
  {
    hide Log, Flight, Handed, Reopens, AdapterCalls, Completion, AR.Machine.Valid;
    var r := Next(oracle, s, step);
    if step.Perform? {
      PerformProgresses(s, step.ok);
    } else if step.Finish? {
      FinishProgresses(s);
    } else if step.Reopening? {
      ReopeningProgresses(s, r);
    } else {
      WorkerProgresses(s, r);
    }
    SameLog(s, r);
  }

  lemma OutsideUnasked(oracle: Oracle, s: Pipe, step: Step)
    requires s.core.rc.m.Valid() && Enabled(s, step)
    requires step.SafetyExpires? || step.RetryExpires? || step.Alert? || step.Observed? || step.BusSignal?
    ensures Unasked(s, Next(oracle, s, step))
  {
    hide Handed, AR.Machine.Valid;
    var r := Next(oracle, s, step);
    assert Log(r) == Log(s);
    SameLog(s, r);
  }

  lemma RecoverUnasked(oracle: Oracle, s: Pipe, t: Pipe, e: AR.Event)
    requires Rested(s.core) && t == s.(posts := t.posts) && e != AR.TimerArmFailed
    ensures Unasked(s, t.(core := Recover(oracle, s.core, e)))
  {
    hide Handed, Signal, Log, TimerAgrees, AR.Machine.Valid;
    SignalEffect(oracle, s.core.rc, s.core.Gate(), e);
    var gave := Signal(oracle, s.core.rc, s.core.Gate(), e).1;
    var r := t.(core := Recover(oracle, s.core, e));
    JobsGrow(s, r, gave);
    GrowsUnasked(s, r, gave);
  }

  lemma TimersUnasked(oracle: Oracle, s: Pipe, step: Step)
    requires Rested(s.core) && (step.SafetyTimer? || step.RetryTimer?)
    ensures Unasked(s, Next(oracle, s, step))
  {
    hide Handed, Rested, OnSafetyTimerFired, OnRetryTimerFired, Recover;
    if step.RetryTimer? {
      RetryEffect(oracle, s.core);
      RecoverUnasked(oracle, s, s, AR.RetryTimerFired);
    } else {
      SafetyUnasked(oracle, s);
    }
  }

  lemma SafetyUnasked(oracle: Oracle, s: Pipe)
    requires Rested(s.core)
    ensures Unasked(s, s.(core := OnSafetyTimerFired(oracle, s.core)))
  {
    hide Handed, OnSafetyTimerFired;
    SafetyEffect(oracle, s.core);
    var r := s.(core := OnSafetyTimerFired(oracle, s.core));
    assert Log(r) == Log(s);
    SameLog(s, r);
  }

  lemma PowerUnasked(oracle: Oracle, s: Pipe, e: PL.Entry)
    requires Rested(s.core)
    ensures Unasked(s, PowerRequest(oracle, s, e))
  {
    hide Handed, Requested, Log, Rested, AR.Machine.Valid;
    var gave := RequestMoves(oracle, s.core, e);
    RestedSound(s.core);
    var r := PowerRequest(oracle, s, e);
    JobsGrow(s, r, gave);
    GrowsUnasked(s, r, gave);
  }

  lemma RestedSound(c: Core)
    requires Rested(c)
    ensures c.rc.m.Valid()
  {
  }

  lemma PopUnasked(s: Pipe, r: Pipe)
    requires s.posts != [] && Unasked(Popped(s), r)
    ensures Unasked(s, r)
  {
    hide FlatMap;
    assert Log(Popped(s)) == Log(s);
  }

  lemma SuspendUnasked(oracle: Oracle, s: Pipe)
    requires Inv(s) && s.posts != [] && s.posts[0].SuspendDone?
    ensures s.core.rc.m.Valid()
    ensures Unasked(Popped(s), SuspendFinished(oracle, Popped(s)))
  {
    hide Books, Shape, Flight, Handed, Log, Rested, Supervisor.OnSuspendCompleted;
    CompletionIsAll(s);
    ShapedRested(s);
    var t := Popped(s);
    var gave := SuspendFinishes(oracle, t);
    GrowsUnasked(t, SuspendFinished(oracle, t), gave);
  }

  lemma ShapedRested(s: Pipe)
    requires Inv(s)
    ensures Rested(s.core)
  {
  }

  lemma ResolveUnasked(s: Pipe, valid: bool)
    ensures Unasked(s, Resolve(s, valid))
  {
    hide Handed, Log;
    var gave := if valid then Replays(s.parked) else [];
    assert s.core.jobs + [] == s.core.jobs;
    JobsGrow(s, Resolve(s, valid), gave);
    GrowsUnasked(s, Resolve(s, valid), gave);
  }

  lemma ResumeUnasked(oracle: Oracle, s: Pipe)
    requires Inv(s) && s.posts != [] && s.posts[0].ResumeDone?
    ensures s.core.rc.m.Valid()
    ensures Unasked(Popped(s), ResumeFinished(oracle, Popped(s), s.posts[0].valid))
  {
    hide Books, Shape, Flight, Handed, Log, Rested, Resolve, ResumeFinished;
    CompletionIsAll(s);
    ShapedRested(s);
    var t := Popped(s);
    var valid := s.posts[0].valid;
    var gave := ResumeFinishes(oracle, t, valid);
    ResolveUnasked(t, valid);
    GrowsUnasked(Resolve(t, valid), ResumeFinished(oracle, t, valid), gave);
  }

  lemma ClosureUnasked(oracle: Oracle, s: Pipe)
    requires s.core.rc.m.Valid() && s.posts != []
    requires s.posts[0].Answer? || s.posts[0].Observation? || s.posts[0].ArmStandby? || s.posts[0].SuspendSystem?
    ensures Unasked(Popped(s), RunPost(oracle, Popped(s), s.posts[0]))
  {
    hide Handed, AR.Machine.Valid;
    var t := Popped(s);
    var r := RunPost(oracle, t, s.posts[0]);
    assert Log(r) == Log(t);
    SameLog(t, r);
  }

  lemma DrainUnasked(oracle: Oracle, s: Pipe)
    requires Inv(s) && s.posts != []
    ensures Unasked(s, RunPost(oracle, Popped(s), s.posts[0]))
  {
    hide Inv, Unasked, Rested, SuspendFinished, ResumeFinished, PowerRequest, Recover;
    ShapedRested(s);
    RestedSound(s.core);
    var t := Popped(s);
    if s.posts[0].SuspendDone? {
      SuspendUnasked(oracle, s);
    } else if s.posts[0].ResumeDone? {
      ResumeUnasked(oracle, s);
    } else if s.posts[0].PowerSignal? {
      PowerUnasked(oracle, t, PL.Entry(s.posts[0].kind, PL.DBus));
    } else if s.posts[0].ConnectionLost? {
      RecoverUnasked(oracle, t, t, AR.ConnectionLost);
    } else if s.posts[0].ReconnectDone? {
      RecoverUnasked(oracle, t, t, if s.posts[0].ok then AR.AttemptSucceeded else AR.AttemptFailed);
    } else {
      ClosureUnasked(oracle, s);
    }
    PopUnasked(s, RunPost(oracle, t, s.posts[0]));
  }

  lemma StepUnasked(oracle: Oracle, s: Pipe, step: Step)
    requires Inv(s) && Enabled(s, step) && !step.WireCommand?
    ensures s.core.rc.m.Valid() && Unasked(s, Next(oracle, s, step))
  {
    hide Inv, Unasked, Rested, RunPost, OnSafetyTimerFired, OnRetryTimerFired, RunJob, FinishJob, Enabled;
    ShapedRested(s);
    RestedSound(s.core);
    if step.DrainOne? {
      DrainIsEnabled(s);
      DrainUnasked(oracle, s);
    } else if step.SafetyTimer? || step.RetryTimer? {
      TimersUnasked(oracle, s, step);
    } else if step.Dequeue? || step.Reopening? || step.Perform? || step.Probe? || step.Finish? {
      WorkerUnasked(oracle, s, step);
    } else {
      OutsideUnasked(oracle, s, step);
    }
  }

  lemma DrainIsEnabled(s: Pipe)
    ensures Enabled(s, DrainOne) <==> s.posts != []
  {
  }

  // ---------------------------------------------------------------------
  // Runs
  // ---------------------------------------------------------------------

  /** Every command so far has had the outcome it deserves; those told something have been told it. */
  ghost predicate DealtWith(cases: seq<Case>, s: Pipe) {
    && s.nextId == |cases|
    && Handed(s) == With(cases, ToWorker)
    && s.accepted == With(cases, Parked)
    && (forall i :: 0 <= i < |cases| && OutcomeOf(cases[i]).Told? ==>
          Reply(i, OutcomeOf(cases[i]).response) in s.replies)
    && (forall i :: 0 <= i < |cases| && OutcomeOf(cases[i]).Parked? ==> Reply(i, Success) in s.replies)
  }

  ghost predicate Booked(cases: seq<Case>, s0: Pipe, s: Pipe) {
    && DealtWith(cases, s)
    && s.standbyEnabled == StandbyAfter(cases, s0.standbyEnabled)
    && s.queueing == s0.queueing && s.closed == s0.closed
  }

  lemma UnaskedBooks(cases: seq<Case>, s0: Pipe, s: Pipe, r: Pipe)
    requires Booked(cases, s0, s) && Unasked(s, r)
    ensures Booked(cases, s0, r)
  {
    hide Handed, OutcomeOf, StandbyAfter;
  }

  lemma WithMore(cases: seq<Case>, c: Case, outcome: Outcome)
    ensures With(cases + [c], outcome)
         == With(cases, outcome) + if OutcomeOf(c) == outcome then [Request(|cases|, c.msg)] else []
  {
    assert (cases + [c])[..|cases|] == cases;
  }

  lemma StandbyMore(cases: seq<Case>, c: Case, configured: bool)
    ensures StandbyAfter(cases + [c], configured) == StandbyAfter([c], StandbyAfter(cases, configured))
  {
    assert (cases + [c])[..|cases|] == cases && [c][..0] == [];
  }

  lemma OnlySwitchSets(c: Case, before: bool)
    ensures !OutcomeOf(c).Told? || c.msg.ty in {CMD_SUSPEND, CMD_RESUME} ==> StandbyAfter([c], before) == before
  {
    assert [c][..0] == [];
  }

  lemma HandedOne(s: Pipe, r: Pipe, req: Request)
    requires r.ran == s.ran && r.stage == s.stage && r.core.jobs == s.core.jobs + [LiveJob(req)]
    ensures Handed(r) == Handed(s) + [req]
  {
    hide FlatMap;
    assert Log(r) == Log(s) + [LiveJob(req)];
    FlatMapOne(LiveRequest, Log(s), LiveJob(req));
  }

  /** A command's effect on the books, in terms of its outcome. */
  lemma CommandHanded(oracle: Oracle, s: Pipe, msg: Message)
    requires Inv(s)
    ensures s.core.rc.m.Valid()
    ensures
      var r := HandleCommand(oracle, s, msg);
      var c := CaseNow(s, msg);
      && r.nextId == s.nextId + 1 && r.queueing == s.queueing && r.closed == s.closed
      && r.standbyEnabled == StandbyAfter([c], s.standbyEnabled)
      && Handed(r) == Handed(s) + (if OutcomeOf(c) == ToWorker then [Request(s.nextId, msg)] else [])
      && r.accepted == s.accepted + (if OutcomeOf(c) == Parked then [Request(s.nextId, msg)] else [])
      && r.replies == s.replies + match OutcomeOf(c)
                                  case ToWorker => []
                                  case Parked => [Reply(s.nextId, Success)]
                                  case Told(response) => [Reply(s.nextId, response)]
  {
    hide Inv, Handed, Log, HandleCommand, PowerRequest, StandbyAfter, Rested;
    ShapedRested(s);
    RestedSound(s.core);
    var r := HandleCommand(oracle, s, msg);
    var c := CaseNow(s, msg);
    OnlySwitchSets(c, s.standbyEnabled);
    if msg.ty in {CMD_SUSPEND, CMD_RESUME} {
      PowerCommandOutcome(oracle, s, msg);
      var e := PL.Entry(if msg.ty == CMD_SUSPEND then PL.Suspend else PL.Resume, PL.Wire);
      PowerSpeaks(oracle, s, e);
      PowerUnasked(oracle, s, e);
      assert Log(r) == Log(PowerRequest(oracle, s, e)) by { SameWorkerLog(PowerRequest(oracle, s, e), r); }
      SameLog(PowerRequest(oracle, s, e), r);
    } else if OutcomeOf(c) == ToWorker {
      CommandOutcome(oracle, s, msg);
      HandedOne(s, r, Request(s.nextId, msg));
    } else {
      CommandOutcome(oracle, s, msg);
      SameWorkerLog(s, r);
      SameLog(s, r);
    }
    assert Handed(s) + [] == Handed(s) && s.accepted + [] == s.accepted && s.replies + [] == s.replies;
  }

  lemma SameWorkerLog(s: Pipe, r: Pipe)
    requires r.ran == s.ran && r.stage == s.stage && r.core.jobs == s.core.jobs
    ensures Log(r) == Log(s)
  {
  }

  lemma PowerSpeaks(oracle: Oracle, s: Pipe, e: PL.Entry)
    requires s.core.rc.m.Valid()
    ensures
      var u := PowerRequest(oracle, s, e);
      u == s.(core := u.core, started := u.started)
  {
    hide Requested;
  }

  lemma CommandBooks(oracle: Oracle, cases: seq<Case>, s0: Pipe, s: Pipe, msg: Message)
    requires Inv(s) && Booked(cases, s0, s)
    ensures s.core.rc.m.Valid() && Booked(cases + [CaseNow(s, msg)], s0, HandleCommand(oracle, s, msg))
  {
    hide Inv, Handed, HandleCommand, OutcomeOf, StandbyAfter, With;
    var c := CaseNow(s, msg);
    CommandHanded(oracle, s, msg);
    WithMore(cases, c, ToWorker);
    WithMore(cases, c, Parked);
    StandbyMore(cases, c, s0.standbyEnabled);
    var r := HandleCommand(oracle, s, msg);
    assert forall p :: p in s.replies ==> p in r.replies;
    if OutcomeOf(c) != ToWorker {
      assert r.replies[|s.replies|] in r.replies;
    }
  }

  lemma NothingBooked(s: Pipe)
    requires Initial(s)
    ensures s.core.rc.m.Valid() && Booked([], s, s)
  {
    hide FlatMap;
    InitialQueues(s);
    FlatMapNothing(LiveRequest, s.core.jobs);
  }

  /**
   * In every run each request received has the outcome its type, state and
   * payload deserve. The commands handed to the worker are, in order, exactly
   * the adapter commands received awake; those acknowledged as queued are
   * exactly the queueable ones received asleep with queueing on; every other
   * request has been answered, suspend and resume with success, the standby
   * switch with success if it came awake with a payload, the rest with an
   * error. The standby switch is as the last such command set it.
   */
  lemma {:induction false} RequestsAreDealtWith(oracle: Oracle, s0: Pipe, steps: seq<Step>)
    requires Initial(s0)
    ensures s0.core.rc.m.Valid()
    ensures Booked(Ledger(oracle, s0, steps), s0, After(oracle, s0, steps))
  {
    hide Initial, Inv, Booked, Next, CaseNow;
    if steps == [] {
      NothingBooked(s0);
    } else {
      var before, step := steps[..|steps| - 1], steps[|steps| - 1];
      RequestsAreDealtWith(oracle, s0, before);
      AlwaysInv(oracle, s0, before);
      var s := After(oracle, s0, before);
      if step.WireCommand? {
        CommandBooks(oracle, Ledger(oracle, s0, before), s0, s, step.msg);
        CommandIsEnabled(oracle, s, step);
      } else {
        assert Ledger(oracle, s0, before) + [] == Ledger(oracle, s0, before);
        if Enabled(s, step) {
          StepUnasked(oracle, s, step);
          UnaskedBooks(Ledger(oracle, s0, before), s0, s, Next(oracle, s, step));
        }
      }
    }
  }

  lemma CommandIsEnabled(oracle: Oracle, s: Pipe, step: Step)
    requires s.core.rc.m.Valid() && step.WireCommand?
    ensures Enabled(s, step) && Next(oracle, s, step) == HandleCommand(oracle, s, step.msg)
  {
  }
}
