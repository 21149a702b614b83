/** The invariant over every run, and what it means for a reader. */
module PipelineRuns {
  import opened Seqs
  import opened Wire
  import opened Supervisor
  import opened Timers
  import opened Pipeline
  import opened PipelineMoves
  import opened PipelineShape
  import opened PipelineInvariant
  import PL = Lifecycle
  import AR = Reconnect

  // ---------------------------------------------------------------------
  // Every step keeps the invariant
  // ---------------------------------------------------------------------

  lemma PowerRequestKeeps(oracle: Oracle, s: Pipe, e: PL.Entry)
    requires Inv(s)
    ensures Inv(PowerRequest(oracle, s, e))
  {
    var gave := RequestSequences(oracle, s, e);
    PowerKeeps(s, PowerRequest(oracle, s, e), gave);
  }

  /** A power command: answered, and the sequencer told; the order of the two does not show. */
  lemma PowerCommandKeeps(oracle: Oracle, s: Pipe, msg: Message, e: PL.Entry)
    requires Inv(s)
    ensures Inv(Respond(PowerRequest(oracle, s.(nextId := s.nextId + 1), e), Request(s.nextId, msg), Success))
  {
    var t := s.(nextId := s.nextId + 1);
    var u := Respond(t, Request(s.nextId, msg), Success);
    ReplyKeeps(s, msg, Success);
    SameQueues(t, u);
    SameQueues(s, t);
    PowerRequestKeeps(oracle, u, e);
    assert PowerRequest(oracle, u, e) == Respond(PowerRequest(oracle, t, e), Request(s.nextId, msg), Success);
  }

  lemma AnsweredInlineKeeps(s: Pipe, msg: Message, response: Response)
    requires Inv(s)
    ensures Inv(Respond(s.(nextId := s.nextId + 1), Request(s.nextId, msg), response))
  {
    ReplyKeeps(s, msg, response);
    SameQueues(s, Respond(s.(nextId := s.nextId + 1), Request(s.nextId, msg), response));
  }

  lemma ParkedCommandKeeps(s: Pipe, msg: Message)
    requires Inv(s) && s.core.suspended
    ensures
      var req := Request(s.nextId, msg);
      Inv(Respond(s.(nextId := s.nextId + 1, parked := s.parked + [req], accepted := s.accepted + [req]), req, Success))
  {
    hide Inv, Commands;
    var req := Request(s.nextId, msg);
    var u := Respond(s.(nextId := s.nextId + 1), req, Success);
    AnsweredInlineKeeps(s, msg, Success);
    CommandsBelow(s, u);
    ParkShaped(u, req);
  }

  lemma CommandsBelow(s: Pipe, u: Pipe)
    requires Inv(s) && u.posts == s.posts && u.stage == s.stage && u.core == s.core
    requires u.ran == s.ran && u.parked == s.parked
    ensures forall i :: 0 <= i < |Commands(u)| ==> Commands(u)[i] < s.nextId
  {
    hide FlatMap, Log, Flight, Shaped, Answered, Conserved, Alternates, Recovering, ClosedAsleep;
    SameQueues(s, u);
    assert Commands(u) == Commands(s);
  }

  lemma ParkShaped(s: Pipe, req: Request)
    requires Inv(s) && s.core.suspended && req.id < s.nextId
    requires forall i :: 0 <= i < |Commands(s)| ==> Commands(s)[i] < req.id
    ensures Inv(s.(parked := s.parked + [req], accepted := s.accepted + [req]))
  {
    ParkKeeps(s, req);
    SameQueues(s, s.(parked := s.parked + [req], accepted := s.accepted + [req]));
  }

  lemma LiveCommandKeeps(s: Pipe, msg: Message)
    requires Inv(s) && !s.core.suspended
    ensures Inv(Submit(s.(nextId := s.nextId + 1), [LiveJob(Request(s.nextId, msg))]))
  {
    var job := LiveJob(Request(s.nextId, msg));
    var t := s.(nextId := s.nextId + 1);
    var r := Submit(t, [job]);
    SameQueues(s, t);
    SubmitGives(t, job);
    LiveKeeps(s, r, job);
  }

  lemma StandbyKeeps(s: Pipe, enabled: bool, armed: bool)
    requires Inv(s)
    ensures Inv(s.(standbyEnabled := enabled, standbyArmed := armed))
  {
    var u := s.(standbyEnabled := enabled, standbyArmed := armed);
    SameQueues(s, u);
    ProgressKeeps(s, u);
  }

  lemma DispatchKeeps(s: Pipe, msg: Message)
    requires Inv(s)
    ensures Inv(Dispatch(s.(nextId := s.nextId + 1), Request(s.nextId, msg)))
  {
    hide Inv, DispatchOf;
    var t := s.(nextId := s.nextId + 1);
    var req := Request(s.nextId, msg);
    var spec := DispatchOf(msg.ty);
    if s.closed || spec.None? || spec.value.dispatch.SupervisorIntercepted? {
      AnsweredInlineKeeps(s, msg, Error);
    } else if s.core.suspended {
      if s.queueing && spec.value.queueable {
        ParkedCommandKeeps(s, msg);
      } else {
        AnsweredInlineKeeps(s, msg, Error);
      }
    } else if spec.value.dispatch.StateOnly? {
      if msg.data == [] {
        AnsweredInlineKeeps(s, msg, Error);
      } else {
        StandbyKeeps(s, msg.data[0] > 0, s.standbyArmed);
        AnsweredInlineKeeps(s.(standbyEnabled := msg.data[0] > 0), msg, Success);
      }
    } else {
      LiveCommandKeeps(s, msg);
    }
  }

  lemma CommandKeeps(oracle: Oracle, s: Pipe, msg: Message)
    requires Inv(s)
    ensures Inv(HandleCommand(oracle, s, msg))
  {
    hide Inv, DispatchOf, PowerRequest, Dispatch;
    var spec := DispatchOf(msg.ty);
    if spec.Some? && spec.value.dispatch.SupervisorIntercepted? {
      PowerCommandKeeps(oracle, s, msg, PL.Entry(if msg.ty == CMD_SUSPEND then PL.Suspend else PL.Resume, PL.Wire));
      AnsweredInlineKeeps(s, msg, Error);
    } else {
      DispatchKeeps(s, msg);
    }
  }

  // ---------------------------------------------------------------------
  // Posts
  // ---------------------------------------------------------------------

  /** The head post taken off the queue. */
  function Popped(s: Pipe): Pipe
    requires s.posts != []
  {
    s.(posts := s.posts[1..])
  }

  lemma SuspendDoneKeeps(oracle: Oracle, s: Pipe)
    requires Inv(s) && s.posts != [] && s.posts[0] == SuspendDone
    ensures Inv(SuspendFinished(oracle, Popped(s)))
  {
    var t := Popped(s);
    PopTakes(s);
    SuspendResultIsLast(s.core.pl.phase, s.core.suspended, Flight(s));
    TakePowerKeeps(s, t, SuspendJob);
    var gave := SuspendFinishes(oracle, t);
    PowerKeeps(t, SuspendFinished(oracle, t), gave);
  }

  lemma ResumeDoneKeeps(oracle: Oracle, s: Pipe, valid: bool)
    requires Inv(s) && s.posts != [] && s.posts[0] == ResumeDone(valid)
    ensures Inv(ResumeFinished(oracle, Popped(s), valid))
  {
    var t := Popped(s);
    PopTakes(s);
    ResumeResultIsAll(s.core.pl.phase, s.core.suspended, Flight(s));
    TakePowerKeeps(s, t, ResumeJob);
    ResolveKeeps(t, valid);
    var gave := ResumeFinishes(oracle, t, valid);
    PowerKeeps(Resolve(t, valid), ResumeFinished(oracle, t, valid), gave);
  }

  lemma ReconnectDoneKeeps(oracle: Oracle, s: Pipe, attempt: nat, ok: bool)
    requires Inv(s) && s.posts != [] && s.posts[0] == ReconnectDone(attempt, ok)
    ensures Inv(ReconnectFinished(oracle, Popped(s), ok))
  {
    hide Books, FlatMap, Log, Flight, Shape, ReconnectFinished;
    PopTakes(s);
    assert Flight(s)[0] == ReconnectJob(attempt) && Flight(Popped(s)) == Flight(s)[1..];
    ShapeTakes(s.core.pl.phase, s.core.suspended, Flight(s));
    ResultKeeps(oracle, s, Popped(s), attempt, ok);
  }

  lemma AnswerDoneKeeps(s: Pipe, req: Request, response: Response)
    requires Inv(s) && s.posts != [] && s.posts[0] == Answer(req, response)
    ensures Inv(Respond(Popped(s), req, response))
  {
    hide Books, FlatMap, Log, Flight, Shape;
    var t := Popped(s);
    PopTakes(s);
    assert Flight(s)[0] == LiveJob(req) && Flight(t) == Flight(s)[1..];
    ShapeTakes(s.core.pl.phase, s.core.suspended, Flight(s));
    AnswerKeeps(s, t, req, response);
    SameQueues(t, Respond(t, req, response));
  }

  /** A post that reports no job can simply be taken off. */
  lemma PopKeeps(s: Pipe)
    requires Inv(s) && s.posts != [] && JobOf(s.posts[0]) == []
    ensures Inv(Popped(s))
  {
    PopTakes(s);
    assert Progressed(s, Popped(s)) by {
      assert Flight(s)[0..] == Flight(s) && Log(s) + [] == Log(s);
    }
    ProgressKeeps(s, Popped(s));
  }

  lemma PostKeeps(s: Pipe, p: Post)
    requires Inv(s) && JobOf(p) == []
    ensures Inv(s.(posts := s.posts + [p]))
  {
    PostProgresses(s, p);
    ProgressKeeps(s, s.(posts := s.posts + [p]));
  }

  /** The post of a finished suspend or resume reports the only thing in flight. */
  lemma PowerPostPhase(s: Pipe)
    requires Inv(s) && s.posts != []
    ensures s.posts[0].SuspendDone? ==> s.core.pl.phase == PL.Suspending
    ensures s.posts[0].ResumeDone? ==> s.core.pl.phase == PL.Resuming
  {
    hide Books, FlatMap;
    PopTakes(s);
    if s.posts[0].SuspendDone? {
      SuspendResultIsLast(s.core.pl.phase, s.core.suspended, Flight(s));
    } else if s.posts[0].ResumeDone? {
      ResumeResultIsAll(s.core.pl.phase, s.core.suspended, Flight(s));
    }
  }

  lemma DrainKeeps(oracle: Oracle, s: Pipe)
    requires Inv(s) && s.posts != []
    ensures Inv(RunPost(oracle, Popped(s), s.posts[0]))
  {
    hide Shaped, Books, SuspendFinished, ResumeFinished, ReconnectFinished, PowerRequest, Recover;
    match s.posts[0] {
      case SuspendDone => SuspendDoneKeeps(oracle, s);
      case ResumeDone(valid) => ResumeDoneKeeps(oracle, s, valid);
      case ReconnectDone(a, ok) => ReconnectDoneKeeps(oracle, s, a, ok);
      case Answer(req, response) => AnswerDoneKeeps(s, req, response);
      case ConnectionLost =>
        PopKeeps(s);
        RecoverKeeps(oracle, Popped(s), AR.ConnectionLost);
      case PowerSignal(kind) =>
        PopKeeps(s);
        PowerRequestKeeps(oracle, Popped(s), PL.Entry(kind, PL.DBus));
      case Observation(tvStandby) =>
        PopKeeps(s);
        PostKeeps(Popped(s), SuspendSystem);
      case ArmStandby =>
        PopKeeps(s);
        StandbyKeeps(Popped(s), s.standbyEnabled, true);
      case SuspendSystem =>
        PopKeeps(s);
        AutoSuspendKeeps(Popped(s));
    }
  }

  lemma AutoSuspendKeeps(s: Pipe)
    requires Inv(s)
    ensures Inv(s.(autoSuspends := s.autoSuspends + 1))
  {
    var r := s.(autoSuspends := s.autoSuspends + 1);
    SameQueues(s, r);
    ProgressKeeps(s, r);
  }

  // ---------------------------------------------------------------------
  // Timers and the worker
  // ---------------------------------------------------------------------

  lemma SafetyKeeps(oracle: Oracle, s: Pipe)
    requires Inv(s)
    ensures Inv(s.(core := OnSafetyTimerFired(oracle, s.core)))
  {
    SafetyEffect(oracle, s.core);
    ProgressKeeps(s, s.(core := OnSafetyTimerFired(oracle, s.core)));
  }

  lemma RetryKeeps(oracle: Oracle, s: Pipe)
    requires Inv(s)
    ensures Inv(s.(core := OnRetryTimerFired(oracle, s.core)))
  {
    RetryEffect(oracle, s.core);
    RecoverKeeps(oracle, s, AR.RetryTimerFired);
  }

  lemma RunJobKeeps(s: Pipe, ok: bool)
    requires Inv(s) && s.stage.Fetched?
    ensures Inv(RunJob(s, ok))
  {
    hide AdapterCalls;
    PerformProgresses(s, ok);
    ProgressKeeps(s, RunJob(s, ok));
  }

  lemma FinishKeeps(s: Pipe)
    requires Inv(s) && s.stage.Ran?
    ensures Inv(FinishJob(s))
  {
    FinishProgresses(s);
    ProgressKeeps(s, FinishJob(s));
  }

  lemma DequeueKeeps(s: Pipe)
    requires Inv(s) && s.stage == Resting && s.core.jobs != []
    ensures Inv(s.(stage := Fetched(s.core.jobs[0], false), core := s.core.(jobs := s.core.jobs[1..])))
  {
    hide Shape, Flight, Log, Alternates, Ordered, Answered, Conserved, Recovering;
    var r := s.(stage := Fetched(s.core.jobs[0], false), core := s.core.(jobs := s.core.jobs[1..]));
    WorkerProgresses(s, r);
    ProgressKeeps(s, r);
  }

  lemma ProbeKeeps(s: Pipe)
    requires Inv(s) && s.stage == Reopened
    ensures Inv(s.(stage := Ran(ResumeJob, s.core.connected)))
  {
    var r := s.(stage := Ran(ResumeJob, s.core.connected));
    WorkerProgresses(s, r);
    ProgressKeeps(s, r);
  }

  lemma ExpiryKeeps(s: Pipe, r: Pipe)
    requires Inv(s)
    requires || (r == s.(core := s.core.(safety := Expired)) && s.core.safety == Armed)
             || (r == s.(core := s.core.(rc := s.core.rc.(retry := Expired))) && s.core.rc.retry == Armed)
    ensures Inv(r)
  {
    ProgressKeeps(s, r);
  }

  lemma ReopeningKeeps(s: Pipe)
    requires Inv(s) && s.stage.Fetched?
    ensures Inv(s.(stage := s.stage.(closing := true), core := s.core.(connected := false)))
  {
    hide FlatMap, Shape;
    var r := s.(stage := s.stage.(closing := true), core := s.core.(connected := false));
    ReopeningProgresses(s, r);
    ProgressKeeps(s, r);
  }

  lemma CloseKeeps(s: Pipe)
    requires Inv(s)
    ensures Inv(s.(core := s.core.(connected := false)))
  {
    hide FlatMap, Shape;
    ProgressKeeps(s, s.(core := s.core.(connected := false)));
  }

  lemma AlertKeeps(s: Pipe)
    requires Inv(s)
    ensures Inv(s.(core := s.core.(connected := false), posts := s.posts + [ConnectionLost]))
  {
    hide Inv;
    CloseKeeps(s);
    PostKeeps(s.(core := s.core.(connected := false)), ConnectionLost);
  }

  lemma NextKeeps(oracle: Oracle, s: Pipe, step: Step)
    requires Inv(s) && Enabled(s, step)
    ensures Inv(Next(oracle, s, step))
  {
    hide Books, HandleCommand, RunPost, OnSafetyTimerFired, OnRetryTimerFired, RunJob, FinishJob;
    match step {
      case WireCommand(msg) => CommandKeeps(oracle, s, msg);
      case DrainOne => DrainKeeps(oracle, s);
      case SafetyTimer => SafetyKeeps(oracle, s);
      case RetryTimer => RetryKeeps(oracle, s);
      case SafetyExpires => ExpiryKeeps(s, s.(core := s.core.(safety := Expired)));
      case RetryExpires => ExpiryKeeps(s, s.(core := s.core.(rc := s.core.rc.(retry := Expired))));
      case Dequeue => DequeueKeeps(s);
      case Reopening => ReopeningKeeps(s);
      case Perform(ok) => RunJobKeeps(s, ok);
      case Probe => ProbeKeeps(s);
      case Finish => FinishKeeps(s);
      case Alert => AlertKeeps(s);
      case Observed(tvStandby) => PostKeeps(s, Observation(tvStandby));
      case BusSignal(kind) => PostKeeps(s, PowerSignal(kind));
    }
  }

  // ---------------------------------------------------------------------
  // Runs
  // ---------------------------------------------------------------------

  /** One scheduling choice; a step that is not enabled does nothing. */
  function Take(oracle: Oracle, s: Pipe, step: Step): (r: Pipe)
    requires s.core.rc.m.Valid()
    ensures r.core.rc.m.Valid()
  {
    if Enabled(s, step) then
      NextSound(oracle, s, step);
      Next(oracle, s, step)
    else s
  }

  lemma InvSound(s: Pipe)
    requires Inv(s)
    ensures s.core.rc.m.Valid()
  {
  }

  lemma TakeKeeps(oracle: Oracle, s: Pipe, step: Step)
    requires Inv(s)
    ensures Inv(Take(oracle, s, step))
  {
    hide Books, Next, Shape;
    if Enabled(s, step) {
      NextKeeps(oracle, s, step);
    }
  }

  lemma ScanCarriesNoWork(jobs: seq<Job>)
    requires jobs == [] || jobs == [ScanJob]
    ensures FlatMap(CommandId, jobs) == [] && FlatMap(ReplayOf, jobs) == []
    ensures FlatMap(LiveId, jobs) == [] && FlatMap(AttemptOf, jobs) == []
  {
  }

  lemma InitialFlight(s: Pipe)
    requires Initial(s)
    ensures Flight(s) == s.core.jobs && Log(s) == s.core.jobs
  {
    hide FlatMap;
    FlatMapNothing(JobOf, s.posts);
  }

  lemma InitialQueues(s: Pipe)
    requires Initial(s)
    ensures Flight(s) == s.core.jobs && Log(s) == s.core.jobs
    ensures Commands(s) == [] && Sinks(s) == multiset{} && Attempts(s) == []
    ensures FlatMap(ReplayOf, Log(s)) == []
  {
    hide FlatMap, Flight, Log;
    InitialFlight(s);
    ScanCarriesNoWork(s.core.jobs);
    FlatMapNothing(IdOf, s.parked);
    FlatMapNothing(ReplyId, s.replies);
  }

  lemma InitialKeeps(s: Pipe)
    requires Initial(s)
    ensures Inv(s)
  {
    hide Flight, Log, Commands, Sinks, Attempts;
    InitialQueues(s);
  }

  /** The state reached from `s0` by any sequence of scheduling choices. */
  function After(oracle: Oracle, s0: Pipe, steps: seq<Step>): (r: Pipe)
    requires s0.core.rc.m.Valid()
    ensures r.core.rc.m.Valid()
  {
    if steps == [] then s0 else Take(oracle, After(oracle, s0, steps[..|steps| - 1]), steps[|steps| - 1])
  }

  lemma {:induction false} InvFrom(oracle: Oracle, s0: Pipe, steps: seq<Step>)
    requires Inv(s0)
    ensures s0.core.rc.m.Valid() && Inv(After(oracle, s0, steps))
  {
    hide Inv, Take;
    InvSound(s0);
    if steps != [] {
      InvFrom(oracle, s0, steps[..|steps| - 1]);
      TakeKeeps(oracle, After(oracle, s0, steps[..|steps| - 1]), steps[|steps| - 1]);
    }
  }

  /** The invariant holds of every state of every run. */
  lemma AlwaysInv(oracle: Oracle, s0: Pipe, steps: seq<Step>)
    requires Initial(s0)
    ensures s0.core.rc.m.Valid() && Inv(After(oracle, s0, steps))
  {
    InitialKeeps(s0);
    InvFrom(oracle, s0, steps);
  }
}
