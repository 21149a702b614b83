/** Reconnect attempts outstanding: how each step changes them, and when there can be two. */
module PipelineAttempts {
  import opened Seqs
  import opened Wire
  import opened Supervisor
  import opened Pipeline
  import opened PipelineMoves
  import opened PipelineShape
  import opened PipelineInvariant
  import opened PipelineRuns
  import PL = Lifecycle
  import AR = Reconnect

  predicate Attempting(s: Pipe) { s.core.rc.m.state.Attempting? }

  /** At most one attempt is outstanding, and awake it is the one the machine waits for. */
  ghost predicate Clean(s: Pipe) {
    && |Attempts(s)| <= 1
    && (!s.core.suspended ==> Attempts(s) == if Attempting(s) then [s.core.rc.attempts] else [])
  }

  // ---------------------------------------------------------------------
  // Steps, by what they do to recovery
  // ---------------------------------------------------------------------

  /** The power request a step hands to the sequencer. */
  function Requests(s: Pipe, step: Step): Option<PL.Entry> {
    match step
    case WireCommand(msg) =>
      if msg.ty == CMD_SUSPEND then Some(PL.Entry(PL.Suspend, PL.Wire))
      else if msg.ty == CMD_RESUME then Some(PL.Entry(PL.Resume, PL.Wire))
      else None
    case DrainOne =>
      if s.posts != [] && s.posts[0].PowerSignal? then Some(PL.Entry(s.posts[0].kind, PL.DBus)) else None
    case _ => None
  }

  /** The event a step hands to the reconnect machine. */
  function Signals(s: Pipe, step: Step): Option<AR.Event> {
    match step
    case RetryTimer => Some(AR.RetryTimerFired)
    case DrainOne =>
      if s.posts == [] then None
      else if s.posts[0].ConnectionLost? then Some(AR.ConnectionLost)
      else if s.posts[0].ReconnectDone? then Some(if s.posts[0].ok then AR.AttemptSucceeded else AR.AttemptFailed)
      else None
    case _ => None
  }

  /** The step finishes a suspend or a resume. */
  predicate Completes(s: Pipe, step: Step) {
    step.DrainOne? && s.posts != [] && (s.posts[0].SuspendDone? || s.posts[0].ResumeDone?)
  }

  /** The step starts an attempt and finds the way to the worker open. */
  predicate Starts(s: Pipe, step: Step)
    requires s.core.rc.m.Valid()
  {
    && Signals(s, step).Some?
    && AR.Transition(s.core.rc.m, Signals(s, step).value).1.effect.StartAttempt?
    && s.core.Gate().Open?
  }

  predicate TakesResult(s: Pipe, step: Step) {
    step.DrainOne? && s.posts != [] && s.posts[0].ReconnectDone?
  }

  /** A resume is requested while awake, during an attempt. */
  predicate Cuts(s: Pipe, step: Step) {
    && !s.core.suspended && Attempting(s)
    && Requests(s, step).Some? && Requests(s, step).value.kind == PL.Resume
  }

  /** Nothing that concerns recovery changes. */
  ghost predicate SameRecovery(s: Pipe, r: Pipe) {
    && r.core.rc.m == s.core.rc.m && r.core.rc.attempts == s.core.rc.attempts
    && r.core.rc.abandoned == s.core.rc.abandoned && r.core.suspended == s.core.suspended
    && Attempts(r) == Attempts(s)
  }

  lemma CommandRecovery(oracle: Oracle, s: Pipe, msg: Message)
    requires s.core.rc.m.Valid() && msg.ty != CMD_SUSPEND && msg.ty != CMD_RESUME
    ensures
      var r := HandleCommand(oracle, s, msg);
      && r.posts == s.posts && r.stage == s.stage
      && r.core == s.core.(jobs := r.core.jobs)
      && (r.core.jobs == s.core.jobs || exists q :: r.core.jobs == s.core.jobs + [LiveJob(q)])
  {
    hide DispatchOf, PowerRequest;
    TableClassifies(msg.ty);
  }

  lemma LiveIsNoAttempt(s: Pipe, r: Pipe, q: Request)
    requires r.posts == s.posts && r.stage == s.stage && r.core.jobs == s.core.jobs + [LiveJob(q)]
    ensures Attempts(r) == Attempts(s)
  {
    hide FlatMap;
    assert Flight(r) == Flight(s) + [LiveJob(q)];
    FlatMapOne(AttemptOf, Flight(s), LiveJob(q));
  }

  lemma CommandSame(oracle: Oracle, s: Pipe, msg: Message)
    requires s.core.rc.m.Valid() && msg.ty != CMD_SUSPEND && msg.ty != CMD_RESUME
    ensures SameRecovery(s, HandleCommand(oracle, s, msg))
  {
    hide HandleCommand, FlatMap;
    CommandRecovery(oracle, s, msg);
    var r := HandleCommand(oracle, s, msg);
    if r.core.jobs != s.core.jobs {
      var q :| r.core.jobs == s.core.jobs + [LiveJob(q)];
      LiveIsNoAttempt(s, r, q);
    } else {
      assert Flight(r) == Flight(s);
    }
  }

  /** Off the main thread an attempt stays outstanding until its result is taken. */
  lemma ProgressSame(s: Pipe, r: Pipe)
    requires Progressed(s, r) && r.core.suspended == s.core.suspended
    requires r.core.rc.m == s.core.rc.m && r.core.rc.attempts == s.core.rc.attempts
    requires r.core.rc.abandoned == s.core.rc.abandoned
    ensures SameRecovery(s, r)
  {
    hide FlatMap, Log;
    if Flight(r) != Flight(s) {
      var k :| SilentAt(Flight(s), Flight(r), k);
      SilentProjections(Flight(s), Flight(r), k);
    }
  }

  lemma PostSame(s: Pipe, r: Pipe, p: Post)
    requires JobOf(p) == [] && r.posts == s.posts + [p] && r.stage == s.stage && r.core.jobs == s.core.jobs
    requires r.core.suspended == s.core.suspended && r.core.rc == s.core.rc
    ensures SameRecovery(s, r)
  {
    hide FlatMap;
    PostProgresses(s, p);
    assert Flight(r) == Flight(s.(posts := s.posts + [p]));
  }

  lemma PerformSame(s: Pipe, ok: bool)
    requires s.stage.Fetched?
    ensures SameRecovery(s, RunJob(s, ok))
  {
    hide AdapterCalls;
    PerformProgresses(s, ok);
    ProgressSame(s, RunJob(s, ok));
  }

  lemma FinishSame(s: Pipe)
    requires s.stage.Ran?
    ensures SameRecovery(s, FinishJob(s))
  {
    FinishProgresses(s);
    ProgressSame(s, FinishJob(s));
  }

  lemma WorkerSame(s: Pipe, r: Pipe)
    requires r.posts == s.posts && r.ran == s.ran && r.core.rc == s.core.rc && r.core.suspended == s.core.suspended
    requires
      || (s.stage == Resting && s.core.jobs != []
          && r.stage == Fetched(s.core.jobs[0], false) && r.core.jobs == s.core.jobs[1..])
      || (s.stage == Reopened && r.stage.Ran? && r.stage.job == ResumeJob && r.core.jobs == s.core.jobs)
      || (s.stage.Fetched? && r.stage == s.stage.(closing := true) && r.core.jobs == s.core.jobs)
    ensures SameRecovery(s, r)
  {
    if s.stage.Fetched? {
      ReopeningProgresses(s, r);
    } else {
      WorkerProgresses(s, r);
    }
    ProgressSame(s, r);
  }

  /** A closure that neither requests, signals nor completes anything. */
  lemma ClosureSame(oracle: Oracle, s: Pipe)
    requires s.core.rc.m.Valid() && s.posts != []
    requires s.posts[0].Answer? || s.posts[0].Observation? || s.posts[0].ArmStandby? || s.posts[0].SuspendSystem?
    ensures SameRecovery(s, RunPost(oracle, Popped(s), s.posts[0]))
  {
    hide FlatMap, Log;
    var t := Popped(s);
    var r := RunPost(oracle, t, s.posts[0]);
    PopTakes(s);
    var took := JobOf(s.posts[0]);
    ProjectionsFollow(s, t, took, []);
    NoAttemptTaken(s.posts[0]);
    FlatMapNothing(AttemptOf, []);
    assert Attempts(t) == Attempts(s);
    if r.posts == t.posts {
      assert Flight(r) == Flight(t);
    } else {
      PostSame(t, r, SuspendSystem);
    }
  }

  lemma NoAttemptTaken(p: Post)
    requires !p.ReconnectDone?
    ensures FlatMap(AttemptOf, JobOf(p)) == []
  {
  }

  lemma SafetySame(oracle: Oracle, s: Pipe)
    requires Rested(s.core)
    ensures SameRecovery(s, s.(core := OnSafetyTimerFired(oracle, s.core)))
  {
    hide FlatMap, OnSafetyTimerFired;
    SafetyEffect(oracle, s.core);
    var r := s.(core := OnSafetyTimerFired(oracle, s.core));
    assert Flight(r) == Flight(s);
  }

  lemma ExpirySame(s: Pipe, r: Pipe)
    requires r.posts == s.posts && r.stage == s.stage && r.core.jobs == s.core.jobs
    requires r.core.rc.m == s.core.rc.m && r.core.rc.attempts == s.core.rc.attempts
    requires r.core.rc.abandoned == s.core.rc.abandoned && r.core.suspended == s.core.suspended
    ensures SameRecovery(s, r)
  {
    SameFlight(s, r);
  }

  lemma WorkerStepSame(oracle: Oracle, s: Pipe, step: Step)
    requires s.core.rc.m.Valid() && Enabled(s, step)
    requires step.Dequeue? || step.Reopening? || step.Perform? || step.Probe? || step.Finish?
    ensures SameRecovery(s, Next(oracle, s, step))
  {
    hide Attempts, SameRecovery, RunJob, FinishJob, AR.Machine.Valid, Reopens;
    var r := Next(oracle, s, step);
    if step.Perform? {
      PerformSame(s, step.ok);
    } else if step.Finish? {
      FinishSame(s);
    } else {
      WorkerSame(s, r);
    }
  }

  lemma OutsideStepSame(oracle: Oracle, s: Pipe, step: Step)
    requires s.core.rc.m.Valid() && Enabled(s, step)
    requires step.SafetyExpires? || step.RetryExpires? || step.Alert? || step.Observed? || step.BusSignal?
    ensures SameRecovery(s, Next(oracle, s, step))
  {
    hide Attempts, SameRecovery, AR.Machine.Valid;
    var r := Next(oracle, s, step);
    match step {
      case Alert => PostSame(s, r, ConnectionLost);
      case Observed(tvStandby) => PostSame(s, r, Observation(tvStandby));
      case BusSignal(kind) => PostSame(s, r, PowerSignal(kind));
      case _ => ExpirySame(s, r);
    }
  }

  /** Whatever is neither a power request, a completion nor an event for the machine leaves recovery alone. */
  lemma OtherSame(oracle: Oracle, s: Pipe, step: Step)
    requires Inv(s) && Enabled(s, step)
    requires Requests(s, step).None? && Signals(s, step).None? && !Completes(s, step)
    ensures SameRecovery(s, Next(oracle, s, step))
  {
    hide Books, Shape, Attempts, SameRecovery, HandleCommand, RunPost, OnSafetyTimerFired, RunJob, FinishJob;
    if step.WireCommand? {
      CommandSame(oracle, s, step.msg);
    } else if step.DrainOne? {
      ClosureSame(oracle, s);
    } else if step.SafetyTimer? {
      SafetySame(oracle, s);
    } else if step.SafetyExpires? || step.RetryExpires? || step.Alert? || step.Observed? || step.BusSignal? {
      OutsideStepSame(oracle, s, step);
    } else {
      WorkerStepSame(oracle, s, step);
    }
  }

  lemma SameFlight(s: Pipe, r: Pipe)
    requires r.posts == s.posts && r.stage == s.stage && r.core.jobs == s.core.jobs
    ensures Attempts(r) == Attempts(s)
  {
    hide FlatMap;
    assert Flight(r) == Flight(s);
  }

  // ---------------------------------------------------------------------
  // Events for the reconnect machine
  // ---------------------------------------------------------------------

  /** What one event does: the attempt it started joins those outstanding; a result taken leaves them. */
  ghost predicate Stepped(s: Pipe, r: Pipe, e: AR.Event, took: seq<nat>, gave: seq<Job>)
    requires s.core.rc.m.Valid()
  {
    && r.core.suspended == s.core.suspended
    && took <= Attempts(s)
    && Attempts(r) == Attempts(s)[|took|..] + (if gave == [] then [] else [s.core.rc.attempts + 1])
    && r.core.rc.attempts == s.core.rc.attempts
         + (if AR.Transition(s.core.rc.m, e).1.effect.StartAttempt? then 1 else 0)
    && (Attempting(r) <==> gave != [] || (Attempting(s) && e in {AR.ConnectionLost, AR.RetryTimerFired}))
  }

  lemma SignalSteps(oracle: Oracle, s: Pipe, t: Pipe, e: AR.Event, took: seq<Job>)
    requires Shaped(t) && t.core == s.core && Exchanged(s, t, took, [])
    requires |took| <= 1 && (took != [] ==> took[0].ReconnectJob?)
    requires e in {AR.ConnectionLost, AR.RetryTimerFired, AR.AttemptSucceeded, AR.AttemptFailed}
    ensures
      var r := t.(core := Recover(oracle, t.core, e));
      var started := AR.Transition(s.core.rc.m, e).1.effect.StartAttempt?;
      Stepped(s, r, e, if took == [] then [] else [took[0].attempt],
              if started && s.core.Gate().Open? then [ReconnectJob(s.core.rc.attempts + 1)] else [])
  {
    hide FlatMap, Flight, Log, Shape, Recover;
    var gave := RecoveryGives(oracle, t, e);
    var r := t.(core := Recover(oracle, t.core, e));
    ThenGive(s, t, r, took, gave);
    AttemptProjections(s, r, took, gave);
  }

  lemma ResultSteps(oracle: Oracle, s: Pipe)
    requires Inv(s) && s.posts != [] && s.posts[0].ReconnectDone?
    ensures
      var e := if s.posts[0].ok then AR.AttemptSucceeded else AR.AttemptFailed;
      Stepped(s, ReconnectFinished(oracle, Popped(s), s.posts[0].ok), e, [s.posts[0].attempt], [])
  {
    hide Books, FlatMap, Flight, Log, Shape, Recover, Stepped;
    var t := Popped(s);
    PopTakes(s);
    assert Flight(s)[0] == ReconnectJob(s.posts[0].attempt) && Flight(t) == Flight(s)[1..];
    ShapeTakes(s.core.pl.phase, s.core.suspended, Flight(s));
    SignalSteps(oracle, s, t, if s.posts[0].ok then AR.AttemptSucceeded else AR.AttemptFailed,
                [ReconnectJob(s.posts[0].attempt)]);
  }

  lemma LossSteps(oracle: Oracle, s: Pipe)
    requires Inv(s) && s.posts != [] && s.posts[0].ConnectionLost?
    ensures
      var started := AR.Transition(s.core.rc.m, AR.ConnectionLost).1.effect.StartAttempt?;
      Stepped(s, Popped(s).(core := Recover(oracle, s.core, AR.ConnectionLost)), AR.ConnectionLost, [],
              if started && s.core.Gate().Open? then [ReconnectJob(s.core.rc.attempts + 1)] else [])
  {
    hide Books, FlatMap, Flight, Log, Recover, Stepped;
    PopKeeps(s);
    PopTakes(s);
    SignalSteps(oracle, s, Popped(s), AR.ConnectionLost, []);
  }

  lemma RetrySteps(oracle: Oracle, s: Pipe)
    requires Inv(s)
    ensures
      var started := AR.Transition(s.core.rc.m, AR.RetryTimerFired).1.effect.StartAttempt?;
      Stepped(s, s.(core := OnRetryTimerFired(oracle, s.core)), AR.RetryTimerFired, [],
              if started && s.core.Gate().Open? then [ReconnectJob(s.core.rc.attempts + 1)] else [])
  {
    hide Books, FlatMap, Log, Recover, Stepped, OnRetryTimerFired;
    RetryEffect(oracle, s.core);
    assert Exchanged(s, s, [], []) by {
      assert Flight(s)[0..] + [] == Flight(s) && Log(s) + [] == Log(s) && s.core.jobs + [] == s.core.jobs;
    }
    SignalSteps(oracle, s, s, AR.RetryTimerFired, []);
  }

  lemma EventSteps(oracle: Oracle, s: Pipe, step: Step)
    requires Inv(s) && Enabled(s, step) && Signals(s, step).Some?
    ensures
      Stepped(s, Next(oracle, s, step), Signals(s, step).value,
              if TakesResult(s, step) then [s.posts[0].attempt] else [],
              if Starts(s, step) then [ReconnectJob(s.core.rc.attempts + 1)] else [])
  {
    hide Books, Shape, Flight, FlatMap, Recover, Stepped, ReconnectFinished, OnRetryTimerFired;
    if step.RetryTimer? {
      RetrySteps(oracle, s);
    } else if s.posts[0].ConnectionLost? {
      LossSteps(oracle, s);
    } else {
      ResultSteps(oracle, s);
    }
  }

  // ---------------------------------------------------------------------
  // Power requests and completions
  // ---------------------------------------------------------------------

  /** The sequencer has moved: no attempt changes hands, and none is begun. */
  ghost predicate Sequences(s: Pipe, r: Pipe) {
    && Attempts(r) == Attempts(s) && r.core.rc.attempts == s.core.rc.attempts
    && (Attempting(r) ==> Attempting(s))
  }

  lemma RequestSequenced(oracle: Oracle, s: Pipe, e: PL.Entry)
    requires Inv(s)
    ensures
      var r := PowerRequest(oracle, s, e);
      && Sequences(s, r)
      && (s.core.suspended ==> r.core.suspended)
      && (!s.core.suspended ==> !Attempting(r) && (r.core.suspended <==> e.kind == PL.Suspend))
  {
    hide FlatMap, Log, Books, Flight;
    var gave := RequestSequences(oracle, s, e);
    var r := PowerRequest(oracle, s, e);
    PowerIsNoWork(s, r, [], gave);
    if !s.core.suspended {
      RequestEffect(oracle, s.core, e);
    }
  }

  lemma CommandSequenced(oracle: Oracle, s: Pipe, msg: Message)
    requires Inv(s) && Requests(s, WireCommand(msg)).Some?
    ensures
      var r := HandleCommand(oracle, s, msg);
      var e := Requests(s, WireCommand(msg)).value;
      var u := PowerRequest(oracle, s, e);
      && r == u.(nextId := r.nextId, replies := r.replies) && Attempts(r) == Attempts(u)
  {
    hide Books, Shape, FlatMap, Flight, DispatchOf, Requested;
    TableClassifies(msg.ty);
    var e := Requests(s, WireCommand(msg)).value;
    var t := s.(nextId := s.nextId + 1);
    assert PowerRequest(oracle, t, e) == PowerRequest(oracle, s, e).(nextId := s.nextId + 1);
    SameFlight(PowerRequest(oracle, s, e), HandleCommand(oracle, s, msg));
  }

  lemma SignalSequenced(oracle: Oracle, s: Pipe)
    requires Inv(s) && s.posts != [] && s.posts[0].PowerSignal?
    ensures
      var e := PL.Entry(s.posts[0].kind, PL.DBus);
      var r := PowerRequest(oracle, Popped(s), e);
      && Sequences(s, r)
      && (s.core.suspended ==> r.core.suspended)
      && (!s.core.suspended ==> !Attempting(r) && (r.core.suspended <==> e.kind == PL.Suspend))
  {
    hide Inv, FlatMap, Log, Flight, PowerRequest;
    PopKeeps(s);
    PopTakes(s);
    ProjectionsFollow(s, Popped(s), [], []);
    FlatMapNothing(AttemptOf, []);
    RequestSequenced(oracle, Popped(s), PL.Entry(s.posts[0].kind, PL.DBus));
  }

  lemma RequestSteps(oracle: Oracle, s: Pipe, step: Step)
    requires Inv(s) && Enabled(s, step) && Requests(s, step).Some?
    ensures
      var r := Next(oracle, s, step);
      && Sequences(s, r)
      && (s.core.suspended ==> r.core.suspended)
      && (!s.core.suspended ==>
            !Attempting(r) && (r.core.suspended <==> Requests(s, step).value.kind == PL.Suspend))
  {
    hide Inv, FlatMap, Log, Flight, PowerRequest, HandleCommand, Attempts;
    InvSound(s);
    if step.WireCommand? {
      CommandSequenced(oracle, s, step.msg);
      RequestSequenced(oracle, s, Requests(s, step).value);
    } else {
      SignalSequenced(oracle, s);
    }
  }

  /** A suspend or a resume comes back when nothing else is in flight. */
  lemma CompletionSteps(oracle: Oracle, s: Pipe, step: Step)
    requires Inv(s) && Enabled(s, step) && Completes(s, step)
    ensures
      var r := Next(oracle, s, step);
      Attempts(r) == [] && !Attempting(r)
  {
    hide FlatMap, Flight, Log, Shape, SuspendFinished, ResumeFinished;
    var t := Popped(s);
    CompletionIsAll(s);
    if s.posts[0].SuspendDone? {
      var gave := SuspendFinishes(oracle, t);
      OnlyPower(t, SuspendFinished(oracle, t), gave);
    } else {
      var gave := ResumeFinishes(oracle, t, s.posts[0].valid);
      ResolvedAttempts(t, s.posts[0].valid);
      OnlyPower(Resolve(t, s.posts[0].valid), ResumeFinished(oracle, t, s.posts[0].valid), gave);
    }
  }

  /** When a suspend or a resume comes back, nothing else is in flight and no attempt is awaited. */
  lemma CompletionIsAll(s: Pipe)
    requires Inv(s) && s.posts != [] && (s.posts[0].SuspendDone? || s.posts[0].ResumeDone?)
    ensures Flight(Popped(s)) == [] && Attempts(s) == [] && Attempts(Popped(s)) == [] && !Attempting(s)
    ensures s.core.suspended
    ensures s.core.pl.phase == if s.posts[0].SuspendDone? then PL.Suspending else PL.Resuming
  {
    hide Log, Alternates, Ordered, Answered, Conserved, ClosedAsleep;
    PopTakes(s);
    if s.posts[0].SuspendDone? {
      SuspendResultIsLast(s.core.pl.phase, s.core.suspended, Flight(s));
    } else {
      ResumeResultIsAll(s.core.pl.phase, s.core.suspended, Flight(s));
    }
    PowerCarriesNoWork(Flight(s));
    PowerCarriesNoWork([]);
  }

  lemma OnlyPower(t: Pipe, r: Pipe, gave: seq<Job>)
    requires Exchanged(t, r, [], gave) && PowerMove(t.core, r.core, gave)
    requires Attempts(t) == [] && !Attempting(t)
    ensures Attempts(r) == [] && !Attempting(r)
  {
    hide FlatMap, Flight, Log;
    PowerIsNoWork(t, r, [], gave);
  }

  lemma ResolvedAttempts(t: Pipe, valid: bool)
    requires Flight(t) == []
    ensures Attempts(Resolve(t, valid)) == []
  {
    hide FlatMap;
    var replays := if valid then Replays(t.parked) else [];
    ResolveGives(t, valid);
    ResolvedMaps(t.parked, valid);
    FlatMapNothing(AttemptOf, []);
    assert Flight(Resolve(t, valid)) == replays;
  }

  // ---------------------------------------------------------------------
  // When there can be two
  // ---------------------------------------------------------------------

  /** The attempts outstanding after any step: a started one joins at the end, a result taken leaves from the front. */
  lemma AttemptsEvolve(oracle: Oracle, s: Pipe, step: Step)
    requires Inv(s) && Enabled(s, step)
    ensures s.core.rc.m.Valid()
    ensures
      var kept := if TakesResult(s, step) && Attempts(s) != [] then Attempts(s)[1..] else Attempts(s);
      Attempts(Next(oracle, s, step)) == kept + if Starts(s, step) then [s.core.rc.attempts + 1] else []
  {
    hide Books, Shape, Flight, FlatMap, Next, Attempts;
    assert Attempts(s) + [] == Attempts(s);
    if Signals(s, step).Some? {
      EventSteps(oracle, s, step);
      assert Attempts(s)[0..] == Attempts(s);
    } else if Requests(s, step).Some? {
      RequestSteps(oracle, s, step);
    } else if Completes(s, step) {
      CompletionSteps(oracle, s, step);
      CompletionIsAll(s);
    } else {
      OtherSame(oracle, s, step);
    }
  }

  /**
   * A second attempt comes to be outstanding exactly when one is started
   * through an open gate while another is outstanding that is no longer
   * awaited.
   */
  lemma SecondAttemptExactly(oracle: Oracle, s: Pipe, step: Step)
    requires Inv(s) && Enabled(s, step) && |Attempts(s)| <= 1
    ensures s.core.rc.m.Valid()
    ensures |Attempts(Next(oracle, s, step))| == 2 <==> Attempts(s) != [] && !Attempting(s) && Starts(s, step)
  {
    hide Books, Shape, Next, Attempts;
    AttemptsEvolve(oracle, s, step);
  }

  /**
   * As long as the one attempt outstanding is the awaited one, the next step
   * keeps it so exactly if it is not a resume requested while awake, during
   * an attempt.
   */
  lemma CleanExactly(oracle: Oracle, s: Pipe, step: Step)
    requires Inv(s) && Enabled(s, step) && Clean(s)
    ensures s.core.rc.m.Valid()
    ensures Clean(Next(oracle, s, step)) <==> !Cuts(s, step)
  {
    hide Books, Shape, Next, Attempts;
    AttemptsEvolve(oracle, s, step);
    if Signals(s, step).Some? {
      EventSteps(oracle, s, step);
    } else if Requests(s, step).Some? {
      RequestSteps(oracle, s, step);
    } else if Completes(s, step) {
      CompletionSteps(oracle, s, step);
    } else {
      OtherSame(oracle, s, step);
    }
  }

  /** A cut leaves the attempt outstanding and nobody waiting for it; the next one started joins it. */
  lemma CutOrphans(oracle: Oracle, s: Pipe, step: Step)
    requires Inv(s) && Enabled(s, step) && Clean(s) && Cuts(s, step)
    ensures s.core.rc.m.Valid()
    ensures
      var r := Next(oracle, s, step);
      !r.core.suspended && !Attempting(r) && Attempts(r) == [s.core.rc.attempts]
  {
    hide Books, Shape, Next, Attempts;
    RequestSteps(oracle, s, step);
  }

  /** With nothing outstanding, all is clean again, whatever went before. */
  lemma DrainedIsClean(s: Pipe)
    requires Inv(s) && Attempts(s) == []
    ensures Clean(s)
  {
    hide Ordered, Answered, Conserved, Alternates, ClosedAsleep, Shape, FlatMap, Flight;
  }

  /** A finished suspend or resume leaves nothing outstanding. */
  lemma CompletionIsClean(oracle: Oracle, s: Pipe, step: Step)
    requires Inv(s) && Enabled(s, step) && Completes(s, step)
    ensures s.core.rc.m.Valid() && Clean(Next(oracle, s, step))
  {
    hide Books, Shape, Next, Attempts;
    CompletionSteps(oracle, s, step);
  }

  /** No resume cuts an attempt in the course of the run. */
  predicate NeverCut(oracle: Oracle, s: Pipe, steps: seq<Step>)
    requires s.core.rc.m.Valid()
  {
    steps == []
    || (NeverCut(oracle, s, steps[..|steps| - 1]) && !Cuts(After(oracle, s, steps[..|steps| - 1]), steps[|steps| - 1]))
  }

  /**
   * From any state in which the one attempt outstanding is the awaited one,
   * such as the first, or any with none outstanding: as long as no resume is
   * requested while awake during an attempt, there is never a second one, and
   * a result taken while one is awaited is the awaited one's.
   */
  lemma {:induction false} AttemptsStaySingle(oracle: Oracle, s0: Pipe, steps: seq<Step>)
    requires Inv(s0) && Clean(s0)
    ensures s0.core.rc.m.Valid()
    ensures NeverCut(oracle, s0, steps) ==>
              var s := After(oracle, s0, steps);
              && Clean(s) && |Attempts(s)| <= 1
              && (Attempting(s) && s.posts != [] && s.posts[0].ReconnectDone? ==>
                    s.posts[0].attempt == s.core.rc.attempts)
  {
    hide Inv, Clean, Cuts, Take, Attempts;
    InvFrom(oracle, s0, steps);
    if steps != [] {
      var before := After(oracle, s0, steps[..|steps| - 1]);
      AttemptsStaySingle(oracle, s0, steps[..|steps| - 1]);
      InvFrom(oracle, s0, steps[..|steps| - 1]);
      if NeverCut(oracle, s0, steps) {
        TakeClean(oracle, before, steps[|steps| - 1]);
      }
    }
    var s := After(oracle, s0, steps);
    if NeverCut(oracle, s0, steps) {
      AwaitedResult(s);
    }
  }

  lemma TakeClean(oracle: Oracle, s: Pipe, step: Step)
    requires Inv(s) && Clean(s) && !Cuts(s, step)
    ensures s.core.rc.m.Valid() && Clean(Take(oracle, s, step))
  {
    hide Books, Shape, Next, Clean, Cuts;
    if Enabled(s, step) {
      CleanExactly(oracle, s, step);
    }
  }

  lemma AwaitedResult(s: Pipe)
    requires Inv(s) && Clean(s)
    ensures |Attempts(s)| <= 1
    ensures Attempting(s) && s.posts != [] && s.posts[0].ReconnectDone? ==> s.posts[0].attempt == s.core.rc.attempts
  {
    hide Ordered, Answered, Conserved, Alternates, ClosedAsleep, Shape, FlatMap, Flight, Log;
    if s.posts != [] && s.posts[0].ReconnectDone? {
      PopTakes(s);
      AttemptProjections(s, Popped(s), JobOf(s.posts[0]), []);
    }
  }

  lemma InitialClean(s: Pipe)
    requires Initial(s)
    ensures Inv(s) && Clean(s)
  {
    hide Inv, Attempts;
    InitialQueues(s);
    InitialKeeps(s);
  }
}
