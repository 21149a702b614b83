/** Left alone, the pipeline drains: a bound on the steps it still has to take. */
module PipelineDrain {
  import opened Seqs
  import opened Supervisor
  import opened Timers
  import opened Pipeline
  import opened PipelineMoves
  import opened PipelineShape
  import opened PipelineInvariant
  import opened PipelineRuns
  import PL = Lifecycle
  import AR = Reconnect

  /** Steps the daemon takes by itself: no command, no bus or adapter event, no timer. */
  predicate Internal(step: Step) {
    step.DrainOne? || step.Dequeue? || step.Reopening? || step.Perform? || step.Probe? || step.Finish?
  }

  /** A job in the queue is dequeued, closed, run, probed, finished and its post handled: six steps at most. */
  function CoreCost(c: Core): nat {
    7 * |c.pl.pending| + 6 * |c.jobs|
  }

  function StageCost(st: Stage): nat {
    match st
    case Resting => 0
    case Fetched(_, closing) => if closing then 4 else 5
    case Reopened => 3
    case Ran(_, _) => 2
  }

  function PostCost(p: Post): nat {
    match p
    case ConnectionLost => 7
    case PowerSignal(_) => 8
    case Observation(_) => 2
    case _ => 1
  }

  function PostsCost(ps: seq<Post>): nat {
    if ps == [] then 0 else PostsCost(ps[..|ps| - 1]) + PostCost(ps[|ps| - 1])
  }

  function Measure(s: Pipe): nat {
    CoreCost(s.core) + 7 * |s.parked| + StageCost(s.stage) + PostsCost(s.posts)
  }

  lemma {:induction false} PostsCostConcat(ps: seq<Post>, qs: seq<Post>)
    ensures PostsCost(ps + qs) == PostsCost(ps) + PostsCost(qs)
  {
    if qs == [] {
      assert ps + qs == ps;
    } else {
      var last := |qs| - 1;
      assert (ps + qs)[..|ps| + last] == ps + qs[..last];
      PostsCostConcat(ps, qs[..last]);
    }
  }

  lemma PopCost(s: Pipe)
    requires s.posts != []
    ensures Measure(Popped(s)) == Measure(s) - PostCost(s.posts[0])
  {
    assert s.posts == [s.posts[0]] + s.posts[1..];
    PostsCostConcat([s.posts[0]], s.posts[1..]);
    assert [s.posts[0]][..0] == [];
  }

  /** Whatever the sequencer starts, it paid for by leaving the pending queue. */
  lemma SettledCost(c: Core, r: Core)
    requires AtRest(c) && Settled(c, r)
    ensures CoreCost(r) <= CoreCost(c)
  {
  }

  lemma RequestCost(oracle: Oracle, s: Pipe, e: PL.Entry)
    requires Rested(s.core)
    ensures Measure(PowerRequest(oracle, s, e)) <= Measure(s) + 7
  {
    hide Settled, Requested;
    RequestEffect(oracle, s.core, e);
    if s.core.pl.phase == PL.Idle {
      SettledCost(s.core.(pl := PL.Requested(s.core.pl, e)), Requested(oracle, s.core, e));
    }
  }

  lemma SuspendCompletedCost(oracle: Oracle, c: Core)
    requires Rested(c) && c.pl.phase == PL.Suspending
    ensures CoreCost(OnSuspendCompleted(oracle, c)) <= CoreCost(c)
  {
    hide Settled, OnSuspendCompleted;
    SuspendCompletedEffect(oracle, c);
    var (m, out) := PL.SuspendCompleted(c.pl);
    var q := c.(pl := m, safety := Off,
                locks := c.locks + if c.monitored && out.lock.Some? then [out.lock.value] else []);
    SettledCost(q, OnSuspendCompleted(oracle, c));
  }

  lemma ResumeCompletedCost(oracle: Oracle, c: Core, valid: bool)
    requires Rested(c) && c.pl.phase == PL.Resuming
    ensures CoreCost(OnResumeCompleted(oracle, c, valid)) <= CoreCost(c)
  {
    hide Settled, OnResumeCompleted;
    ResumeCompletedEffect(oracle, c, valid);
    var (m, out) := PL.ResumeCompleted(c.pl);
    var q := c.(pl := m, locks := c.locks + if c.monitored && out.lock.Some? then [out.lock.value] else []);
    SettledCost(q, OnResumeCompleted(oracle, c, valid));
  }

  lemma SuspendFinishedCost(oracle: Oracle, s: Pipe)
    requires Rested(s.core) && s.core.pl.phase == PL.Suspending
    ensures Measure(SuspendFinished(oracle, s)) <= Measure(s)
  {
    hide CoreCost, OnSuspendCompleted, Rested;
    SuspendCompletedCost(oracle, s.core);
  }

  lemma ResolveCost(s: Pipe, valid: bool)
    ensures Measure(Resolve(s, valid)) <= Measure(s)
  {
  }

  lemma ResumeFinishedCost(oracle: Oracle, s: Pipe, valid: bool)
    requires Rested(s.core) && s.core.pl.phase == PL.Resuming
    ensures Measure(ResumeFinished(oracle, s, valid)) <= Measure(s)
  {
    hide OnResumeCompleted;
    var t := Resolve(s, valid);
    assert Rested(t.core);
    ResolveCost(s, valid);
    ResumeStepCost(oracle, t, valid);
  }

  lemma ResumeStepCost(oracle: Oracle, t: Pipe, valid: bool)
    requires Rested(t.core) && t.core.pl.phase == PL.Resuming
    ensures Measure(WithCore(t, t.core, OnResumeCompleted(oracle, t.core, valid))) <= Measure(t)
  {
    hide CoreCost, OnResumeCompleted, Rested;
    ResumeCompletedCost(oracle, t.core, valid);
  }

  lemma RecoverCost(oracle: Oracle, s: Pipe, e: AR.Event)
    requires Rested(s.core) && e != AR.TimerArmFailed
    ensures Measure(s.(core := Recover(oracle, s.core, e)))
         <= Measure(s) + (if e in {AR.AttemptSucceeded, AR.AttemptFailed} then 0 else 6)
  {
    SignalEffect(oracle, s.core.rc, s.core.Gate(), e);
  }

  lemma StandbyPostCost(s: Pipe)
    ensures Measure(s.(posts := s.posts + [SuspendSystem])) == Measure(s) + 1
  {
    PostsCostConcat(s.posts, [SuspendSystem]);
    assert [SuspendSystem][..0] == [];
  }

  lemma PostIsPaidFor(oracle: Oracle, s: Pipe)
    requires Inv(s) && s.posts != []
    ensures Measure(RunPost(oracle, Popped(s), s.posts[0])) < Measure(s)
  {
    hide Books, Shape, Flight, SuspendFinished, ResumeFinished, PowerRequest, Signal;
    var t := Popped(s);
    PopCost(s);
    PowerPostPhase(s);
    match s.posts[0] {
      case SuspendDone => SuspendFinishedCost(oracle, t);
      case ResumeDone(valid) => ResumeFinishedCost(oracle, t, valid);
      case ReconnectDone(_, ok) => RecoverCost(oracle, t, if ok then AR.AttemptSucceeded else AR.AttemptFailed);
      case ConnectionLost => RecoverCost(oracle, t, AR.ConnectionLost);
      case PowerSignal(kind) => RequestCost(oracle, t, PL.Entry(kind, PL.DBus));
      case Observation(_) => StandbyPostCost(t);
      case _ =>
    }
  }

  lemma PerformIsPaidFor(s: Pipe, ok: bool)
    requires s.stage.Fetched?
    ensures Measure(RunJob(s, ok)) < Measure(s)
  {
    hide AdapterCalls;
  }

  lemma CompletionCost(job: Job, ok: bool)
    ensures PostsCost(Completion(job, ok)) <= 1
  {
    var posted := Completion(job, ok);
    assert posted != [] ==> posted[..0] == [] && PostCost(posted[0]) == 1;
  }

  lemma FinishIsPaidFor(s: Pipe)
    requires s.stage.Ran?
    ensures Measure(FinishJob(s)) < Measure(s)
  {
    hide Completion, PostsCost;
    CompletionCost(s.stage.job, s.stage.ok);
    PostsCostConcat(s.posts, Completion(s.stage.job, s.stage.ok));
  }

  lemma DequeueIsPaidFor(s: Pipe)
    requires s.stage == Resting && s.core.jobs != []
    ensures Measure(s.(stage := Fetched(s.core.jobs[0], false), core := s.core.(jobs := s.core.jobs[1..]))) < Measure(s)
  {
  }

  lemma ReopeningIsPaidFor(s: Pipe)
    requires s.stage.Fetched? && !s.stage.closing
    ensures Measure(s.(stage := s.stage.(closing := true), core := s.core.(connected := false))) < Measure(s)
  {
  }

  lemma ProbeIsPaidFor(s: Pipe, valid: bool)
    requires s.stage == Reopened
    ensures Measure(s.(stage := Ran(ResumeJob, valid))) < Measure(s)
  {
  }

  /** Every internal step makes progress. */
  lemma InternalStepDecreases(oracle: Oracle, s: Pipe, step: Step)
    requires Inv(s) && Internal(step) && Enabled(s, step)
    ensures Measure(Next(oracle, s, step)) < Measure(s)
  {
    hide Books, RunPost, RunJob, FinishJob, Measure;
    match step {
      case DrainOne => PostIsPaidFor(oracle, s);
      case Dequeue => DequeueIsPaidFor(s);
      case Perform(ok) => PerformIsPaidFor(s, ok);
      case Reopening => ReopeningIsPaidFor(s);
      case Probe => ProbeIsPaidFor(s, s.core.connected);
      case Finish => FinishIsPaidFor(s);
    }
  }

  /** Every step is enabled when its turn comes. */
  predicate Runs(oracle: Oracle, s: Pipe, steps: seq<Step>)
    requires s.core.rc.m.Valid()
    decreases |steps|
  {
    steps == [] || (Enabled(s, steps[0]) && Runs(oracle, Take(oracle, s, steps[0]), steps[1..]))
  }

  function End(oracle: Oracle, s: Pipe, steps: seq<Step>): Pipe
    requires s.core.rc.m.Valid()
    decreases |steps|
  {
    if steps == [] then s else End(oracle, Take(oracle, s, steps[0]), steps[1..])
  }

  /** However the threads are scheduled, at most `Measure(s)` internal steps can follow. */
  lemma {:induction false} InternalRunsAreBounded(oracle: Oracle, s: Pipe, steps: seq<Step>)
    requires Inv(s) && Runs(oracle, s, steps)
    requires forall i :: 0 <= i < |steps| ==> Internal(steps[i])
    ensures |steps| + Measure(End(oracle, s, steps)) <= Measure(s)
    decreases |steps|
  {
    hide Inv, Take, Measure, Enabled;
    InvSound(s);
    if steps != [] {
      TakeDecreases(oracle, s, steps[0]);
      TakeKeeps(oracle, s, steps[0]);
      InternalRunsAreBounded(oracle, Take(oracle, s, steps[0]), steps[1..]);
    }
  }

  lemma TakeDecreases(oracle: Oracle, s: Pipe, step: Step)
    requires Inv(s) && Internal(step) && Enabled(s, step)
    ensures Measure(Take(oracle, s, step)) < Measure(s)
  {
    hide Books, Next, Measure;
    InternalStepDecreases(oracle, s, step);
  }

  /**
   * When no internal step is left, both queues are empty, the sequencer is
   * idle with nothing pending, recovery is at rest or waiting for a live
   * timer, every request received has been answered exactly once, and
   * commands are parked only if the system is suspended.
   */
  lemma QuietMeansDone(s: Pipe)
    requires Inv(s)
    requires forall step :: Internal(step) ==> !Enabled(s, step)
    ensures s.posts == [] && s.core.jobs == [] && s.stage == Resting
    ensures s.core.pl.phase == PL.Idle && s.core.pl.pending == []
    ensures s.core.rc.m.state == AR.Idle || (s.core.rc.m.state == AR.WaitingForRetry && s.core.rc.retry != Off)
    ensures OnceEach(multiset(FlatMap(ReplyId, s.replies)), s.nextId)
    ensures s.parked != [] ==> s.core.suspended
  {
    hide Books, OnceEach, Flight, Enabled, Internal;
    QueuesEmpty(s);
    NothingInFlight(s);
  }

  lemma QueuesEmpty(s: Pipe)
    requires forall step :: Internal(step) ==> !Enabled(s, step)
    ensures s.posts == [] && s.core.jobs == [] && s.stage == Resting
  {
    assert !Enabled(s, DrainOne) && !Enabled(s, Dequeue) && !Enabled(s, Perform(true));
    assert !Enabled(s, Probe) && !Enabled(s, Finish) && !Enabled(s, Reopening);
  }

  lemma NothingInFlight(s: Pipe)
    requires Inv(s) && s.posts == [] && s.core.jobs == [] && s.stage == Resting
    ensures s.core.pl.phase == PL.Idle
    ensures s.core.rc.m.state != AR.Attempting
    ensures OnceEach(multiset(FlatMap(ReplyId, s.replies)), s.nextId)
  {
    hide Alternates, Ordered, Conserved, ClosedAsleep, OnceEach;
    assert Flight(s) == [] && Attempts(s) == [];
    assert Sinks(s) == multiset(FlatMap(ReplyId, s.replies));
  }
}
