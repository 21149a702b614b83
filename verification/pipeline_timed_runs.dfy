/** Left to itself, the daemon brings a lost adapter back or gives it up, within the budget. */
module PipelineTimedRuns {
  import opened Supervisor
  import opened Timers
  import opened Pipeline
  import opened PipelineMoves
  import opened PipelineShape
  import opened PipelineInvariant
  import opened PipelineRuns
  import opened PipelineDrain
  import opened PipelineAttempts
  import opened PipelineRecovery
  import opened PipelineRecoveryRuns
  import opened PipelineTimed
  import PL = Lifecycle
  import AR = Reconnect

  // ---------------------------------------------------------------------
  // Steps
  // ---------------------------------------------------------------------

  /** Closures that touch neither the sequencer nor the reconnect machine. */
  lemma ClosureFrugal(oracle: Oracle, s: Pipe)
    requires s.core.rc.m.Valid() && s.posts != []
    requires s.posts[0].Answer? || s.posts[0].Observation? || s.posts[0].ArmStandby? || s.posts[0].SuspendSystem?
    ensures Frugal(s, RunPost(oracle, Popped(s), s.posts[0]))
  {
    hide PostsCycles, Frugal, AR.Machine.Valid;
    var r := RunPost(oracle, Popped(s), s.posts[0]);
    PopCycles(s.posts);
    OneMoreCycles(s.posts[1..], SuspendSystem);
    SameClaim(s, r);
  }

  lemma RequestFrugal(oracle: Oracle, s: Pipe)
    requires Rested(s.core) && s.posts != [] && s.posts[0].PowerSignal?
    ensures Frugal(s, PowerRequest(oracle, Popped(s), PL.Entry(s.posts[0].kind, PL.DBus)))
  {
    hide PostsCycles, CoreCycles, Frugal, Requested, Advances, AR.Machine.Valid;
    var e := PL.Entry(s.posts[0].kind, PL.DBus);
    var r := PowerRequest(oracle, Popped(s), e);
    PopCycles(s.posts);
    RequestAdvances(oracle, s.core, e);
    if r.core == s.core {
      SameClaim(s, r);
    } else {
      SequencerFrugal(s, r, CoreCycles(s.core) + 2);
    }
  }

  lemma SuspendFrugal(oracle: Oracle, s: Pipe)
    requires Rested(s.core) && s.posts != [] && s.posts[0].SuspendDone? && s.core.pl.phase == PL.Suspending
    ensures Frugal(s, SuspendFinished(oracle, Popped(s)))
  {
    hide PostsCycles, CoreCycles, Frugal, OnSuspendCompleted, Advances, AR.Machine.Valid;
    PopCycles(s.posts);
    SuspendAdvances(oracle, s.core);
    SequencerFrugal(s, SuspendFinished(oracle, Popped(s)), CoreCycles(s.core));
  }

  lemma ResumeFrugal(oracle: Oracle, s: Pipe)
    requires Rested(s.core) && s.posts != [] && s.posts[0].ResumeDone? && s.core.pl.phase == PL.Resuming
    ensures Frugal(s, ResumeFinished(oracle, Popped(s), s.posts[0].valid))
  {
    hide PostsCycles, CoreCycles, Frugal, ResumeFinished, OnResumeCompleted, Resolve, Rested, AR.Machine.Valid;
    var valid := s.posts[0].valid;
    PopCycles(s.posts);
    ResumeParts(oracle, Popped(s), valid);
    ResumeAdvances(oracle, Resolve(Popped(s), valid).core, valid);
    RestedTimer(s.core);
    SequencerFrugal(s, ResumeFinished(oracle, Popped(s), valid), CoreCycles(s.core));
  }

  lemma RestedTimer(c: Core)
    requires Rested(c)
    ensures c.rc.m.Valid() && TimerAgrees(c.rc)
  {
  }

  lemma ResumeParts(oracle: Oracle, s: Pipe, valid: bool)
    requires Rested(s.core)
    ensures
      var t := Resolve(s, valid);
      var r := ResumeFinished(oracle, s, valid);
      && Rested(t.core) && t.core.rc == s.core.rc && t.core.pl == s.core.pl && CoreCycles(t.core) == CoreCycles(s.core)
      && r.posts == s.posts && r.core == OnResumeCompleted(oracle, t.core, valid)
  {
    hide OnResumeCompleted, Replays, Fates, Begun, AR.Machine.Valid;
  }

  lemma DrainFrugal(oracle: Oracle, s: Pipe)
    requires Inv(s) && s.posts != []
    ensures Frugal(s, RunPost(oracle, Popped(s), s.posts[0]))
  {
    hide Books, Shape, Flight, Frugal, SuspendFinished, ResumeFinished, PowerRequest, Recover;
    PowerPostPhase(s);
    if s.posts[0].SuspendDone? {
      SuspendFrugal(oracle, s);
    } else if s.posts[0].ResumeDone? {
      ResumeFrugal(oracle, s);
    } else if s.posts[0].PowerSignal? {
      RequestFrugal(oracle, s);
    } else if s.posts[0].ConnectionLost? || s.posts[0].ReconnectDone? {
      SignalFrugal(oracle, s, s.posts[0]);
    } else {
      ClosureFrugal(oracle, s);
    }
  }

  lemma FinishFrugal(s: Pipe)
    requires s.core.rc.m.Valid() && s.stage.Ran?
    ensures Frugal(s, FinishJob(s))
  {
    hide PostsCycles, Frugal, AR.Machine.Valid;
    var posted := Completion(s.stage.job, s.stage.ok);
    if posted == [] {
      assert s.posts + posted == s.posts;
    } else {
      assert posted == [posted[0]];
      OneMoreCycles(s.posts, posted[0]);
    }
    SameClaim(s, FinishJob(s));
  }

  lemma WorkerFrugal(oracle: Oracle, s: Pipe, step: Step)
    requires s.core.rc.m.Valid() && Enabled(s, step)
    requires step.Dequeue? || step.Reopening? || step.Perform? || step.Probe? || step.Finish?
    ensures Frugal(s, Next(oracle, s, step))
  {
    hide PostsCycles, Frugal, AdapterCalls, FinishJob, Reopens, AR.Machine.Valid;
    if step.Finish? {
      FinishFrugal(s);
    } else {
      SameClaim(s, Next(oracle, s, step));
    }
  }

  /** The firing turns one of the attempts left into a started one. */
  lemma RetryFrugal(oracle: Oracle, s: Pipe)
    requires Rested(s.core) && s.core.rc.m.state.WaitingForRetry?
    ensures
      var r := s.(core := OnRetryTimerFired(oracle, s.core));
      Frugal(s, r) && Claim(r) < Claim(s)
  {
    hide Left, Cycles, Claim, Signal, OnRetryTimerFired;
    var r := s.(core := OnRetryTimerFired(oracle, s.core));
    RetryEffect(oracle, s.core);
    RetryLeft(oracle, s.core.rc, s.core.Gate());
    SameCycles(s, r);
    CycleGoesOn(s, r);
  }

  lemma SameCycles(s: Pipe, r: Pipe)
    requires r.core.pl == s.core.pl && r.posts == s.posts
    ensures Cycles(r) == Cycles(s)
  {
  }

  lemma ExpiryFrugal(s: Pipe)
    requires s.core.rc.m.Valid() && s.core.rc.retry == Armed
    ensures
      var r := s.(core := s.core.(rc := s.core.rc.(retry := Expired)));
      Frugal(s, r) && Fuel(r) < Fuel(s)
  {
    hide Left, Cycles, Fresh, AR.Machine.Valid;
    var r := s.(core := s.core.(rc := s.core.rc.(retry := Expired)));
    SameCycles(s, r);
  }

  /** Every step of the daemon's own lowers its fuel, and no attempt is started unclaimed. */
  lemma OwnStepDecreases(oracle: Oracle, s: Pipe, step: Step)
    requires Inv(s) && Own(s, step) && Enabled(s, step)
    ensures s.core.rc.m.Valid() && Next(oracle, s, step).core.rc.m.Valid()
    ensures Frugal(s, Next(oracle, s, step)) && Fuel(Next(oracle, s, step)) < Fuel(s)
  {
    hide Books, Shape, Frugal, Fuel, Measure, RunPost, OnRetryTimerFired, RunJob, FinishJob;
    NextSound(oracle, s, step);
    var r := Next(oracle, s, step);
    if step.RetryExpires? {
      ExpiryFrugal(s);
    } else if step.RetryTimer? {
      RetryFrugal(oracle, s);
      RetryEffect(oracle, s.core);
      RecoverCost(oracle, s, AR.RetryTimerFired);
      FiringBurns(s, r);
    } else {
      InternalStepDecreases(oracle, s, step);
      if step.DrainOne? {
        DrainFrugal(oracle, s);
      } else {
        WorkerFrugal(oracle, s, step);
      }
      StepBurns(s, r);
    }
  }

  lemma FiringBurns(s: Pipe, r: Pipe)
    requires s.core.rc.m.Valid() && r.core.rc.m.Valid() && Claim(r) < Claim(s) && Measure(r) <= Measure(s) + 6
    ensures Fuel(r) < Fuel(s)
  {
    hide Claim, Measure;
  }

  lemma StepBurns(s: Pipe, r: Pipe)
    requires s.core.rc.m.Valid() && r.core.rc.m.Valid() && Frugal(s, r) && Measure(r) < Measure(s)
    ensures Fuel(r) < Fuel(s)
  {
    hide Claim, Measure;
  }

  // ---------------------------------------------------------------------
  // Runs
  // ---------------------------------------------------------------------

  /** The daemon is left to itself: every step is its own, and enabled when its turn comes. */
  predicate OwnRun(oracle: Oracle, s0: Pipe, steps: seq<Step>)
    requires s0.core.rc.m.Valid()
  {
    steps == []
    || (var before := After(oracle, s0, steps[..|steps| - 1]);
        var step := steps[|steps| - 1];
        OwnRun(oracle, s0, steps[..|steps| - 1]) && Own(before, step) && Enabled(before, step))
  }

  lemma TakeOwn(oracle: Oracle, s: Pipe, step: Step)
    requires Inv(s) && Own(s, step) && Enabled(s, step)
    ensures s.core.rc.m.Valid()
    ensures
      var r := Take(oracle, s, step);
      && Fuel(r) < Fuel(s)
      && r.core.rc.attempts >= s.core.rc.attempts
      && r.core.rc.attempts + Claim(r) <= s.core.rc.attempts + Claim(s)
  {
    hide Books, Shape, Fuel, Claim, Next, Own;
    OwnStepDecreases(oracle, s, step);
  }

  /**
   * Left to itself, retry timer included, the daemon comes to an end from any
   * state: at most `Fuel` steps, and at most `Claim` attempts started.
   */
  lemma {:induction false} OwnRunsAreBounded(oracle: Oracle, s0: Pipe, steps: seq<Step>)
    requires Inv(s0)
    ensures s0.core.rc.m.Valid()
    ensures OwnRun(oracle, s0, steps) ==>
              var s := After(oracle, s0, steps);
              && |steps| + Fuel(s) <= Fuel(s0)
              && s.core.rc.attempts >= s0.core.rc.attempts
              && s.core.rc.attempts + Claim(s) <= s0.core.rc.attempts + Claim(s0)
  {
    hide Inv, Fuel, Claim, Take, Own, Enabled;
    InvSound(s0);
    if steps != [] {
      OwnRunsAreBounded(oracle, s0, steps[..|steps| - 1]);
      InvFrom(oracle, s0, steps[..|steps| - 1]);
      if OwnRun(oracle, s0, steps) {
        TakeOwn(oracle, After(oracle, s0, steps[..|steps| - 1]), steps[|steps| - 1]);
      }
    }
  }

  /** No step of the daemon's own is left. */
  ghost predicate Exhausted(s: Pipe) {
    forall step :: Own(s, step) ==> !Enabled(s, step)
  }

  lemma ExhaustedRests(s: Pipe)
    requires Inv(s) && Exhausted(s)
    ensures Quiet(s) && s.core.rc.m.state.Idle? && s.core.rc.retry == Off
  {
    hide Books, OnceEach, Flight, Enabled, Internal;
    assert forall step :: Internal(step) ==> Own(s, step);
    QuietMeansDone(s);
    if s.core.rc.m.state.WaitingForRetry? {
      FiringIsLeft(s);
    }
  }

  lemma FiringIsLeft(s: Pipe)
    requires s.core.rc.m.state.WaitingForRetry?
    ensures Own(s, RetryTimer) && Enabled(s, RetryTimer)
  {
  }

  /**
   * A lost adapter comes back or is given up. From any state in which it is
   * covered and the one attempt outstanding is the awaited one, the daemon
   * left to itself comes to an end within the bounds above; unless a step cut
   * an attempt or missed a loss on the way, it is then asleep, or the adapter
   * is open, or a cycle has been abandoned.
   */
  lemma AdapterComesBack(oracle: Oracle, s0: Pipe, steps: seq<Step>)
    requires Inv(s0) && Clean(s0) && Covered(s0)
    ensures s0.core.rc.m.Valid()
    ensures OwnRun(oracle, s0, steps) ==>
              var s := After(oracle, s0, steps);
              && |steps| <= Fuel(s0)
              && s.core.rc.attempts <= s0.core.rc.attempts + Claim(s0)
              && (Exhausted(s) && Undisturbed(oracle, s0, steps) ==>
                    s.core.suspended || s.core.connected || s.core.rc.abandoned > s0.core.rc.abandoned)
  {
    hide Inv, Clean, Covered, Fuel, Claim, After, OwnRun, Undisturbed, Exhausted;
    LostAdapterIsRecovered(oracle, s0, steps);
    OwnRunsAreBounded(oracle, s0, steps);
    InvFrom(oracle, s0, steps);
    if Exhausted(After(oracle, s0, steps)) {
      ExhaustedRests(After(oracle, s0, steps));
    }
  }

  // ---------------------------------------------------------------------
  // A cycle on its own
  // ---------------------------------------------------------------------

  /** Awake, with nothing in the queues but reconnect attempts and their results. */
  predicate Solo(s: Pipe) {
    && !s.core.suspended
    && (forall k :: 0 <= k < |s.posts| ==> s.posts[k].ReconnectDone?)
    && (forall k :: 0 <= k < |s.core.jobs| ==> s.core.jobs[k].ReconnectJob?)
    && (s.stage.Fetched? || s.stage.Ran? ==> s.stage.job.ReconnectJob?) && s.stage != Reopened
  }

  lemma SoloIsUndisturbed(s: Pipe, step: Step)
    requires Solo(s) && Own(s, step) && Enabled(s, step)
    ensures !Cuts(s, step) && !Misses(s, step)
  {
    hide Sheltered, BusRequested;
  }

  lemma SoloRecovers(oracle: Oracle, s: Pipe, e: AR.Event)
    requires s.core.rc.m.Valid() && TimerAgrees(s.core.rc) && Solo(s)
    requires e in {AR.RetryTimerFired, AR.AttemptSucceeded, AR.AttemptFailed}
    ensures Solo(s.(core := Recover(oracle, s.core, e)))
  {
    hide Signal;
    SignalEffect(oracle, s.core.rc, s.core.Gate(), e);
  }

  lemma SoloWorks(oracle: Oracle, s: Pipe, step: Step)
    requires s.core.rc.m.Valid() && Solo(s) && Enabled(s, step)
    requires step.Dequeue? || step.Reopening? || step.Perform? || step.Probe? || step.Finish?
    ensures Solo(Next(oracle, s, step))
  {
    hide Reopens, AR.Machine.Valid;
  }

  lemma SoloResult(oracle: Oracle, s: Pipe)
    requires Rested(s.core) && Solo(s) && s.posts != []
    ensures Solo(RunPost(oracle, Popped(s), s.posts[0]))
  {
    hide Recover, AR.Machine.Valid;
    assert s.posts[0].ReconnectDone?;
    SoloRecovers(oracle, Popped(s), if s.posts[0].ok then AR.AttemptSucceeded else AR.AttemptFailed);
  }

  lemma SoloStays(oracle: Oracle, s: Pipe, step: Step)
    requires Rested(s.core) && Solo(s) && Own(s, step) && Enabled(s, step)
    ensures Solo(Next(oracle, s, step))
  {
    hide Recover, OnRetryTimerFired, RunPost, RunJob, FinishJob;
    if step.RetryTimer? {
      RetryEffect(oracle, s.core);
      SoloRecovers(oracle, s, AR.RetryTimerFired);
    } else if step.DrainOne? {
      SoloResult(oracle, s);
    } else if !step.RetryExpires? {
      SoloWorks(oracle, s, step);
    }
  }

  lemma TakeSolo(oracle: Oracle, s: Pipe, step: Step)
    requires Inv(s) && Solo(s) && Own(s, step) && Enabled(s, step)
    ensures s.core.rc.m.Valid() && Solo(Take(oracle, s, step))
  {
    hide Books, Shape, Solo, Own, Next;
    SoloStays(oracle, s, step);
  }

  lemma {:induction false} SoloRuns(oracle: Oracle, s0: Pipe, steps: seq<Step>)
    requires Inv(s0) && Solo(s0)
    ensures s0.core.rc.m.Valid()
    ensures OwnRun(oracle, s0, steps) ==> Solo(After(oracle, s0, steps)) && Undisturbed(oracle, s0, steps)
  {
    hide Inv, Solo, Take, Own, Enabled, Cuts, Misses;
    InvSound(s0);
    if steps != [] {
      SoloRuns(oracle, s0, steps[..|steps| - 1]);
      InvFrom(oracle, s0, steps[..|steps| - 1]);
      if OwnRun(oracle, s0, steps) {
        TakeSolo(oracle, After(oracle, s0, steps[..|steps| - 1]), steps[|steps| - 1]);
        SoloIsUndisturbed(After(oracle, s0, steps[..|steps| - 1]), steps[|steps| - 1]);
      }
    }
  }

  /** A waiting daemon claims what is left of the cycle's budget, and nothing else. */
  lemma WaitingClaims(s: Pipe)
    requires Inv(s) && Quiet(s) && !s.core.suspended && s.core.rc.m.state.WaitingForRetry?
    ensures s.core.rc.m.Valid()
    ensures Claim(s) == |s.core.rc.m.delays| + 1 - s.core.rc.m.position && Fuel(s) <= 8 * Claim(s) + 1
    ensures Solo(s) && Clean(s) && Covered(s)
  {
    hide Alternates, Ordered, Answered, Conserved, ClosedAsleep, Recovering, Shape;
    AwakeIsIdle(s);
    assert Flight(s) == [] && Attempts(s) == [];
    assert Cycles(s) == 0;
    FreshAdds(s.core.rc.m, 0, 0);
  }

  /**
   * The reconnect cycle does its job. Quiet, awake and waiting for a retry,
   * and left to itself: whatever the adapter answers and however late the
   * timer, the daemon comes to an end after at most as many attempts as the
   * schedule has left, which is never more than its length plus one, and then
   * the adapter is open or the cycle has been abandoned.
   */
  lemma WaitingAdapterIsSettled(oracle: Oracle, s0: Pipe, steps: seq<Step>)
    requires Inv(s0) && Quiet(s0) && !s0.core.suspended && s0.core.rc.m.state.WaitingForRetry?
    ensures s0.core.rc.m.Valid()
    ensures OwnRun(oracle, s0, steps) ==>
              var s := After(oracle, s0, steps);
              var left := |s0.core.rc.m.delays| + 1 - s0.core.rc.m.position;
              && |steps| <= 8 * left + 1
              && s.core.rc.attempts <= s0.core.rc.attempts + left
              && (Exhausted(s) ==>
                    !s.core.suspended && (s.core.connected || s.core.rc.abandoned > s0.core.rc.abandoned))
  {
    hide Inv, Clean, Covered, Fuel, Claim, After, OwnRun, Undisturbed, Exhausted, Quiet;
    WaitingClaims(s0);
    AdapterComesBack(oracle, s0, steps);
    SoloRuns(oracle, s0, steps);
  }
}
