/** Recovery over whole runs: a lost adapter does not stay lost, and what a sleep heals. */
module PipelineRecoveryRuns {
  import opened Supervisor
  import opened Timers
  import opened Pipeline
  import opened PipelineMoves
  import opened PipelineShape
  import opened PipelineInvariant
  import opened PipelineRuns
  import opened PipelineAttempts
  import opened PipelineRecovery
  import PL = Lifecycle
  import AR = Reconnect

  lemma SuspendRevives(oracle: Oracle, c: Core)
    requires Rested(c) && c.pl.phase == PL.Suspending
    ensures OnSuspendCompleted(oracle, c).rc.abandoned >= c.rc.abandoned
  {
    hide Settled, Pump;
    var (m, out) := PL.SuspendCompleted(c.pl);
    ApplyIsPump(oracle, c.(pl := m), out);
    assert c.locks + [] == c.locks;
    PumpRevives(oracle, Prepare(oracle, c.(pl := m), out));
  }

  lemma RecoverAbandons(oracle: Oracle, c: Core, e: AR.Event)
    requires c.rc.m.Valid() && TimerAgrees(c.rc) && e != AR.TimerArmFailed
    ensures Recover(oracle, c, e).rc.abandoned >= c.rc.abandoned
  {
    hide Signal, TimerAgrees, AR.Machine.Valid;
    SignalEffect(oracle, c.rc, c.Gate(), e);
  }

  lemma EventAbandons(oracle: Oracle, s: Pipe, step: Step)
    requires Inv(s) && Enabled(s, step) && Signals(s, step).Some?
    ensures s.core.rc.m.Valid() && Next(oracle, s, step).core.rc.abandoned >= s.core.rc.abandoned
  {
    hide Books, Shape, Recover, OnRetryTimerFired, PowerRequest, SuspendFinished, ResumeFinished, AR.Machine.Valid;
    RecoverAbandons(oracle, s.core, Signals(s, step).value);
    if step.RetryTimer? {
      RetryEffect(oracle, s.core);
    }
  }

  lemma RequestAbandons(oracle: Oracle, s: Pipe, step: Step)
    requires Inv(s) && Enabled(s, step) && Requests(s, step).Some?
    ensures s.core.rc.m.Valid() && Next(oracle, s, step).core.rc.abandoned >= s.core.rc.abandoned
  {
    hide Books, Shape, Requested, HandleCommand;
    RequestRevives(oracle, s.core, Requests(s, step).value);
    if step.WireCommand? {
      CommandSequenced(oracle, s, step.msg);
    }
  }

  lemma SuspendFinishedAbandons(oracle: Oracle, t: Pipe)
    requires Rested(t.core) && t.core.pl.phase == PL.Suspending
    ensures SuspendFinished(oracle, t).core.rc.abandoned >= t.core.rc.abandoned
  {
    hide Supervisor.OnSuspendCompleted, Rested, AR.Machine.Valid;
    SuspendRevives(oracle, t.core);
  }

  lemma ResumeFinishedAbandons(oracle: Oracle, t: Pipe, valid: bool)
    requires Rested(t.core) && t.core.pl.phase == PL.Resuming
    ensures ResumeFinished(oracle, t, valid).core.rc.abandoned >= t.core.rc.abandoned
  {
    hide Supervisor.OnResumeCompleted, Replays, Fates, AR.Machine.Valid;
    ResumeRevives(oracle, Resolve(t, valid).core, valid);
  }

  lemma CompletionAbandons(oracle: Oracle, s: Pipe, step: Step)
    requires Inv(s) && Enabled(s, step) && Completes(s, step)
    ensures s.core.rc.m.Valid() && Next(oracle, s, step).core.rc.abandoned >= s.core.rc.abandoned
  {
    hide Books, Shape, Flight, SuspendFinished, ResumeFinished, PowerRequest, Recover, TimerAgrees, AR.Machine.Valid;
    CompletionIsAll(s);
    if s.posts[0].SuspendDone? {
      SuspendFinishedAbandons(oracle, Popped(s));
    } else {
      ResumeFinishedAbandons(oracle, Popped(s), s.posts[0].valid);
    }
  }

  /** A cycle given up stays given up. */
  lemma AbandonedGrows(oracle: Oracle, s: Pipe, step: Step)
    requires Inv(s)
    ensures s.core.rc.m.Valid() && Take(oracle, s, step).core.rc.abandoned >= s.core.rc.abandoned
  {
    hide Books, Shape, Next;
    if Enabled(s, step) {
      if Signals(s, step).Some? {
        EventAbandons(oracle, s, step);
      } else if Requests(s, step).Some? {
        RequestAbandons(oracle, s, step);
      } else if Completes(s, step) {
        CompletionAbandons(oracle, s, step);
      } else {
        OtherSame(oracle, s, step);
      }
    }
  }

  /** No step of the run cuts an attempt or misses a loss. */
  predicate Undisturbed(oracle: Oracle, s0: Pipe, steps: seq<Step>)
    requires s0.core.rc.m.Valid()
  {
    steps == []
    || (var before := After(oracle, s0, steps[..|steps| - 1]);
        var step := steps[|steps| - 1];
        && Undisturbed(oracle, s0, steps[..|steps| - 1])
        && (Enabled(before, step) ==> !Cuts(before, step) && !Misses(before, step)))
  }

  predicate Quiet(s: Pipe) {
    s.posts == [] && s.core.jobs == [] && s.stage == Resting
  }

  /** With nothing left to do, awake and with the adapter closed, covered means that recovery waits for its timer. */
  lemma QuietExactly(s: Pipe)
    requires Inv(s) && Quiet(s) && !s.core.suspended && !s.core.connected
    ensures Covered(s) <==> s.core.rc.m.state.WaitingForRetry? && s.core.rc.retry != Off
  {
    hide Ordered, Answered, Conserved, Alternates, ClosedAsleep, Shape;
    assert Flight(s) == [];
    assert Attempts(s) == [];
  }

  lemma TakeCovers(oracle: Oracle, s: Pipe, step: Step)
    requires Inv(s) && Clean(s) && Covered(s)
    requires Enabled(s, step) ==> !Cuts(s, step) && !Misses(s, step)
    ensures s.core.rc.m.Valid()
    ensures
      var r := Take(oracle, s, step);
      Clean(r) && (r.core.rc.abandoned == s.core.rc.abandoned ==> Covered(r))
  {
    hide Books, Shape, Clean, Covered, Next, Cuts, Misses;
    if Enabled(s, step) {
      CleanExactly(oracle, s, step);
      CoveredExactly(oracle, s, step);
    }
  }

  /**
   * A lost adapter is recovered. From any state in which it is covered and
   * the one attempt outstanding is the awaited one, such as the first: as
   * long as no step cuts an attempt or misses a loss and no cycle is given
   * up, whenever the daemon has nothing left to do, is awake and has no open
   * adapter, recovery waits for its timer, which is armed or has expired
   * unread.
   */
  lemma {:induction false} LostAdapterIsRecovered(oracle: Oracle, s0: Pipe, steps: seq<Step>)
    requires Inv(s0) && Clean(s0) && Covered(s0)
    ensures s0.core.rc.m.Valid()
    ensures
      var s := After(oracle, s0, steps);
      && s.core.rc.abandoned >= s0.core.rc.abandoned
      && (Undisturbed(oracle, s0, steps) && s.core.rc.abandoned == s0.core.rc.abandoned ==>
            && Clean(s) && Covered(s)
            && (Quiet(s) && !s.core.suspended && !s.core.connected ==>
                  s.core.rc.m.state.WaitingForRetry? && s.core.rc.retry != Off))
  {
    hide Inv, Clean, Covered, Cuts, Misses, Take, Enabled, Quiet;
    InvFrom(oracle, s0, steps);
    if steps != [] {
      var before := After(oracle, s0, steps[..|steps| - 1]);
      LostAdapterIsRecovered(oracle, s0, steps[..|steps| - 1]);
      InvFrom(oracle, s0, steps[..|steps| - 1]);
      AbandonedGrows(oracle, before, steps[|steps| - 1]);
      if Undisturbed(oracle, s0, steps) && After(oracle, s0, steps).core.rc.abandoned == s0.core.rc.abandoned {
        TakeCovers(oracle, before, steps[|steps| - 1]);
      }
    }
    var s := After(oracle, s0, steps);
    if Quiet(s) && !s.core.suspended && !s.core.connected {
      QuietExactly(s);
    }
  }

  /** The first state qualifies, even if the adapter is lost again before the event loop starts. */
  lemma InitialCovered(s: Pipe)
    requires Initial(s)
    ensures Inv(s) && Clean(s) && Covered(s)
  {
    hide Inv, Clean;
    InitialClean(s);
    if !s.core.connected {
      var k :| 0 <= k < |s.posts| && s.posts[k] == ConnectionLost;
    }
  }

  /** Falling asleep is a fresh start: nobody has approved the adapter yet. */
  lemma FallingAsleepCovers(oracle: Oracle, s: Pipe, step: Step)
    requires Inv(s) && !s.core.suspended && Enabled(s, step)
    ensures s.core.rc.m.Valid()
    ensures Next(oracle, s, step).core.suspended ==> Covered(Next(oracle, s, step))
  {
    hide Books, Shape, Flight, HandleCommand, Requested, Reached, LossBehind, LossReported, Approved, BusRequested;
    if Requests(s, step).Some? {
      AwakeIsIdle(s);
      NobodyApproves(s);
      if step.WireCommand? {
        CommandSequenced(oracle, s, step.msg);
      } else {
        LessPosts(s.stage, s.posts);
      }
    } else {
      StaysAwake(oracle, s, step);
    }
  }

  lemma StaysAwake(oracle: Oracle, s: Pipe, step: Step)
    requires Inv(s) && !s.core.suspended && Enabled(s, step) && Requests(s, step).None?
    ensures s.core.rc.m.Valid() && !Next(oracle, s, step).core.suspended
  {
    hide Books, Shape, Next;
    if Signals(s, step).Some? {
      EventSteps(oracle, s, step);
    } else if Completes(s, step) {
      CompletionIsAll(s);
    } else {
      OtherSame(oracle, s, step);
    }
  }

  lemma SleepCovers(oracle: Oracle, s: Pipe, step: Step)
    requires Inv(s) && (s.core.suspended ==> Covered(s))
    ensures s.core.rc.m.Valid()
    ensures
      var r := Take(oracle, s, step);
      r.core.suspended && r.core.rc.abandoned == s.core.rc.abandoned ==> Covered(r)
  {
    hide Books, Shape, Covered, Next, Misses;
    if Enabled(s, step) {
      if s.core.suspended {
        CoveredExactly(oracle, s, step);
        NoMissAsleep(s, step);
      } else {
        FallingAsleepCovers(oracle, s, step);
      }
    }
  }

  lemma NoMissAsleep(s: Pipe, step: Step)
    requires s.core.suspended
    ensures !Misses(s, step)
  {
  }

  /**
   * A suspend and its resume heal whatever went wrong before: in every run in
   * which no cycle has been given up, a lost adapter is covered throughout the
   * sleep, and the resume that ends it leaves it covered and no attempt
   * outstanding.
   */
  lemma {:induction false} SleepHeals(oracle: Oracle, s0: Pipe, steps: seq<Step>, step: Step)
    requires Initial(s0)
    ensures s0.core.rc.m.Valid()
    ensures
      var s := After(oracle, s0, steps);
      && s.core.rc.abandoned >= s0.core.rc.abandoned
      && (s.core.rc.abandoned == s0.core.rc.abandoned && s.core.suspended ==> Covered(s))
      && (var r := Take(oracle, s, step);
          r.core.rc.abandoned == s0.core.rc.abandoned && Enabled(s, step) && Completes(s, step) ==>
            Inv(r) && Clean(r) && Covered(r))
  {
    hide Inv, Initial, Clean, Covered, Take, Enabled, Completes;
    AlwaysInv(oracle, s0, steps);
    if steps != [] {
      var before := After(oracle, s0, steps[..|steps| - 1]);
      SleepHeals(oracle, s0, steps[..|steps| - 1], step);
      AlwaysInv(oracle, s0, steps[..|steps| - 1]);
      AbandonedGrows(oracle, before, steps[|steps| - 1]);
      if After(oracle, s0, steps).core.rc.abandoned == s0.core.rc.abandoned {
        SleepCovers(oracle, before, steps[|steps| - 1]);
      }
    } else {
      FirstAwake(s0);
    }
    var s := After(oracle, s0, steps);
    AbandonedGrows(oracle, s, step);
    if Take(oracle, s, step).core.rc.abandoned == s0.core.rc.abandoned && Enabled(s, step) && Completes(s, step) {
      WakingCovers(oracle, s, step);
    }
  }

  lemma FirstAwake(s: Pipe)
    requires Initial(s)
    ensures !s.core.suspended
  {
  }

  lemma WakingCovers(oracle: Oracle, s: Pipe, step: Step)
    requires Inv(s) && (s.core.suspended ==> Covered(s)) && Enabled(s, step) && Completes(s, step)
    requires s.core.rc.m.Valid() && Take(oracle, s, step).core.rc.abandoned == s.core.rc.abandoned
    ensures Inv(Take(oracle, s, step)) && Clean(Take(oracle, s, step)) && Covered(Take(oracle, s, step))
  {
    hide Books, Shape, Clean, Covered, Next, Flight, Attempts;
    CompletionIsAll(s);
    CompletionIsClean(oracle, s, step);
    TakeKeeps(oracle, s, step);
    CompletionCovers(oracle, s, step);
  }
}
