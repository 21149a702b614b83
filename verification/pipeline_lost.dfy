/**
 * The other half of recovery: an adapter that has slipped stays lost, and
 * exactly what brings it back.
 */
module PipelineLost {
  import opened Seqs
  import opened Wire
  import opened Supervisor
  import opened Pipeline
  import opened PipelineMoves
  import opened PipelineShape
  import opened PipelineInvariant
  import opened PipelineRuns
  import opened PipelineAttempts
  import opened PipelineRecovery
  import AR = Reconnect

  /** Awake with the adapter closed, and nothing sees to it. */
  predicate Lost(s: Pipe) {
    && !s.core.suspended && !s.core.connected
    && !Sheltered(s.core.rc.m, s.stage, s.posts) && !BusRequested(s.posts)
  }

  /**
   * What comes to the rescue from outside: another alert, unless it is as
   * early as the first, a suspend or resume, and a restart command that opens
   * the adapter.
   */
  predicate Rescues(s: Pipe, step: Step) {
    match step
    case Alert => Attempting(s) ==> !(s.stage.Ran? && s.stage.job.ReconnectJob?)
    case BusSignal(_) => true
    case WireCommand(_) => Requests(s, step).Some?
    case Perform(ok) => ok && s.stage.Fetched? && IsRestart(s.stage.job)
    case _ => false
  }

  // ---------------------------------------------------------------------
  // The queues of a lost adapter
  // ---------------------------------------------------------------------

  lemma PoppedPosts(stage: Stage, posts: seq<Post>)
    requires posts != []
    ensures LossReported(posts[1..]) ==> LossReported(posts)
    ensures LossBehind(posts[1..]) ==> LossBehind(posts)
    ensures BusRequested(posts[1..]) ==> BusRequested(posts)
    ensures posts[0].ReconnectDone? && LossReported(posts[1..]) ==> LossBehind(posts)
    ensures Reached(stage, posts) ==> Reached(stage, posts[1..]) || (posts[0].ReconnectDone? && posts[0].ok)
  {
    var less := posts[1..];
    assert forall k :: 0 <= k < |less| ==> less[k] == posts[k + 1];
    assert forall k :: 1 <= k < |posts| ==> posts[k] == less[k - 1];
    if LossBehind(less) {
      var i, j :| 0 <= i < j < |less| && less[i].ReconnectDone? && less[j].ConnectionLost?;
      assert posts[i + 1].ReconnectDone? && posts[j + 1].ConnectionLost?;
    }
    if posts[0].ReconnectDone? && LossReported(less) {
      var k :| 0 <= k < |less| && less[k].ConnectionLost?;
      assert posts[k + 1].ConnectionLost?;
    }
  }

  /** The attempt that slipped is past the worker's reopening. */
  lemma NoAttemptToRun(s: Pipe)
    requires Clean(s) && Lost(s) && s.stage.Fetched?
    ensures !s.stage.job.ReconnectJob?
  {
    hide Attempts, LossBehind, BusRequested;
    if s.stage.job.ReconnectJob? {
      AttemptAtStage(s);
    }
  }

  lemma LostPost(s: Pipe, r: Pipe, p: Post)
    requires Lost(s) && SameMachine(s, r) && r.core.connected == s.core.connected && r.stage == s.stage
    requires r.posts == s.posts + [p] && !p.ConnectionLost? && !p.PowerSignal? && !p.ReconnectDone?
    ensures Lost(r)
  {
    hide Reached, LossBehind, LossReported, BusRequested;
    MorePosts(s.stage, s.posts, p);
  }

  lemma LostPop(s: Pipe, r: Pipe)
    requires Lost(s) && SameMachine(s, r) && r.core.connected == s.core.connected && r.stage == s.stage
    requires s.posts != [] && r.posts == s.posts[1..] && !s.posts[0].ReconnectDone?
    ensures Lost(r)
  {
    hide Reached, LossBehind, LossReported, BusRequested;
    PoppedPosts(s.stage, s.posts);
  }

  lemma LostSame(s: Pipe, r: Pipe)
    requires Lost(s) && SameMachine(s, r) && r.core.connected == s.core.connected
    requires r.stage == s.stage && r.posts == s.posts
    ensures Lost(r)
  {
  }

  // ---------------------------------------------------------------------
  // The worker
  // ---------------------------------------------------------------------

  /** Anything but an attempt comes and goes without a word about the adapter. */
  lemma LostStage(s: Pipe, r: Pipe)
    requires Lost(s) && SameMachine(s, r) && !r.core.connected && r.posts == s.posts
    requires !(s.stage.Ran? && s.stage.job.ReconnectJob?) && !(r.stage.Ran? && r.stage.job.ReconnectJob?)
    ensures Lost(r)
  {
    hide LossBehind, LossReported, BusRequested;
  }

  lemma LostPerform(s: Pipe, ok: bool)
    requires Inv(s) && Clean(s) && Lost(s) && s.stage.Fetched? && !Rescues(s, Perform(ok))
    ensures Lost(RunJob(s, ok)) && RunJob(s, ok).core.rc == s.core.rc
  {
    hide Inv, Clean, Lost, AdapterCalls;
    NoAttemptToRun(s);
    LostIsAwake(s);
    AwakeJob(s);
    JobLeaves(s.core.connected, s.stage.job, ok);
    ReopeningJobs(s.stage.job);
    LostStage(s, RunJob(s, ok));
  }

  lemma ReopeningJobs(job: Job)
    ensures Reopens(job) <==> job.ResumeJob? || job.ReconnectJob? || IsRestart(job)
  {
  }

  lemma LostIsAwake(s: Pipe)
    requires Lost(s)
    ensures !s.core.suspended && !s.core.connected
  {
  }

  lemma LostFinish(s: Pipe)
    requires Inv(s) && Clean(s) && Lost(s) && s.stage.Ran?
    ensures Lost(FinishJob(s)) && FinishJob(s).core == s.core
  {
    hide Inv, Attempts, LossBehind, LossReported, BusRequested, ResultPosted;
    AwakeJob(s);
    var r := FinishJob(s);
    if s.stage.job.ReconnectJob? {
      AttemptAtStage(s);
      MorePosts(Resting, s.posts, ReconnectDone(s.stage.job.attempt, s.stage.ok));
    } else if s.stage.job.LiveJob? {
      LostStage(s, s.(stage := Resting));
      LostPost(s.(stage := Resting), r, r.posts[|s.posts|]);
    } else {
      assert s.posts + [] == s.posts;
      LostStage(s, r);
    }
  }

  lemma LostWorker(oracle: Oracle, s: Pipe, step: Step)
    requires Inv(s) && Clean(s) && Lost(s) && Enabled(s, step) && s.core.rc.m.Valid() && !Rescues(s, step)
    requires step.Dequeue? || step.Reopening? || step.Perform? || step.Probe? || step.Finish?
    ensures Lost(Next(oracle, s, step)) && Next(oracle, s, step).core.rc == s.core.rc
  {
    hide Inv, Clean, Lost, RunJob, FinishJob, Reopens, Rescues;
    var r := Next(oracle, s, step);
    LostIsAwake(s);
    if step.Perform? {
      LostPerform(s, step.ok);
    } else if step.Finish? {
      LostFinish(s);
    } else {
      if step.Probe? {
        ResumeAlone(s);
      }
      LostStage(s, r);
    }
  }

  // ---------------------------------------------------------------------
  // The main thread
  // ---------------------------------------------------------------------

  /** In an attempt a loss is absorbed; at rest there is none to handle. */
  lemma LostLoss(oracle: Oracle, s: Pipe)
    requires Lost(s) && s.core.rc.m.Valid() && s.posts != [] && s.posts[0].ConnectionLost?
    ensures
      var r := Popped(s).(core := Recover(oracle, s.core, AR.ConnectionLost));
      Lost(r) && r.core.rc == s.core.rc
  {
    hide Signal, Reached, LossBehind, BusRequested;
    AbsorbedSignal(oracle, s.core.rc, s.core.Gate(), AR.ConnectionLost);
    assert s.core.jobs + [] == s.core.jobs;
    LostPop(s, Popped(s));
  }

  /** The result is the attempt's success: it ends the cycle, and no loss is reported behind it. */
  lemma LostResult(oracle: Oracle, s: Pipe)
    requires Inv(s) && Clean(s) && Lost(s) && s.posts != [] && s.posts[0].ReconnectDone?
    ensures
      var r := ReconnectFinished(oracle, Popped(s), s.posts[0].ok);
      Lost(r) && r.core.rc.abandoned == s.core.rc.abandoned
  {
    hide Books, Shape, Flight, Attempts, Reached, LossBehind, LossReported, BusRequested;
    HeadIsTheAttempt(s);
    PoppedPosts(s.stage, s.posts);
    assert Signal(oracle, s.core.rc, s.core.Gate(), AR.AttemptSucceeded)
        == (s.core.rc.(m := s.core.rc.m.Reset()), []);
  }

  /** With at most one attempt outstanding, a result at the head of the queue is all there is of it. */
  lemma HeadIsTheAttempt(s: Pipe)
    requires |Attempts(s)| <= 1 && s.posts != [] && s.posts[0].ReconnectDone?
    ensures Attempts(s) != [] && !Reached(s.stage, s.posts[1..])
  {
    hide FlatMap, Flight, Log, Reached;
    PopTakes(s);
    AttemptProjections(s, Popped(s), JobOf(s.posts[0]), []);
    NoAttemptLeft(Popped(s));
  }

  lemma LostRetry(oracle: Oracle, s: Pipe)
    requires Rested(s.core) && Lost(s)
    ensures
      var r := s.(core := OnRetryTimerFired(oracle, s.core));
      Lost(r) && r.core.rc == s.core.rc
  {
    hide Signal, Reached, LossBehind, LossReported, BusRequested, OnRetryTimerFired;
    RetryEffect(oracle, s.core);
    AbsorbedSignal(oracle, s.core.rc, s.core.Gate(), AR.RetryTimerFired);
    assert s.core.jobs + [] == s.core.jobs;
  }

  lemma LostEvent(oracle: Oracle, s: Pipe, step: Step)
    requires Inv(s) && Clean(s) && Lost(s) && Enabled(s, step) && Signals(s, step).Some?
    ensures s.core.rc.m.Valid()
    ensures Lost(Next(oracle, s, step)) && Next(oracle, s, step).core.rc.abandoned == s.core.rc.abandoned
  {
    hide Books, Shape, Clean, Lost, Recover, ReconnectFinished, OnRetryTimerFired;
    if step.RetryTimer? {
      LostRetry(oracle, s);
    } else if s.posts[0].ConnectionLost? {
      LostLoss(oracle, s);
    } else {
      LostResult(oracle, s);
    }
  }

  lemma LostClosure(oracle: Oracle, s: Pipe)
    requires Lost(s) && s.core.rc.m.Valid() && s.posts != []
    requires s.posts[0].Answer? || s.posts[0].Observation? || s.posts[0].ArmStandby? || s.posts[0].SuspendSystem?
    ensures Lost(RunPost(oracle, Popped(s), s.posts[0]))
    ensures RunPost(oracle, Popped(s), s.posts[0]).core == s.core
  {
    hide Lost;
    var t := Popped(s);
    LostPop(s, t);
    var r := RunPost(oracle, t, s.posts[0]);
    if r.posts == t.posts {
      LostSame(t, r);
    } else {
      LostPost(t, r, SuspendSystem);
    }
  }

  lemma LostSafety(oracle: Oracle, s: Pipe)
    requires Rested(s.core) && Lost(s)
    ensures
      var r := s.(core := OnSafetyTimerFired(oracle, s.core));
      Lost(r) && r.core.rc == s.core.rc
  {
    hide Lost, OnSafetyTimerFired;
    SafetyEffect(oracle, s.core);
    LostSame(s, s.(core := OnSafetyTimerFired(oracle, s.core)));
  }

  lemma LostCommand(oracle: Oracle, s: Pipe, msg: Message)
    requires Lost(s) && s.core.rc.m.Valid() && msg.ty != CMD_SUSPEND && msg.ty != CMD_RESUME
    ensures Lost(HandleCommand(oracle, s, msg)) && HandleCommand(oracle, s, msg).core.rc == s.core.rc
  {
    hide Lost, HandleCommand;
    CommandRecovery(oracle, s, msg);
    LostSame(s, HandleCommand(oracle, s, msg));
  }

  /** An alert as early as the first one, an observation, or a timer's expiry. */
  lemma LostOutside(oracle: Oracle, s: Pipe, step: Step)
    requires Clean(s) && Lost(s) && Enabled(s, step) && s.core.rc.m.Valid() && !Rescues(s, step)
    requires step.SafetyExpires? || step.RetryExpires? || step.Alert? || step.Observed?
    ensures Lost(Next(oracle, s, step)) && Next(oracle, s, step).core.rc.abandoned == s.core.rc.abandoned
  {
    hide Clean, Lost;
    var r := Next(oracle, s, step);
    if step.Alert? {
      LostAlert(s, r);
    } else if step.Observed? {
      LostPost(s, r, Observation(step.tvStandby));
    } else {
      LostSame(s, r);
    }
  }

  lemma LostAlert(s: Pipe, r: Pipe)
    requires Clean(s) && Lost(s)
    requires r == s.(core := s.core.(connected := false), posts := s.posts + [ConnectionLost])
    ensures Lost(r) <==> !Rescues(s, Alert)
  {
    hide Attempts;
    MorePosts(s.stage, s.posts, ConnectionLost);
    if s.stage.Ran? && s.stage.job.ReconnectJob? {
      AttemptAtStage(s);
    }
  }

  lemma LostRest(oracle: Oracle, s: Pipe, step: Step)
    requires Inv(s) && Lost(s) && Enabled(s, step) && s.core.rc.m.Valid()
    requires step.WireCommand? || step.DrainOne? || step.SafetyTimer?
    requires Requests(s, step).None? && Signals(s, step).None? && !Completes(s, step)
    ensures Lost(Next(oracle, s, step)) && Next(oracle, s, step).core.rc == s.core.rc
  {
    hide Lost, Shape, Books, HandleCommand, RunPost, OnSafetyTimerFired;
    if step.WireCommand? {
      LostCommand(oracle, s, step.msg);
    } else if step.DrainOne? {
      LostClosure(oracle, s);
    } else {
      LostSafety(oracle, s);
    }
  }

  /** Lost, nothing is requested but by a command, and nothing completes. */
  lemma LostRequests(s: Pipe, step: Step)
    requires Inv(s) && Lost(s) && Enabled(s, step) && !Rescues(s, step)
    ensures Requests(s, step).None? && !Completes(s, step) && !Cuts(s, step)
  {
    hide Inv, Sheltered;
    if Completes(s, step) {
      CompletionIsAll(s);
    }
  }

  /** A lost adapter stays lost, quietly, until something comes to the rescue. */
  lemma LostKeeps(oracle: Oracle, s: Pipe, step: Step)
    requires Inv(s) && Clean(s) && Lost(s) && Enabled(s, step) && !Rescues(s, step)
    ensures s.core.rc.m.Valid()
    ensures
      var r := Next(oracle, s, step);
      Clean(r) && Lost(r) && r.core.rc.abandoned == s.core.rc.abandoned
  {
    hide Books, Shape, Clean, Lost, Rescues, Next, Requests, Completes, Cuts;
    CleanExactly(oracle, s, step);
    LostRequests(s, step);
    if Signals(s, step).Some? {
      LostEvent(oracle, s, step);
    } else if step.Dequeue? || step.Reopening? || step.Perform? || step.Probe? || step.Finish? {
      LostWorker(oracle, s, step);
    } else if step.SafetyExpires? || step.RetryExpires? || step.Alert? || step.Observed? {
      LostOutside(oracle, s, step);
    } else {
      NotABusSignal(s, step);
      LostRest(oracle, s, step);
    }
  }

  lemma NotABusSignal(s: Pipe, step: Step)
    requires !Rescues(s, step)
    ensures !step.BusSignal?
  {
  }

  // ---------------------------------------------------------------------
  // The rescue
  // ---------------------------------------------------------------------

  lemma PowerCommandRescues(oracle: Oracle, s: Pipe, step: Step)
    requires Inv(s) && Lost(s) && step.WireCommand? && Requests(s, step).Some?
    requires s.core.rc.m.Valid() && Next(oracle, s, step).core.rc.abandoned == s.core.rc.abandoned
    ensures !Lost(Next(oracle, s, step))
  {
    hide Books, Shape, HandleCommand, Requested, Reached, LossBehind, LossReported, BusRequested;
    AwakeIsIdle(s);
    RequestSteps(oracle, s, step);
    CommandSequenced(oracle, s, step.msg);
    RequestRevives(oracle, s.core, Requests(s, step).value);
  }

  lemma RestartRescues(s: Pipe)
    requires s.stage.Fetched? && IsRestart(s.stage.job)
    ensures RunJob(s, true).core.connected
  {
    hide AdapterCalls;
    JobLeaves(s.core.connected, s.stage.job, true);
  }

  lemma RescueEnds(oracle: Oracle, s: Pipe, step: Step)
    requires Inv(s) && Clean(s) && Lost(s) && Enabled(s, step) && Rescues(s, step)
    requires s.core.rc.m.Valid() && Next(oracle, s, step).core.rc.abandoned == s.core.rc.abandoned
    ensures !Lost(Next(oracle, s, step))
  {
    hide Books, Shape, Clean, Sheltered, HandleCommand, RunJob, Requests, BusRequested;
    if step.Alert? {
      LostAlert(s, Next(oracle, s, step));
    } else if step.BusSignal? {
      MorePosts(s.stage, s.posts, PowerSignal(step.kind));
    } else if step.Perform? {
      RestartRescues(s);
    } else {
      PowerCommandRescues(oracle, s, step);
    }
  }

  /** As long as no cycle is given up, exactly the rescues end a loss. */
  lemma LostExactly(oracle: Oracle, s: Pipe, step: Step)
    requires Inv(s) && Clean(s) && Lost(s) && Enabled(s, step)
    ensures s.core.rc.m.Valid()
    ensures Next(oracle, s, step).core.rc.abandoned == s.core.rc.abandoned ==>
              (Lost(Next(oracle, s, step)) <==> !Rescues(s, step))
  {
    hide Books, Shape, Clean, Lost, Rescues, Next;
    if !Rescues(s, step) {
      LostKeeps(oracle, s, step);
    } else if Next(oracle, s, step).core.rc.abandoned == s.core.rc.abandoned {
      RescueEnds(oracle, s, step);
    }
  }
}
