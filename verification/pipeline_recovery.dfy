/**
 * A lost adapter is recovered: what sees to it in each state, and exactly
 * which steps let it slip. What becomes of one that has slipped comes after.
 */
module PipelineRecovery {
  import opened Seqs
  import opened Wire
  import opened Supervisor
  import opened Pipeline
  import opened PipelineMoves
  import opened PipelineShape
  import opened PipelineInvariant
  import opened PipelineRuns
  import opened PipelineAttempts
  import PL = Lifecycle
  import AR = Reconnect

  predicate IsRestart(job: Job) {
    (job.LiveJob? || job.ReplayJob?) && job.req.msg.ty == CMD_RESTART_ADAPTER
  }

  /** An attempt has reopened the adapter and its result is on its way. */
  predicate Reached(stage: Stage, posts: seq<Post>) {
    || (stage.Ran? && stage.job.ReconnectJob? && stage.ok)
    || exists k :: 0 <= k < |posts| && posts[k].ReconnectDone? && posts[k].ok
  }

  /** A loss reported after an attempt's result. */
  predicate LossBehind(posts: seq<Post>) {
    exists i, j :: 0 <= i < j < |posts| && posts[i].ReconnectDone? && posts[j].ConnectionLost?
  }

  predicate LossReported(posts: seq<Post>) {
    exists k :: 0 <= k < |posts| && posts[k].ConnectionLost?
  }

  /** A suspend or a resume of the whole system is on the queue; handling either sees to a lost adapter. */
  predicate BusRequested(posts: seq<Post>) {
    exists k :: 0 <= k < |posts| && posts[k].PowerSignal?
  }

  /**
   * Awake, recovery is on its way: at rest a loss is reported, in wait the
   * timer will fire, and in an attempt either the attempt is still to decide
   * or a loss is reported behind its result.
   */
  predicate Sheltered(m: AR.Machine, stage: Stage, posts: seq<Post>) {
    match m.state
    case Idle => LossReported(posts)
    case WaitingForRetry => true
    case Attempting => !Reached(stage, posts) || LossBehind(posts)
  }

  /** A restart command is between closing and opening. */
  predicate Restarting(stage: Stage) {
    stage.Fetched? && stage.closing && IsRestart(stage.job)
  }

  /** A resume has found the adapter back, and says so. */
  predicate Approved(stage: Stage, posts: seq<Post>) {
    || (stage.Ran? && stage.job.ResumeJob? && stage.ok)
    || exists k :: 0 <= k < |posts| && posts[k].ResumeDone? && posts[k].valid
  }

  /** The adapter is open or will be seen to; while suspended, once a resume has approved it. */
  predicate Covered(s: Pipe) {
    || s.core.connected
    || (if s.core.suspended then
          Approved(s.stage, s.posts) ==> LossReported(s.posts) || s.core.rc.m.state.WaitingForRetry?
        else Sheltered(s.core.rc.m, s.stage, s.posts) || Restarting(s.stage) || BusRequested(s.posts))
  }

  /** Awake, the one attempt outstanding is the awaited one. */
  ghost predicate Heeded(s: Pipe) {
    s.core.suspended || Clean(s)
  }

  /**
   * The steps that let a lost adapter slip, unless a bus request is on the
   * queue: an alert between an awaited attempt's reopening the adapter and its
   * result, and a restart command that fails with nothing else under way.
   */
  predicate Misses(s: Pipe, step: Step) {
    && !s.core.suspended && !BusRequested(s.posts)
    && (|| (step.Alert? && Attempting(s) && s.stage.Ran? && s.stage.job.ReconnectJob? && s.stage.ok)
        || (step == Perform(false) && s.stage.Fetched? && IsRestart(s.stage.job)
            && !Sheltered(s.core.rc.m, s.stage, s.posts)))
  }

  // ---------------------------------------------------------------------
  // What is in flight, seen from the queues
  // ---------------------------------------------------------------------

  lemma PostInFlight(s: Pipe, k: nat, job: Job)
    requires k < |s.posts| && JobOf(s.posts[k]) == [job]
    ensures job in Flight(s)
  {
    InFlatMap(JobOf, s.posts, s.posts[k], job);
  }

  lemma AttemptCounts(s: Pipe, a: nat)
    requires ReconnectJob(a) in Flight(s)
    ensures Attempts(s) != []
  {
    InFlatMap(AttemptOf, Flight(s), ReconnectJob(a), a);
  }

  /** No attempt outstanding: none in the posts, none in the worker's hands. */
  lemma NoAttemptLeft(s: Pipe)
    requires Attempts(s) == []
    ensures forall k :: 0 <= k < |s.posts| ==> !s.posts[k].ReconnectDone?
    ensures !Reached(s.stage, s.posts)
  {
    hide FlatMap;
    forall k | 0 <= k < |s.posts| ensures !s.posts[k].ReconnectDone? {
      if s.posts[k].ReconnectDone? {
        PostInFlight(s, k, ReconnectJob(s.posts[k].attempt));
        AttemptCounts(s, s.posts[k].attempt);
      }
    }
    if s.stage.Ran? && s.stage.job.ReconnectJob? {
      assert s.stage.job in Flight(s);
      AttemptCounts(s, s.stage.job.attempt);
    }
  }

  /** With at most one attempt outstanding, and that one in the worker's hands, no result is in the posts. */
  lemma AttemptAtStage(s: Pipe)
    requires |Attempts(s)| <= 1
    requires (s.stage.Fetched? || s.stage.Ran?) && s.stage.job.ReconnectJob?
    ensures forall k :: 0 <= k < |s.posts| ==> !s.posts[k].ReconnectDone?
    ensures Attempts(s) != []
  {
    hide FlatMap;
    var posted := FlatMap(JobOf, s.posts);
    FlatMapConcat(AttemptOf, posted + [s.stage.job], s.core.jobs);
    FlatMapOne(AttemptOf, posted, s.stage.job);
    assert Flight(s) == posted + [s.stage.job] + s.core.jobs;
    forall k | 0 <= k < |s.posts| ensures !s.posts[k].ReconnectDone? {
      if s.posts[k].ReconnectDone? {
        InFlatMap(JobOf, s.posts, s.posts[k], ReconnectJob(s.posts[k].attempt));
        InFlatMap(AttemptOf, posted, ReconnectJob(s.posts[k].attempt), s.posts[k].attempt);
      }
    }
  }

  /** A resume is in the posts or in the worker's hands only by itself, while resuming. */
  lemma ResumeAlone(s: Pipe)
    requires Inv(s)
    ensures (exists k :: 0 <= k < |s.posts| && s.posts[k].ResumeDone?) ==>
              s.core.suspended && s.core.pl.phase == PL.Resuming && s.stage == Resting && s.core.jobs == []
    ensures Staged(s.stage) == [ResumeJob] ==> s.core.suspended && s.core.pl.phase == PL.Resuming
  {
    hide Books, FlatMap;
    if k :| 0 <= k < |s.posts| && s.posts[k].ResumeDone? {
      PostInFlight(s, k, ResumeJob);
      PowerInFlight(s, ResumeJob);
      ResumeInPosts(s, k);
    }
    if Staged(s.stage) == [ResumeJob] {
      assert ResumeJob in Flight(s);
      PowerInFlight(s, ResumeJob);
    }
  }

  lemma PowerInFlight(s: Pipe, job: Job)
    requires Shaped(s) && job in Flight(s) && IsPower(job)
    ensures s.core.suspended && s.core.pl.phase != PL.Idle
    ensures job.ResumeJob? ==> s.core.pl.phase == PL.Resuming
  {
    hide Flight;
    var k :| 0 <= k < |Flight(s)| && Flight(s)[k] == job;
    assert IsPower(Flight(s)[k]);
  }

  lemma ResumeInPosts(s: Pipe, k: nat)
    requires Shaped(s) && s.core.suspended && s.core.pl.phase == PL.Resuming
    requires k < |s.posts| && s.posts[k].ResumeDone?
    ensures s.stage == Resting && s.core.jobs == []
  {
    hide FlatMap;
    InFlatMap(JobOf, s.posts, s.posts[k], ResumeJob);
    assert |FlatMap(JobOf, s.posts)| >= 1;
    assert |Flight(s)| == 1;
    assert Staged(s.stage) == [];
  }

  /** Awake, or asleep with the sequencer idle, no resume speaks. */
  lemma NobodyApproves(s: Pipe)
    requires Inv(s) && (!s.core.suspended || s.core.pl.phase != PL.Resuming || (s.stage != Resting && !s.stage.Ran?))
    ensures !Approved(s.stage, s.posts)
  {
    hide Inv;
    ResumeAlone(s);
  }

  // ---------------------------------------------------------------------
  // The queues change
  // ---------------------------------------------------------------------

  predicate ResultPosted(posts: seq<Post>) {
    exists k :: 0 <= k < |posts| && posts[k].ReconnectDone?
  }

  /** A post more. */
  lemma MorePosts(stage: Stage, posts: seq<Post>, p: Post)
    ensures LossReported(posts + [p]) == (LossReported(posts) || p.ConnectionLost?)
    ensures BusRequested(posts + [p]) == (BusRequested(posts) || p.PowerSignal?)
    ensures LossBehind(posts + [p]) == (LossBehind(posts) || (p.ConnectionLost? && ResultPosted(posts)))
    ensures Reached(stage, posts + [p]) == (Reached(stage, posts) || (p.ReconnectDone? && p.ok))
    ensures Approved(stage, posts + [p]) == (Approved(stage, posts) || (p.ResumeDone? && p.valid))
  {
    var more := posts + [p];
    assert forall k :: 0 <= k < |posts| ==> more[k] == posts[k];
    assert more[|posts|] == p;
    if LossBehind(posts) {
      var i, j :| 0 <= i < j < |posts| && posts[i].ReconnectDone? && posts[j].ConnectionLost?;
      assert more[i].ReconnectDone? && more[j].ConnectionLost?;
    }
    if p.ConnectionLost? && ResultPosted(posts) {
      var k :| 0 <= k < |posts| && posts[k].ReconnectDone?;
      assert more[k].ReconnectDone? && more[|posts|].ConnectionLost?;
    }
  }

  /** The head of the queue is taken off. */
  lemma LessPosts(stage: Stage, posts: seq<Post>)
    requires posts != []
    ensures !posts[0].ConnectionLost? && LossReported(posts) ==> LossReported(posts[1..])
    ensures !posts[0].PowerSignal? && BusRequested(posts) ==> BusRequested(posts[1..])
    ensures !posts[0].ReconnectDone? && LossBehind(posts) ==> LossBehind(posts[1..])
    ensures posts[0].ReconnectDone? && LossBehind(posts) ==> LossReported(posts[1..])
    ensures Reached(stage, posts[1..]) ==> Reached(stage, posts)
    ensures Approved(stage, posts[1..]) ==> Approved(stage, posts)
  {
    var less := posts[1..];
    assert forall k :: 0 <= k < |less| ==> less[k] == posts[k + 1];
    if LossReported(posts) && !posts[0].ConnectionLost? {
      var k :| 0 <= k < |posts| && posts[k].ConnectionLost?;
      assert less[k - 1].ConnectionLost?;
    }
    if BusRequested(posts) && !posts[0].PowerSignal? {
      var k :| 0 <= k < |posts| && posts[k].PowerSignal?;
      assert less[k - 1].PowerSignal?;
    }
    if LossBehind(posts) {
      var i, j :| 0 <= i < j < |posts| && posts[i].ReconnectDone? && posts[j].ConnectionLost?;
      assert less[j - 1].ConnectionLost?;
      if i > 0 {
        assert less[i - 1].ReconnectDone?;
      }
    }
  }

  // ---------------------------------------------------------------------
  // Steps that leave the machine alone
  // ---------------------------------------------------------------------

  ghost predicate SameMachine(s: Pipe, r: Pipe) {
    r.core.rc.m == s.core.rc.m && r.core.suspended == s.core.suspended
  }

  lemma PostCovers(s: Pipe, r: Pipe, p: Post)
    requires Covered(s) && SameMachine(s, r) && r.core.connected == s.core.connected && r.stage == s.stage
    requires r.posts == s.posts + [p] && !p.ReconnectDone? && !p.ResumeDone?
    ensures Covered(r)
  {
    hide Reached, LossBehind, LossReported, Approved, BusRequested;
    MorePosts(s.stage, s.posts, p);
  }

  lemma PopCovers(s: Pipe, r: Pipe)
    requires Covered(s) && SameMachine(s, r) && r.core.connected == s.core.connected && r.stage == s.stage
    requires s.posts != [] && r.posts == s.posts[1..]
    requires !s.posts[0].ConnectionLost? && !s.posts[0].ReconnectDone?
    requires s.posts[0].PowerSignal? ==> s.core.suspended
    ensures Covered(r)
  {
    hide Reached, LossBehind, LossReported, Approved, BusRequested;
    LessPosts(s.stage, s.posts);
  }

  lemma SameCovers(s: Pipe, r: Pipe)
    requires Covered(s) && SameMachine(s, r) && r.core.connected == s.core.connected
    requires r.stage == s.stage && r.posts == s.posts
    ensures Covered(r)
  {
  }

  lemma DequeueCovers(s: Pipe, r: Pipe)
    requires Covered(s) && SameMachine(s, r) && r.core.connected == s.core.connected
    requires s.stage == Resting && r.stage.Fetched? && r.posts == s.posts
    ensures Covered(r)
  {
    hide LossBehind, LossReported, BusRequested;
  }

  /** A job that reopens the adapter closes it first. */
  lemma ReopeningCovers(s: Pipe, r: Pipe)
    requires Inv(s) && Heeded(s) && Covered(s) && SameMachine(s, r)
    requires s.stage.Fetched? && Reopens(s.stage.job) && r.stage == s.stage.(closing := true) && r.posts == s.posts
    ensures Covered(r)
  {
    hide Inv, Attempts, LossBehind, LossReported, BusRequested;
    ResumeAlone(s);
    if s.core.suspended {
      NobodyApproves(s);
    } else if s.stage.job.ReconnectJob? {
      AttemptAtStage(s);
    }
  }

  /** What a job leaves of the connection flag. */
  lemma JobLeaves(connected: bool, job: Job, ok: bool)
    ensures
      var (c, stage) := AdapterCalls(connected, job, ok);
      && (job.ReconnectJob? ==> c == ok && stage == Ran(job, ok))
      && (IsRestart(job) ==> c == ok && stage == Ran(job, ok))
      && (!Reopens(job) && !job.SuspendJob? ==> c == connected && stage.Ran? && stage.job == job)
  {
    hide DispatchOf;
    if job.LiveJob? || job.ReplayJob? {
      TableClassifies(job.req.msg.ty);
    }
  }

  /** How the queues and the flag look after a job has run. */
  ghost predicate JobRun(s: Pipe, r: Pipe, ok: bool)
    requires s.stage.Fetched?
  {
    && SameMachine(s, r) && r.posts == s.posts
    && (r.core.connected, r.stage) == AdapterCalls(s.core.connected, s.stage.job, ok)
  }

  lemma AsleepJobCovers(s: Pipe, r: Pipe, ok: bool)
    requires Inv(s) && s.core.suspended && s.stage.Fetched? && JobRun(s, r, ok)
    ensures Covered(r)
  {
    hide Inv, LossReported, BusRequested, AdapterCalls;
    NobodyApproves(s);
  }

  lemma AttemptCovers(s: Pipe, r: Pipe, ok: bool)
    requires Inv(s) && Clean(s) && !s.core.suspended
    requires s.stage.Fetched? && s.stage.job.ReconnectJob? && JobRun(s, r, ok)
    ensures Covered(r)
  {
    hide Inv, Attempts, LossBehind, LossReported, BusRequested, AdapterCalls;
    JobLeaves(s.core.connected, s.stage.job, ok);
    AttemptAtStage(s);
  }

  /** A restart command that fails leaves the adapter closed; whether that is seen to is up to the rest. */
  lemma RestartCovers(s: Pipe, r: Pipe, ok: bool)
    requires !s.core.suspended && s.stage.Fetched? && IsRestart(s.stage.job) && JobRun(s, r, ok)
    ensures Covered(r) <==> ok || Sheltered(s.core.rc.m, s.stage, s.posts) || BusRequested(s.posts)
  {
    hide LossBehind, LossReported, BusRequested, AdapterCalls;
    JobLeaves(s.core.connected, s.stage.job, ok);
  }

  lemma OtherJobCovers(s: Pipe, r: Pipe, ok: bool)
    requires Covered(s) && !s.core.suspended && s.stage.Fetched? && JobRun(s, r, ok)
    requires !Reopens(s.stage.job) && !s.stage.job.SuspendJob?
    ensures Covered(r)
  {
    hide LossBehind, LossReported, BusRequested, AdapterCalls;
    JobLeaves(s.core.connected, s.stage.job, ok);
  }

  lemma PerformCovers(s: Pipe, ok: bool)
    requires Inv(s) && Heeded(s) && Covered(s) && Enabled(s, Perform(ok))
    ensures Covered(RunJob(s, ok)) <==> !Misses(s, Perform(ok))
  {
    hide Inv, Clean, Covered, Sheltered, BusRequested, AdapterCalls;
    var r := RunJob(s, ok);
    assert JobRun(s, r, ok);
    if s.core.suspended {
      AsleepJobCovers(s, r, ok);
    } else {
      AwakeJob(s);
      if s.stage.job.ReconnectJob? {
        AttemptCovers(s, r, ok);
      } else if IsRestart(s.stage.job) {
        RestartCovers(s, r, ok);
      } else {
        OtherJobCovers(s, r, ok);
      }
    }
  }

  lemma AwakeJob(s: Pipe)
    requires Inv(s) && !s.core.suspended && (s.stage.Fetched? || s.stage.Ran?)
    ensures !IsPower(s.stage.job)
  {
    hide Books, FlatMap;
    var job := s.stage.job;
    assert job in Flight(s);
    if IsPower(job) {
      PowerInFlight(s, job);
    }
  }

  lemma ProbeCovers(s: Pipe, r: Pipe)
    requires Inv(s) && Covered(s) && s.stage == Reopened && r == s.(stage := Ran(ResumeJob, s.core.connected))
    ensures Covered(r)
  {
    hide Inv, LossReported, BusRequested;
    ResumeAlone(s);
    NobodyApproves(s);
  }

  lemma FinishCovers(s: Pipe)
    requires Inv(s) && Covered(s) && s.stage.Ran?
    ensures Covered(FinishJob(s))
  {
    hide Inv, LossBehind, LossReported, BusRequested;
    var posted := Completion(s.stage.job, s.stage.ok);
    if posted != [] {
      assert posted == [posted[0]];
      MorePosts(Resting, s.posts, posted[0]);
      Spoken(s.stage, s.posts, posted[0]);
    } else {
      assert s.posts + posted == s.posts;
    }
  }

  /** What the worker held it now says. */
  lemma Spoken(stage: Stage, posts: seq<Post>, p: Post)
    requires stage.Ran? && Completion(stage.job, stage.ok) == [p]
    ensures Reached(Resting, posts + [p]) ==> Reached(stage, posts)
    ensures Approved(Resting, posts + [p]) ==> Approved(stage, posts)
  {
    assert forall k :: 0 <= k < |posts| ==> (posts + [p])[k] == posts[k];
  }

  lemma AlertCovers(s: Pipe, r: Pipe)
    requires Inv(s) && Heeded(s) && Covered(s)
    requires r == s.(core := s.core.(connected := false), posts := s.posts + [ConnectionLost])
    ensures Covered(r) <==> !Misses(s, Alert)
  {
    hide Inv, Attempts;
    MorePosts(s.stage, s.posts, ConnectionLost);
    if !s.core.suspended && s.stage.Ran? && s.stage.job.ReconnectJob? {
      AttemptAtStage(s);
      NoLossBehind(r.posts);
    }
  }

  lemma NoLossBehind(posts: seq<Post>)
    requires forall k :: 0 <= k < |posts| ==> !posts[k].ReconnectDone?
    ensures !LossBehind(posts)
  {
  }

  // ---------------------------------------------------------------------
  // Events for the machine
  // ---------------------------------------------------------------------

  /** The event was absorbed, or has left the machine waiting, in a fresh attempt, or at rest with the adapter open. */
  ghost predicate Reacts(s: Pipe, r: Pipe, e: AR.Event)
    requires s.core.rc.m.Valid()
  {
    && r.core.suspended == s.core.suspended && r.core.connected == s.core.connected
    && (|| (r.core.rc.m == s.core.rc.m
            && (e == AR.ConnectionLost ==> Attempting(s))
            && (e in {AR.AttemptSucceeded, AR.AttemptFailed} ==> !Attempting(s)))
        || r.core.rc.m.state.WaitingForRetry?
        || (r.core.rc.m.state.Attempting? && !s.core.suspended && !Attempting(s))
        || (r.core.rc.m.state.Idle? && Attempting(s) && e == AR.AttemptSucceeded)
        || (r.core.rc.m.state.Idle? && s.core.connected && !s.core.suspended))
  }

  lemma EventReacts(oracle: Oracle, s: Pipe, t: Pipe, e: AR.Event)
    requires s.core.rc.m.Valid() && TimerAgrees(s.core.rc) && t.core == s.core
    requires e in {AR.ConnectionLost, AR.RetryTimerFired, AR.AttemptSucceeded, AR.AttemptFailed}
    requires Recover(oracle, s.core, e).rc.abandoned == s.core.rc.abandoned
    ensures Reacts(s, t.(core := Recover(oracle, t.core, e)), e)
  {
    hide Execute;
    SignalEffect(oracle, s.core.rc, s.core.Gate(), e);
    SignalRests(oracle, s.core.rc, s.core.Gate(), e);
    if AR.Transition(s.core.rc.m, e) == (s.core.rc.m, AR.INERT) {
      AbsorbedSignal(oracle, s.core.rc, s.core.Gate(), e);
    }
  }

  lemma AttemptIsAwake(s: Pipe)
    requires Inv(s)
    ensures Attempting(s) ==> !s.core.suspended
  {
  }

  lemma RetryCovers(oracle: Oracle, s: Pipe)
    requires Inv(s) && Heeded(s) && Covered(s)
    requires OnRetryTimerFired(oracle, s.core).rc.abandoned == s.core.rc.abandoned
    ensures Covered(s.(core := OnRetryTimerFired(oracle, s.core)))
  {
    hide Books, Shape, Flight, Attempts, LossBehind, LossReported, Reached, Approved, BusRequested, Recover;
    RetryEffect(oracle, s.core);
    EventReacts(oracle, s, s, AR.RetryTimerFired);
    if !s.core.suspended && !Attempting(s) {
      NoAttemptLeft(s);
    }
  }

  lemma LossCovers(oracle: Oracle, s: Pipe)
    requires Inv(s) && Heeded(s) && Covered(s) && s.posts != [] && s.posts[0].ConnectionLost?
    requires Recover(oracle, s.core, AR.ConnectionLost).rc.abandoned == s.core.rc.abandoned
    ensures Covered(Popped(s).(core := Recover(oracle, s.core, AR.ConnectionLost)))
  {
    hide Books, Shape, Flight, Attempts, LossBehind, LossReported, Reached, Approved, BusRequested, Recover;
    EventReacts(oracle, s, Popped(s), AR.ConnectionLost);
    LessPosts(s.stage, s.posts);
    AttemptIsAwake(s);
    if !s.core.suspended && !Attempting(s) {
      NoAttemptLeft(s);
    }
  }

  lemma ResultCovers(oracle: Oracle, s: Pipe)
    requires Inv(s) && Heeded(s) && Covered(s) && s.posts != [] && s.posts[0].ReconnectDone?
    requires ReconnectFinished(oracle, Popped(s), s.posts[0].ok).core.rc.abandoned == s.core.rc.abandoned
    ensures Covered(ReconnectFinished(oracle, Popped(s), s.posts[0].ok))
  {
    hide Books, Shape, Flight, Attempts, LossBehind, LossReported, Approved, BusRequested, Recover;
    var e := if s.posts[0].ok then AR.AttemptSucceeded else AR.AttemptFailed;
    EventReacts(oracle, s, Popped(s), e);
    LessPosts(s.stage, s.posts);
    if !s.core.suspended && !Attempting(s) {
      NoAttemptLeft(s);
    }
  }

  lemma EventCovers(oracle: Oracle, s: Pipe, step: Step)
    requires Inv(s) && Heeded(s) && Covered(s) && Enabled(s, step) && Signals(s, step).Some?
    requires Next(oracle, s, step).core.rc.abandoned == s.core.rc.abandoned
    ensures Covered(Next(oracle, s, step))
  {
    hide Books, Shape, Heeded, Covered, Recover, ReconnectFinished, OnRetryTimerFired;
    if step.RetryTimer? {
      RetryCovers(oracle, s);
    } else if s.posts[0].ConnectionLost? {
      LossCovers(oracle, s);
    } else {
      ResultCovers(oracle, s);
    }
  }

  // ---------------------------------------------------------------------
  // Power requests and completions
  // ---------------------------------------------------------------------

  /** A resume requested while awake leaves a cycle waiting, or one more abandoned. */
  lemma RequestRevives(oracle: Oracle, c: Core, e: PL.Entry)
    requires Rested(c)
    ensures
      var r := Requested(oracle, c, e);
      && r.rc.abandoned >= c.rc.abandoned && r.connected == c.connected
      && (c.pl.phase != PL.Idle ==> r.rc == c.rc)
      && (c.pl.phase == PL.Idle && !c.suspended && e.kind == PL.Resume ==>
            r.rc.m.state.WaitingForRetry? || r.rc.abandoned > c.rc.abandoned)
  {
    hide Settled, Pump;
    var q := c.(pl := PL.Requested(c.pl, e));
    RequestEffect(oracle, c, e);
    if c.pl.phase == PL.Idle {
      ApplyIsPump(oracle, q, PL.INERT);
      assert Prepare(oracle, q, PL.INERT) == q;
      PumpRevives(oracle, q);
      SettledConnected(q, Pump(oracle, q));
      assert Skipped(false, [PL.Entry(PL.Resume, e.source)]) == 1;
    }
  }

  lemma SettledConnected(c: Core, r: Core)
    requires Settled(c, r)
    ensures r.connected == c.connected
  {
  }

  /** `t` is `s`, perhaps with the request's own post taken off. */
  lemma RequestCovers(oracle: Oracle, s: Pipe, t: Pipe, e: PL.Entry)
    requires Inv(s) && Covered(s) && Inv(t) && t.core == s.core && t.stage == s.stage
    requires t.core.suspended ==> Covered(t)
    requires PowerRequest(oracle, t, e).core.rc.abandoned == t.core.rc.abandoned
    ensures Covered(PowerRequest(oracle, t, e))
  {
    hide Books, Shape, Flight, Requested, LossReported, LossBehind, Reached, Approved, BusRequested;
    RequestRevives(oracle, t.core, e);
    RequestSequenced(oracle, t, e);
    if !t.core.suspended || t.core.pl.phase != PL.Resuming {
      NobodyApproves(t);
    }
    if !t.core.suspended {
      AwakeIsIdle(t);
    }
  }

  lemma AwakeIsIdle(s: Pipe)
    requires Inv(s) && !s.core.suspended
    ensures s.core.pl.phase == PL.Idle
  {
  }

  lemma SignalPopCovers(s: Pipe)
    requires Inv(s) && Covered(s) && s.posts != [] && s.posts[0].PowerSignal?
    ensures Inv(Popped(s)) && (s.core.suspended ==> Covered(Popped(s)))
  {
    hide Inv, Covered, JobOf;
    assert JobOf(s.posts[0]) == [] by { SignalIsNoJob(s.posts[0]); }
    PopKeeps(s);
    if s.core.suspended {
      PopCovers(s, Popped(s));
    }
  }

  lemma SignalIsNoJob(p: Post)
    requires p.PowerSignal?
    ensures JobOf(p) == []
  {
  }

  lemma RequestStepCovers(oracle: Oracle, s: Pipe, step: Step)
    requires Inv(s) && Covered(s) && Enabled(s, step) && Requests(s, step).Some?
    requires s.core.rc.m.Valid() && Next(oracle, s, step).core.rc.abandoned == s.core.rc.abandoned
    ensures Covered(Next(oracle, s, step))
  {
    hide Inv, PowerRequest, HandleCommand, LossReported, LossBehind, Reached, Approved, BusRequested;
    if step.WireCommand? {
      CommandSequenced(oracle, s, step.msg);
      RequestCovers(oracle, s, s, Requests(s, step).value);
    } else {
      SignalPopCovers(s);
      RequestCovers(oracle, s, Popped(s), Requests(s, step).value);
    }
  }

  lemma NothingApproves(s: Pipe)
    requires Flight(s) == []
    ensures !Approved(s.stage, s.posts)
  {
    hide FlatMap;
    if k :| 0 <= k < |s.posts| && s.posts[k].ResumeDone? && s.posts[k].valid {
      PostInFlight(s, k, ResumeJob);
    }
    assert Staged(s.stage) == [];
  }

  lemma SuspendDoneCovers(oracle: Oracle, s: Pipe)
    requires Inv(s) && s.posts != [] && s.posts[0].SuspendDone?
    ensures Covered(SuspendFinished(oracle, Popped(s)))
  {
    hide Books, Shape, Flight, Attempts, LossReported, Approved, BusRequested, Supervisor.OnSuspendCompleted;
    CompletionIsAll(s);
    NothingApproves(Popped(s));
    var gave := SuspendFinishes(oracle, Popped(s));
  }

  /** A scan that ends awake has skipped all there was. */
  lemma AwakeSkips(c: Core, r: Core)
    requires Settled(c, r) && !r.suspended && c.pl.pending != []
    ensures Skipped(c.suspended, c.pl.pending) > 0
  {
    assert c.pl.pending[0..] == c.pl.pending;
  }

  /** Awake after a resume: recovery waits, or is as it was with nothing else requested. */
  lemma ResumedRecovery(oracle: Oracle, c: Core, valid: bool)
    requires Rested(c) && c.pl.phase == PL.Resuming && !c.suspended && !c.rc.m.state.Attempting?
    ensures
      var r := OnResumeCompleted(oracle, c, valid);
      r.rc.abandoned == c.rc.abandoned && !r.suspended ==> r.rc.m.state.WaitingForRetry? || (valid && r.rc == c.rc)
  {
    hide Settled, Skipped, OnResumeCompleted;
    ResumeRevives(oracle, c, valid);
    ResumeCompletedEffect(oracle, c, valid);
    var (m, out) := PL.ResumeCompleted(c.pl);
    var q := c.(pl := m, locks := c.locks + if c.monitored && out.lock.Some? then [out.lock.value] else []);
    var r := OnResumeCompleted(oracle, c, valid);
    if !r.suspended && c.pl.pending != [] {
      AwakeSkips(q, r);
    }
  }

  lemma ResumeDoneCovers(oracle: Oracle, s: Pipe)
    requires Inv(s) && Covered(s) && s.posts != [] && s.posts[0].ResumeDone?
    requires ResumeFinished(oracle, Popped(s), s.posts[0].valid).core.rc.abandoned == s.core.rc.abandoned
    ensures Covered(ResumeFinished(oracle, Popped(s), s.posts[0].valid))
  {
    hide Books, Shape, Flight, Attempts, LossBehind, LossReported, Reached, BusRequested, Supervisor.OnResumeCompleted;
    var t := Popped(s);
    var valid := s.posts[0].valid;
    CompletionIsAll(s);
    NothingApproves(t);
    LessPosts(s.stage, s.posts);
    var gave := ResumeFinishes(oracle, t, valid);
    ResumedRecovery(oracle, Resolve(t, valid).core, valid);
  }

  lemma CompletionCovers(oracle: Oracle, s: Pipe, step: Step)
    requires Inv(s) && Covered(s) && Enabled(s, step) && Completes(s, step)
    requires s.core.rc.m.Valid() && Next(oracle, s, step).core.rc.abandoned == s.core.rc.abandoned
    ensures Covered(Next(oracle, s, step))
  {
    hide Inv, Covered, SuspendFinished, ResumeFinished;
    if s.posts[0].SuspendDone? {
      SuspendDoneCovers(oracle, s);
    } else {
      ResumeDoneCovers(oracle, s);
    }
  }

  // ---------------------------------------------------------------------
  // The remaining steps
  // ---------------------------------------------------------------------

  lemma ClosureCovers(oracle: Oracle, s: Pipe)
    requires Covered(s) && s.core.rc.m.Valid() && s.posts != []
    requires s.posts[0].Answer? || s.posts[0].Observation? || s.posts[0].ArmStandby? || s.posts[0].SuspendSystem?
    ensures Covered(RunPost(oracle, Popped(s), s.posts[0]))
  {
    hide Covered;
    var t := Popped(s);
    PopCovers(s, t);
    var r := RunPost(oracle, t, s.posts[0]);
    if r.posts == t.posts {
      SameCovers(t, r);
    } else {
      PostCovers(t, r, SuspendSystem);
    }
  }

  lemma SafetyCovers(oracle: Oracle, s: Pipe)
    requires Rested(s.core) && Covered(s)
    ensures Covered(s.(core := OnSafetyTimerFired(oracle, s.core)))
  {
    hide Covered, OnSafetyTimerFired;
    SafetyEffect(oracle, s.core);
    SameCovers(s, s.(core := OnSafetyTimerFired(oracle, s.core)));
  }

  lemma CommandCovers(oracle: Oracle, s: Pipe, msg: Message)
    requires Covered(s) && s.core.rc.m.Valid() && msg.ty != CMD_SUSPEND && msg.ty != CMD_RESUME
    ensures Covered(HandleCommand(oracle, s, msg))
  {
    hide Covered, HandleCommand;
    CommandRecovery(oracle, s, msg);
    SameCovers(s, HandleCommand(oracle, s, msg));
  }

  lemma WorkerCovers(oracle: Oracle, s: Pipe, step: Step)
    requires Inv(s) && Heeded(s) && Covered(s) && Enabled(s, step) && s.core.rc.m.Valid()
    requires step.Dequeue? || step.Reopening? || step.Perform? || step.Probe? || step.Finish?
    ensures Covered(Next(oracle, s, step)) <==> !Misses(s, step)
  {
    hide Inv, Heeded, Covered, RunJob, FinishJob, Sheltered, Reopens;
    var r := Next(oracle, s, step);
    if step.Dequeue? {
      DequeueCovers(s, r);
    } else if step.Reopening? {
      ReopeningCovers(s, r);
    } else if step.Perform? {
      PerformCovers(s, step.ok);
    } else if step.Probe? {
      ProbeCovers(s, r);
    } else {
      FinishCovers(s);
    }
  }

  lemma OutsideCovers(oracle: Oracle, s: Pipe, step: Step)
    requires Inv(s) && Heeded(s) && Covered(s) && Enabled(s, step) && s.core.rc.m.Valid()
    requires step.SafetyExpires? || step.RetryExpires? || step.Alert? || step.Observed? || step.BusSignal?
    ensures Covered(Next(oracle, s, step)) <==> !Misses(s, step)
  {
    hide Inv, Heeded, Covered;
    var r := Next(oracle, s, step);
    if step.Alert? {
      AlertCovers(s, r);
    } else if step.Observed? {
      PostCovers(s, r, Observation(step.tvStandby));
    } else if step.BusSignal? {
      PostCovers(s, r, PowerSignal(step.kind));
    } else {
      SameCovers(s, r);
    }
  }

  /**
   * As long as awake the one attempt outstanding is the awaited one and no
   * cycle is given up, a step loses sight of a lost adapter exactly if it is
   * one of the two that miss.
   */
  lemma CoveredExactly(oracle: Oracle, s: Pipe, step: Step)
    requires Inv(s) && Heeded(s) && Covered(s) && Enabled(s, step)
    ensures s.core.rc.m.Valid()
    ensures Next(oracle, s, step).core.rc.abandoned == s.core.rc.abandoned ==>
              (Covered(Next(oracle, s, step)) <==> !Misses(s, step))
  {
    hide Heeded, Covered, Shape, Books, Next;
    if Next(oracle, s, step).core.rc.abandoned == s.core.rc.abandoned {
      if Signals(s, step).Some? {
        EventCovers(oracle, s, step);
      } else if Requests(s, step).Some? {
        RequestStepCovers(oracle, s, step);
      } else if Completes(s, step) {
        CompletionCovers(oracle, s, step);
      } else if step.Dequeue? || step.Reopening? || step.Perform? || step.Probe? || step.Finish? {
        WorkerCovers(oracle, s, step);
      } else if step.SafetyExpires? || step.RetryExpires? || step.Alert? || step.Observed? || step.BusSignal? {
        OutsideCovers(oracle, s, step);
      } else {
        RestCovers(oracle, s, step);
      }
    }
  }

  lemma RestCovers(oracle: Oracle, s: Pipe, step: Step)
    requires Inv(s) && Covered(s) && Enabled(s, step) && s.core.rc.m.Valid()
    requires step.WireCommand? || step.DrainOne? || step.SafetyTimer?
    requires Requests(s, step).None? && Signals(s, step).None? && !Completes(s, step)
    ensures Covered(Next(oracle, s, step))
  {
    hide Covered, Shape, Books, HandleCommand, RunPost, OnSafetyTimerFired;
    if step.WireCommand? {
      CommandCovers(oracle, s, step.msg);
    } else if step.DrainOne? {
      ClosureCovers(oracle, s);
    } else {
      SafetyCovers(oracle, s);
    }
  }
}
