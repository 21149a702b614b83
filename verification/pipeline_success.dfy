/** What success means: the command's adapter call was made on an open adapter. */
module PipelineSuccess {
  import opened Wire
  import opened Supervisor
  import opened Pipeline
  import opened PipelineTruth
  import opened PipelineRuns
  import PL = Lifecycle
  import AR = Reconnect

  const ADAPTER_COMMANDS := {
    CMD_POWER_ON, CMD_POWER_OFF, CMD_VOLUME_UP, CMD_VOLUME_DOWN, CMD_VOLUME_MUTE, CMD_CHANGE_SOURCE, CMD_KEY
  }

  /** What success of a command takes; `met`: the adapter was open when the job was run. */
  predicate Warranted(msg: Message, met: bool) {
    msg.ty != CMD_RESTART_ADAPTER ==>
      met && msg.ty in ADAPTER_COMMANDS && (msg.ty in {CMD_CHANGE_SOURCE, CMD_KEY} ==> msg.data != [])
  }

  predicate Deserved(job: Job, met: bool) {
    job.LiveJob? || job.ReplayJob? ==> Warranted(job.req.msg, met)
  }

  /** Every success so far was deserved, and so is the one the worker is about to record. */
  ghost predicate Earned(s: Pipe) {
    && |s.met| == |s.ran|
    && (forall i :: 0 <= i < |Finished(s)| && i < |s.results| && s.results[i] ==> Deserved(Finished(s)[i], s.met[i]))
    && (s.stage.Ran? && s.stage.ok && s.ran != [] ==> Deserved(s.stage.job, s.met[|s.met| - 1]))
  }

  /** The handler succeeds exactly when the adapter agrees to a call it was in a position to make. */
  lemma ExecuteExactly(connected: bool, msg: Message, ok: bool)
    ensures
      var (_, done) := ExecuteOnAdapter(connected, msg, ok);
      done <==> ok && Warranted(msg, connected)
  {
    hide DispatchOf;
    TableClassifies(msg.ty);
  }

  /**
   * What each job does, for any answer of the adapter: the connection flag it
   * leaves, and the result it comes to. A suspend closes the adapter; a resume
   * reopens it and looks again later; a reconnect and the restart command
   * reopen it and report the answer; the scan and the other commands leave
   * the connection alone.
   */
  lemma JobsDo(s: Pipe, ok: bool)
    requires s.stage.Fetched?
    ensures
      var r := RunJob(s, ok);
      && r == s.(core := s.core.(connected := r.core.connected), stage := r.stage, ran := r.ran, met := r.met)
      && r.ran == s.ran + [s.stage.job] && r.met == s.met + [s.core.connected]
      && (match s.stage.job
          case SuspendJob => !r.core.connected && r.stage == Ran(SuspendJob, true)
          case ResumeJob => r.core.connected == ok && r.stage == Reopened
          case ReconnectJob(attempt) => r.core.connected == ok && r.stage == Ran(ReconnectJob(attempt), ok)
          case ScanJob => r.core.connected == s.core.connected && r.stage == Ran(ScanJob, ok)
          case LiveJob(req) => CommandDoes(s, r, req.msg, ok)
          case ReplayJob(req) => CommandDoes(s, r, req.msg, ok))
  {
    hide DispatchOf, ExecuteOnAdapter, Warranted;
    if s.stage.job.LiveJob? || s.stage.job.ReplayJob? {
      ExecuteExactly(s.core.connected, s.stage.job.req.msg, ok);
      OnlyRestartReconnects(s.core.connected, s.stage.job.req.msg, ok);
    }
  }

  predicate CommandDoes(s: Pipe, r: Pipe, msg: Message, ok: bool)
    requires s.stage.Fetched?
  {
    && r.core.connected == (if msg.ty == CMD_RESTART_ADAPTER then ok else s.core.connected)
    && r.stage == Ran(s.stage.job, ok && Warranted(msg, s.core.connected))
  }

  lemma OnlyRestartReconnects(connected: bool, msg: Message, ok: bool)
    ensures ExecuteOnAdapter(connected, msg, ok).0 == if msg.ty == CMD_RESTART_ADAPTER then ok else connected
  {
    hide DispatchOf;
    TableClassifies(msg.ty);
  }

  /** What each finished job posts back. */
  lemma JobsReport(s: Pipe)
    requires s.stage.Ran?
    ensures
      var r := FinishJob(s);
      && r == s.(stage := Resting, posts := r.posts, results := s.results + [s.stage.ok])
      && r.posts == s.posts + match s.stage.job
                              case SuspendJob => [SuspendDone]
                              case ResumeJob => [ResumeDone(s.stage.ok)]
                              case ReconnectJob(attempt) => [ReconnectDone(attempt, s.stage.ok)]
                              case LiveJob(req) => [Answer(req, if s.stage.ok then Success else Error)]
                              case ReplayJob(_) => []
                              case ScanJob => []
  {
  }

  lemma CallsAreDeserved(connected: bool, job: Job, ok: bool)
    ensures
      var (_, stage) := AdapterCalls(connected, job, ok);
      stage.Ran? && stage.ok ==> Deserved(job, connected)
  {
    hide ExecuteOnAdapter, Warranted;
    if job.LiveJob? || job.ReplayJob? {
      ExecuteExactly(connected, job.req.msg, ok);
    }
  }

  lemma PerformEarns(s: Pipe, ok: bool)
    requires Recorded(s) && Earned(s) && s.stage.Fetched?
    ensures Earned(RunJob(s, ok))
  {
    hide AdapterCalls, Deserved;
    CallsAreDeserved(s.core.connected, s.stage.job, ok);
    assert Finished(RunJob(s, ok)) == Finished(s);
  }

  lemma FinishEarns(s: Pipe)
    requires Recorded(s) && Earned(s) && s.stage.Ran?
    ensures Earned(FinishJob(s))
  {
    hide Completion, Deserved;
    assert Finished(FinishJob(s)) == Finished(s) + [s.stage.job];
  }

  /** The worker's side of the state. */
  ghost predicate SameWorker(s: Pipe, r: Pipe) {
    r.stage == s.stage && r.ran == s.ran && r.met == s.met && r.results == s.results
  }

  /** The worker takes a job, closes the adapter to reopen it, or reads the connection flag again. */
  lemma StageEarns(s: Pipe, r: Pipe)
    requires Recorded(s) && Earned(s) && r == s.(stage := r.stage, core := r.core)
    requires
      || ((s.stage == Resting || s.stage.Fetched?) && r.stage.Fetched?)
      || (s.stage == Reopened && r.stage.Ran? && r.stage.job == ResumeJob)
    ensures Earned(r)
  {
    hide Warranted;
  }

  lemma SameWorkerEarns(s: Pipe, r: Pipe)
    requires Earned(s) && SameWorker(s, r)
    ensures Earned(r)
  {
    hide Deserved;
  }

  // ---------------------------------------------------------------------
  // The main thread leaves the worker alone
  // ---------------------------------------------------------------------

  lemma DispatchLeavesWorker(s: Pipe, req: Request)
    ensures SameWorker(s, Dispatch(s, req))
  {
    hide DispatchOf;
  }

  lemma PowerLeavesWorker(oracle: Oracle, s: Pipe, e: PL.Entry)
    requires s.core.rc.m.Valid()
    ensures SameWorker(s, PowerRequest(oracle, s, e))
  {
    hide Requested;
  }

  lemma CommandLeavesWorker(oracle: Oracle, s: Pipe, msg: Message)
    requires s.core.rc.m.Valid()
    ensures SameWorker(s, HandleCommand(oracle, s, msg))
  {
    hide DispatchOf, PowerRequest, Dispatch, AR.Machine.Valid;
    var t := s.(nextId := s.nextId + 1);
    DispatchLeavesWorker(t, Request(s.nextId, msg));
    PowerLeavesWorker(oracle, t, PL.Entry(PL.Suspend, PL.Wire));
    PowerLeavesWorker(oracle, t, PL.Entry(PL.Resume, PL.Wire));
  }

  lemma PostLeavesWorker(oracle: Oracle, s: Pipe, p: Post)
    requires s.core.rc.m.Valid()
    ensures SameWorker(s, RunPost(oracle, s, p))
  {
    hide PowerRequest, OnSuspendCompleted, OnResumeCompleted, Recover, AR.Machine.Valid;
    if p.PowerSignal? {
      PowerLeavesWorker(oracle, s, PL.Entry(p.kind, PL.DBus));
    }
  }

  lemma TakeEarns(oracle: Oracle, s: Pipe, step: Step)
    requires s.core.rc.m.Valid() && Recorded(s) && Earned(s)
    ensures Earned(Take(oracle, s, step))
  {
    hide Earned, Recorded, HandleCommand, RunPost, RunJob, FinishJob, OnSafetyTimerFired, OnRetryTimerFired;
    hide AR.Machine.Valid;
    if Enabled(s, step) {
      var r := Next(oracle, s, step);
      match step {
        case Perform(ok) => PerformEarns(s, ok);
        case Finish => FinishEarns(s);
        case Dequeue => StageEarns(s, r);
        case Reopening => StageEarns(s, r);
        case Probe => StageEarns(s, r);
        case WireCommand(msg) =>
          CommandLeavesWorker(oracle, s, msg);
          SameWorkerEarns(s, r);
        case DrainOne =>
          PostLeavesWorker(oracle, s.(posts := s.posts[1..]), s.posts[0]);
          SameWorkerEarns(s, r);
        case _ => SameWorkerEarns(s, r);
      }
    }
  }

  /**
   * In every run, a live or replayed command that came to success, the
   * restart command aside, met an open adapter when its job was run, is one
   * of the commands that call the adapter, and had its payload.
   */
  lemma {:induction false} SuccessMetAnOpenAdapter(oracle: Oracle, s0: Pipe, steps: seq<Step>)
    requires Initial(s0)
    ensures s0.core.rc.m.Valid() && Earned(After(oracle, s0, steps))
  {
    hide Earned, Take, Truthful, Initial;
    if steps == [] {
      NothingEarnedYet(s0);
    } else {
      var before := steps[..|steps| - 1];
      SuccessMetAnOpenAdapter(oracle, s0, before);
      RepliesAreTruthful(oracle, s0, before);
      TruthfulRecorded(After(oracle, s0, before));
      TakeEarns(oracle, After(oracle, s0, before), steps[|steps| - 1]);
    }
  }

  lemma NothingEarnedYet(s: Pipe)
    requires Initial(s)
    ensures s.core.rc.m.Valid() && Earned(s)
  {
  }

  lemma TruthfulRecorded(s: Pipe)
    requires Truthful(s)
    ensures Recorded(s)
  {
  }

  /** A client told success by a command's job can rely on it: the adapter was open when the command was run. */
  lemma ToldSuccessMetAnOpenAdapter(oracle: Oracle, s0: Pipe, steps: seq<Step>, i: nat)
    requires Initial(s0)
    requires
      var s := After(oracle, s0, steps);
      i < |Finished(s)| && Finished(s)[i].LiveJob? && Reply(Finished(s)[i].req.id, Success) in s.replies
    ensures
      var s := After(oracle, s0, steps);
      i < |s.met| && Warranted(Finished(s)[i].req.msg, s.met[i])
  {
    hide After, Initial, Finished, AnswersMatch, Acknowledged, Warranted;
    RepliesAreTruthful(oracle, s0, steps);
    SuccessMetAnOpenAdapter(oracle, s0, steps);
    RepliesSayNothingElse(oracle, s0, steps, i, Success);
    FinishedRan(After(oracle, s0, steps));
    assert Deserved(Finished(After(oracle, s0, steps))[i], After(oracle, s0, steps).met[i]);
  }

  lemma FinishedRan(s: Pipe)
    ensures |Finished(s)| <= |s.ran|
  {
  }
}
