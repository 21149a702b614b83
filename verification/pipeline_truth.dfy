/** What a reply says is so: responses are those of the jobs they answer for. */
module PipelineTruth {
  import opened Seqs
  import opened Wire
  import opened Supervisor
  import opened Pipeline
  import opened PipelineMoves
  import opened PipelineShape
  import opened PipelineInvariant
  import opened PipelineRuns
  import PL = Lifecycle
  import AR = Reconnect

  /** The jobs whose result the worker has recorded. */
  function Finished(s: Pipe): seq<Job> {
    if (s.stage.Ran? || s.stage.Reopened?) && s.ran != [] then s.ran[..|s.ran| - 1] else s.ran
  }

  function ResponseFor(ok: bool): Response {
    if ok then Success else Error
  }

  /** The answer is out, or on its way. */
  predicate Said(req: Request, response: Response, replies: seq<Reply>, posts: seq<Post>) {
    Reply(req.id, response) in replies || Answer(req, response) in posts
  }

  /** The job in hand is the last one run; the others have their results. */
  ghost predicate Recorded(s: Pipe) {
    && |s.results| == |Finished(s)|
    && (s.stage.Ran? ==> s.ran != [] && s.ran[|s.ran| - 1] == s.stage.job)
    && (s.stage.Reopened? ==> s.ran != [] && s.ran[|s.ran| - 1] == ResumeJob)
  }

  ghost predicate AnswersMatch(finished: seq<Job>, results: seq<bool>, replies: seq<Reply>, posts: seq<Post>) {
    forall i :: 0 <= i < |finished| && i < |results| && finished[i].LiveJob? ==>
      Said(finished[i].req, ResponseFor(results[i]), replies, posts)
  }

  ghost predicate Acknowledged(accepted: seq<Request>, replies: seq<Reply>) {
    forall k :: 0 <= k < |accepted| ==> Reply(accepted[k].id, Success) in replies
  }

  ghost predicate Truthful(s: Pipe) {
    && Recorded(s) && AnswersMatch(Finished(s), s.results, s.replies, s.posts) && Acknowledged(s.accepted, s.replies)
  }

  /** No answer is lost on the main thread; the worker is elsewhere. */
  ghost predicate KeepsAnswers(s: Pipe, r: Pipe) {
    && r.stage == s.stage && r.ran == s.ran && r.results == s.results
    && (forall p :: p in s.replies ==> p in r.replies)
    && (forall req, response :: Answer(req, response) in s.posts ==>
          Answer(req, response) in r.posts || Reply(req.id, response) in r.replies)
    && Acknowledged(r.accepted, r.replies)
  }

  lemma KeepsTruth(s: Pipe, r: Pipe)
    requires Truthful(s) && KeepsAnswers(s, r)
    ensures Truthful(r)
  {
  }

  lemma AcknowledgedMore(accepted: seq<Request>, replies: seq<Reply>, more: seq<Reply>)
    requires Acknowledged(accepted, replies)
    ensures Acknowledged(accepted, replies + more)
  {
  }

  /** Steps that say nothing and park nothing. */
  lemma SilentTruth(s: Pipe, r: Pipe, more: seq<Post>)
    requires Truthful(s) && r.stage == s.stage && r.ran == s.ran && r.results == s.results
    requires r.replies == s.replies && r.accepted == s.accepted && r.posts == s.posts + more
    ensures Truthful(r)
  {
    hide Recorded, AnswersMatch, Finished;
    assert KeepsAnswers(s, r);
    KeepsTruth(s, r);
  }

  lemma RespondTruth(s: Pipe, req: Request, response: Response)
    requires Truthful(s)
    ensures Truthful(Respond(s, req, response))
  {
    hide Recorded, AnswersMatch, Finished;
    AcknowledgedMore(s.accepted, s.replies, [Reply(req.id, response)]);
    assert KeepsAnswers(s, Respond(s, req, response));
    KeepsTruth(s, Respond(s, req, response));
  }

  lemma ParkTruth(s: Pipe, req: Request)
    requires Truthful(s)
    ensures Truthful(Respond(s.(parked := s.parked + [req], accepted := s.accepted + [req]), req, Success))
  {
    hide Recorded, AnswersMatch, Finished;
    var r := Respond(s.(parked := s.parked + [req], accepted := s.accepted + [req]), req, Success);
    assert r.replies[|s.replies|] == Reply(req.id, Success);
    AcknowledgedMore(s.accepted, s.replies, [Reply(req.id, Success)]);
    assert KeepsAnswers(s, r);
    KeepsTruth(s, r);
  }

  lemma DispatchTruth(s: Pipe, req: Request)
    requires Truthful(s)
    ensures Truthful(Dispatch(s, req))
  {
    hide Truthful, DispatchOf, Respond;
    RespondTruth(s, req, Error);
    ParkTruth(s, req);
    if req.msg.data != [] {
      var t := s.(standbyEnabled := req.msg.data[0] > 0);
      assert s.posts + [] == s.posts;
      SilentTruth(s, t, []);
      RespondTruth(t, req, Success);
    }
    assert s.posts + [] == s.posts;
    SilentTruth(s, Submit(s, [LiveJob(req)]), []);
  }

  lemma PowerTruth(oracle: Oracle, s: Pipe, e: PL.Entry)
    requires Truthful(s) && s.core.rc.m.Valid()
    ensures Truthful(PowerRequest(oracle, s, e))
  {
    hide Truthful, Requested;
    assert s.posts + [] == s.posts;
    SilentTruth(s, PowerRequest(oracle, s, e), []);
  }

  lemma CommandTruth(oracle: Oracle, s: Pipe, msg: Message)
    requires Truthful(s) && s.core.rc.m.Valid()
    ensures Truthful(HandleCommand(oracle, s, msg))
  {
    hide Truthful, DispatchOf, PowerRequest, Dispatch, Respond;
    var t := s.(nextId := s.nextId + 1);
    var req := Request(s.nextId, msg);
    assert s.posts + [] == s.posts;
    SilentTruth(s, t, []);
    DispatchTruth(t, req);
    RespondTruth(t, req, Error);
    forall kind ensures Truthful(Respond(PowerRequest(oracle, t, PL.Entry(kind, PL.Wire)), req, Success)) {
      PowerTruth(oracle, t, PL.Entry(kind, PL.Wire));
      RespondTruth(PowerRequest(oracle, t, PL.Entry(kind, PL.Wire)), req, Success);
    }
  }

  /** The answer at the head of the queue reaches its sink. */
  lemma AnswerTruth(s: Pipe, req: Request, response: Response)
    requires Truthful(s) && s.posts != [] && s.posts[0] == Answer(req, response)
    ensures Truthful(Respond(Popped(s), req, response))
  {
    hide Recorded, AnswersMatch, Finished;
    var r := Respond(Popped(s), req, response);
    AcknowledgedMore(s.accepted, s.replies, [Reply(req.id, response)]);
    assert r.replies[|s.replies|] == Reply(req.id, response);
    assert forall p :: p in s.posts ==> p == s.posts[0] || p in s.posts[1..];
    assert KeepsAnswers(s, r);
    KeepsTruth(s, r);
  }

  lemma PopTruth(s: Pipe)
    requires Truthful(s) && s.posts != [] && !s.posts[0].Answer?
    ensures Truthful(Popped(s))
  {
    hide Recorded, AnswersMatch, Finished;
    assert forall p :: p in s.posts ==> p == s.posts[0] || p in s.posts[1..];
    assert KeepsAnswers(s, Popped(s));
    KeepsTruth(s, Popped(s));
  }

  /** A closure other than an answer says nothing and parks nothing. */
  lemma QuietPost(oracle: Oracle, s: Pipe, p: Post)
    requires s.core.rc.m.Valid() && !p.Answer?
    ensures
      var r := RunPost(oracle, s, p);
      && r.stage == s.stage && r.ran == s.ran && r.results == s.results
      && r.replies == s.replies && r.accepted == s.accepted
      && (r.posts == s.posts + [] || r.posts == s.posts + [SuspendSystem])
  {
    hide PowerRequest, SuspendFinished, ResumeFinished, Recover, AR.Machine.Valid;
    assert s.posts + [] == s.posts;
    if p.PowerSignal? {
      QuietPower(oracle, s, PL.Entry(p.kind, PL.DBus));
    } else if p.SuspendDone? || p.ResumeDone? {
      QuietCompletion(oracle, s);
    }
  }

  lemma QuietCompletion(oracle: Oracle, s: Pipe)
    requires s.core.rc.m.Valid()
    ensures
      var r := SuspendFinished(oracle, s);
      r == s.(core := r.core, started := r.started)
    ensures forall valid ::
      var r := ResumeFinished(oracle, s, valid);
      r == s.(core := r.core, started := r.started, parked := r.parked, fates := r.fates)
  {
    hide OnSuspendCompleted, OnResumeCompleted, Replays, Fates, AR.Machine.Valid;
  }

  lemma QuietPower(oracle: Oracle, s: Pipe, e: PL.Entry)
    requires s.core.rc.m.Valid()
    ensures
      var r := PowerRequest(oracle, s, e);
      r == s.(core := r.core, started := r.started)
  {
    hide Requested;
  }

  lemma PostTruth(oracle: Oracle, s: Pipe)
    requires Truthful(s) && s.core.rc.m.Valid() && s.posts != []
    ensures Truthful(RunPost(oracle, Popped(s), s.posts[0]))
  {
    hide Truthful, RunPost;
    if s.posts[0].Answer? {
      AnswerTruth(s, s.posts[0].req, s.posts[0].response);
      AnswerIsRespond(oracle, Popped(s), s.posts[0]);
    } else {
      PopTruth(s);
      QuietPost(oracle, Popped(s), s.posts[0]);
      var r := RunPost(oracle, Popped(s), s.posts[0]);
      SilentTruth(Popped(s), r, if r.posts == Popped(s).posts + [] then [] else [SuspendSystem]);
    }
  }

  lemma AnswerIsRespond(oracle: Oracle, s: Pipe, p: Post)
    requires s.core.rc.m.Valid() && p.Answer?
    ensures RunPost(oracle, s, p) == Respond(s, p.req, p.response)
  {
  }

  lemma PerformTruth(s: Pipe, ok: bool)
    requires Truthful(s) && s.stage.Fetched?
    ensures Truthful(RunJob(s, ok))
  {
    hide AdapterCalls, AnswersMatch, Acknowledged;
    assert Finished(RunJob(s, ok)) == Finished(s);
  }

  /** The worker records the result and posts the answer that goes with it. */
  lemma FinishTruth(s: Pipe)
    requires Truthful(s) && s.stage.Ran?
    ensures Truthful(FinishJob(s))
  {
    hide Acknowledged;
    var r := FinishJob(s);
    var job := s.stage.job;
    assert Finished(r) == Finished(s) + [job];
    forall i | 0 <= i < |Finished(r)| && Finished(r)[i].LiveJob?
      ensures Said(Finished(r)[i].req, ResponseFor(r.results[i]), r.replies, r.posts)
    {
      if i < |Finished(s)| {
        assert Said(Finished(s)[i].req, ResponseFor(s.results[i]), s.replies, s.posts);
      } else {
        assert Completion(job, s.stage.ok) == [Answer(job.req, ResponseFor(s.stage.ok))];
        assert r.posts[|s.posts|] == Answer(job.req, ResponseFor(s.stage.ok));
      }
    }
  }

  /** The worker takes a job, or reads the connection flag again. */
  lemma StageTruth(s: Pipe, r: Pipe)
    requires Truthful(s) && r == s.(stage := r.stage, core := r.core)
    requires
      || ((s.stage == Resting || s.stage.Fetched?) && r.stage.Fetched?)
      || (s.stage == Reopened && r.stage.Ran? && r.stage.job == ResumeJob)
    ensures Truthful(r)
  {
  }

  /** Steps other than commands, closures and the worker's: they say nothing, and post at most one closure. */
  lemma OutsideTruth(oracle: Oracle, s: Pipe, step: Step)
    requires Truthful(s) && s.core.rc.m.Valid() && Enabled(s, step)
    requires step.SafetyTimer? || step.RetryTimer? || step.SafetyExpires? || step.RetryExpires?
             || step.Alert? || step.Observed? || step.BusSignal?
    ensures Truthful(Next(oracle, s, step))
  {
    hide Truthful, OnSafetyTimerFired, OnRetryTimerFired, AR.Machine.Valid;
    var r := Next(oracle, s, step);
    if step.Alert? {
      SilentTruth(s, r, [ConnectionLost]);
    } else if step.Observed? {
      SilentTruth(s, r, [Observation(step.tvStandby)]);
    } else if step.BusSignal? {
      SilentTruth(s, r, [PowerSignal(step.kind)]);
    } else {
      assert s.posts + [] == s.posts;
      SilentTruth(s, r, []);
    }
  }

  lemma WorkerTruth(oracle: Oracle, s: Pipe, step: Step)
    requires Truthful(s) && s.core.rc.m.Valid() && Enabled(s, step)
    requires step.Dequeue? || step.Reopening? || step.Perform? || step.Probe? || step.Finish?
    ensures Truthful(Next(oracle, s, step))
  {
    hide Truthful, RunJob, FinishJob, Reopens, AR.Machine.Valid;
    if step.Perform? {
      PerformTruth(s, step.ok);
    } else if step.Finish? {
      FinishTruth(s);
    } else {
      StageTruth(s, Next(oracle, s, step));
    }
  }

  lemma TakeTruth(oracle: Oracle, s: Pipe, step: Step)
    requires Truthful(s) && s.core.rc.m.Valid()
    ensures Truthful(Take(oracle, s, step))
  {
    hide Truthful, HandleCommand, RunPost, RunJob, FinishJob, OnSafetyTimerFired, OnRetryTimerFired, Reopens;
    hide AR.Machine.Valid;
    if Enabled(s, step) {
      if step.WireCommand? {
        CommandTruth(oracle, s, step.msg);
      } else if step.DrainOne? {
        PostTruth(oracle, s);
      } else if step.Dequeue? || step.Reopening? || step.Perform? || step.Probe? || step.Finish? {
        WorkerTruth(oracle, s, step);
      } else {
        OutsideTruth(oracle, s, step);
      }
    }
  }

  /**
   * Replies are truthful, in every run: a command handed to the worker is
   * answered with success exactly when its job came to success, and one
   * acknowledged as queued has been told success.
   */
  lemma {:induction false} RepliesAreTruthful(oracle: Oracle, s0: Pipe, steps: seq<Step>)
    requires Initial(s0)
    ensures s0.core.rc.m.Valid() && Truthful(After(oracle, s0, steps))
  {
    hide Truthful, Take;
    if steps == [] {
      FirstTruth(s0);
    } else {
      RepliesAreTruthful(oracle, s0, steps[..|steps| - 1]);
      TakeTruth(oracle, After(oracle, s0, steps[..|steps| - 1]), steps[|steps| - 1]);
    }
  }

  lemma FirstTruth(s: Pipe)
    requires Initial(s)
    ensures Truthful(s)
  {
  }

  lemma {:induction false} IdsInOrder(replies: seq<Reply>)
    ensures |FlatMap<Reply, nat>(ReplyId, replies)| == |replies|
    ensures forall k :: 0 <= k < |replies| ==> FlatMap<Reply, nat>(ReplyId, replies)[k] == replies[k].id
  {
    if replies != [] {
      IdsInOrder(replies[..|replies| - 1]);
    }
  }

  lemma CountedTwice(ids: seq<nat>, i: nat, j: nat)
    requires i < j < |ids| && ids[i] == ids[j]
    ensures multiset(ids)[ids[i]] >= 2
  {
    assert ids == ids[..j] + ids[j..];
    assert ids[..j][i] == ids[i] && ids[j..][0] == ids[i];
    assert multiset(ids) == multiset(ids[..j]) + multiset(ids[j..]);
  }

  /** A sink is counted where its reply is, and where its job is in flight. */
  lemma SinkCounts(s: Pipe, id: nat)
    ensures Sinks(s)[id]
         == multiset(FlatMap<Reply, nat>(ReplyId, s.replies))[id] + multiset(FlatMap<Job, nat>(LiveId, Flight(s)))[id]
  {
    hide FlatMap, Flight;
    var told: multiset<nat> := multiset(FlatMap<Reply, nat>(ReplyId, s.replies));
    var flying: multiset<nat> := multiset(FlatMap<Job, nat>(LiveId, Flight(s)));
    assert (told + flying)[id] == told[id] + flying[id];
  }

  lemma NoTwoReplies(s: Pipe, a: Reply, b: Reply)
    requires Answered(s) && a in s.replies && b in s.replies && a.id == b.id
    ensures a == b
  {
    hide FlatMap, Flight, Sinks;
    if a != b {
      var i :| 0 <= i < |s.replies| && s.replies[i] == a;
      var j :| 0 <= j < |s.replies| && s.replies[j] == b;
      IdsInOrder(s.replies);
      CountedTwice(FlatMap<Reply, nat>(ReplyId, s.replies), if i < j then i else j, if i < j then j else i);
      SinkCounts(s, a.id);
    }
  }

  lemma NoReplyBeforeItsAnswer(s: Pipe, a: Reply, p: Post)
    requires Answered(s) && a in s.replies && p in s.posts && p.Answer?
    ensures a.id != p.req.id
  {
    hide FlatMap, Sinks;
    InFlatMap(ReplyId, s.replies, a, a.id);
    InFlatMap(JobOf, s.posts, p, LiveJob(p.req));
    InFlatMap(LiveId, Flight(s), LiveJob(p.req), p.req.id);
    SinkCounts(s, a.id);
  }

  /** The reply to a command handed to the worker is never anything but its job's result. */
  lemma RepliesSayNothingElse(oracle: Oracle, s0: Pipe, steps: seq<Step>, i: nat, response: Response)
    requires Initial(s0)
    requires
      var s := After(oracle, s0, steps);
      && i < |Finished(s)| && i < |s.results| && Finished(s)[i].LiveJob?
      && Reply(Finished(s)[i].req.id, response) in s.replies
    ensures response == ResponseFor(After(oracle, s0, steps).results[i])
  {
    hide After, Initial, Finished, Recorded, Acknowledged;
    hide Shaped, Ordered, Answered, Conserved, Alternates, Recovering, ClosedAsleep;
    AlwaysInv(oracle, s0, steps);
    RepliesAreTruthful(oracle, s0, steps);
    var s := After(oracle, s0, steps);
    var req := Finished(s)[i].req;
    var truth := ResponseFor(s.results[i]);
    assert Said(req, truth, s.replies, s.posts);
    if Reply(req.id, truth) in s.replies {
      NoTwoReplies(s, Reply(req.id, truth), Reply(req.id, response));
    } else {
      NoReplyBeforeItsAnswer(s, Reply(req.id, response), Answer(req, truth));
    }
  }
}
