/**
 * Clients, sessions and the pipeline together: which response reaches which
 * session, over every interleaving.
 */
module EndToEnd {
  import opened Seqs
  import opened Wire
  import opened Supervisor
  import opened Pipeline
  import opened PipelineMoves
  import opened PipelineInvariant
  import opened PipelineRuns
  import opened PipelineDrain
  import PL = Lifecycle
  import AR = Reconnect
  import S = Sessions

  /** The session a request came from, and the request. */
  datatype Arrival = Arrival(session: nat, msg: Message)

  /** `arrivals[id]` is the request numbered `id` by the pipeline. */
  datatype System = System(server: S.Server, pipe: Pipe, arrivals: seq<Arrival>)

  /** How sending a reply goes, if there is one. */
  datatype Delivery = Delivery(sent: S.Sent, modified: bool, now: int)

  datatype Move =
    | Accept(fd: nat, added: bool, now: int)
    | Idle(now: int)
    | SessionEvent(id: nat, events: set<S.Bit>, io: S.Io, reply: Delivery)
    | Daemon(step: Step, reply: Delivery)

  /** Sends the reply that the step from `before` to `after` produced to the session that asked. */
  function Relay(server: S.Server, arrivals: seq<Arrival>, before: seq<Reply>, after: seq<Reply>, d: Delivery): S.Server
  {
    if |after| <= |before| || after[|before|].id >= |arrivals| then server
    else
      var reply := after[|before|];
      S.SendResponse(server, arrivals[reply.id].session, reply.response, d.sent, d.modified, d.now)
  }

  predicate Enabled(s: System, move: Move) {
    match move
    case SessionEvent(id, events, io, _) => S.Enabled(s.server, S.Event(id, events, io))
    case Daemon(step, _) => !step.WireCommand?
    case _ => true
  }

  function Moved(oracle: Oracle, s: System, move: Move): (r: System)
    requires s.pipe.core.rc.m.Valid()
    ensures r.pipe.core.rc.m.Valid()
  {
    match move
    case Accept(fd, added, now) => s.(server := S.AcceptOne(s.server, fd, added, now))
    case Idle(now) => s.(server := S.Sweep(s.server, now))
    case SessionEvent(id, events, io, d) =>
      var (server, request) := S.OnSessionEvent(s.server, id, events, io);
      if request.None? then s.(server := server)
      else
        var pipe := Take(oracle, s.pipe, WireCommand(request.value));
        var arrivals := s.arrivals + [Arrival(id, request.value)];
        System(Relay(server, arrivals, s.pipe.replies, pipe.replies, d), pipe, arrivals)
    case Daemon(step, d) =>
      var pipe := Take(oracle, s.pipe, step);
      System(Relay(s.server, s.arrivals, s.pipe.replies, pipe.replies, d), pipe, s.arrivals)
  }

  // ---------------------------------------------------------------------
  // Replies produced by one step
  // ---------------------------------------------------------------------

  predicate IsAnswered(replies: seq<Reply>, id: nat) {
    exists k :: 0 <= k < |replies| && replies[k].id == id
  }

  lemma PowerReplies(oracle: Oracle, s: Pipe, e: PL.Entry)
    requires s.core.rc.m.Valid()
    ensures PowerRequest(oracle, s, e).replies == s.replies && PowerRequest(oracle, s, e).nextId == s.nextId
  {
    hide Requested;
  }

  lemma DispatchReplies(s: Pipe, req: Request)
    ensures
      var r := Dispatch(s, req);
      r.nextId == s.nextId && s.replies <= r.replies && |r.replies| <= |s.replies| + 1
  {
    hide DispatchOf;
  }

  lemma CommandReplies(oracle: Oracle, s: Pipe, msg: Message)
    requires s.core.rc.m.Valid()
    ensures
      var r := HandleCommand(oracle, s, msg);
      && r.nextId == s.nextId + 1
      && s.replies <= r.replies && |r.replies| <= |s.replies| + 1
  {
    hide DispatchOf, PowerRequest, Dispatch, AR.Machine.Valid;
    var t := s.(nextId := s.nextId + 1);
    DispatchReplies(t, Request(s.nextId, msg));
    PowerReplies(oracle, t, PL.Entry(PL.Suspend, PL.Wire));
    PowerReplies(oracle, t, PL.Entry(PL.Resume, PL.Wire));
  }

  lemma PostReplies(oracle: Oracle, s: Pipe, p: Post)
    requires s.core.rc.m.Valid()
    ensures
      var r := RunPost(oracle, s, p);
      && r.nextId == s.nextId
      && s.replies <= r.replies && |r.replies| <= |s.replies| + 1
  {
    hide PowerRequest, OnSuspendCompleted, OnResumeCompleted, Recover;
    if p.PowerSignal? {
      PowerReplies(oracle, s, PL.Entry(p.kind, PL.DBus));
    }
  }

  lemma StepReplies(oracle: Oracle, s: Pipe, step: Step)
    requires Inv(s)
    ensures
      var r := Take(oracle, s, step);
      && r.nextId == s.nextId + (if step.WireCommand? then 1 else 0)
      && s.replies <= r.replies && |r.replies| <= |s.replies| + 1
  {
    hide Inv, HandleCommand, RunPost, OnSafetyTimerFired, OnRetryTimerFired, RunJob, FinishJob, Reopens;
    hide AR.Machine.Valid;
    InvSound(s);
    match step {
      case WireCommand(msg) => CommandReplies(oracle, s, msg);
      case DrainOne =>
        if s.posts != [] {
          PostReplies(oracle, Popped(s), s.posts[0]);
        }
      case Perform(ok) =>
        if s.stage.Fetched? {
          WorkerReplies(s, ok);
        }
      case Finish =>
        if s.stage.Ran? {
          FinishReplies(s);
        }
      case _ =>
    }
  }

  lemma WorkerReplies(s: Pipe, ok: bool)
    requires s.stage.Fetched?
    ensures RunJob(s, ok).replies == s.replies && RunJob(s, ok).nextId == s.nextId
  {
    hide AdapterCalls;
  }

  lemma FinishReplies(s: Pipe)
    requires s.stage.Ran?
    ensures FinishJob(s).replies == s.replies && FinishJob(s).nextId == s.nextId
  {
    hide Completion;
  }

  lemma {:induction false} IdsOf(replies: seq<Reply>, id: nat)
    ensures id in FlatMap(ReplyId, replies) <==> IsAnswered(replies, id)
  {
    if replies != [] {
      var init, last := replies[..|replies| - 1], replies[|replies| - 1];
      IdsOf(init, id);
      if IsAnswered(init, id) {
        var k :| 0 <= k < |init| && init[k].id == id;
        assert replies[k].id == id;
      }
      if IsAnswered(replies, id) && last.id != id {
        var k :| 0 <= k < |replies| && replies[k].id == id;
        assert init[k].id == id;
      }
    }
  }

  lemma CountOne(ids: seq<nat>, id: nat)
    ensures multiset(ids + [id])[id] == multiset(ids)[id] + 1
  {
    assert multiset(ids + [id]) == multiset(ids) + multiset{id};
  }

  lemma SinksCountReplies(s: Pipe, id: nat)
    ensures Sinks(s)[id] >= multiset(FlatMap<Reply, nat>(ReplyId, s.replies))[id]
  {
    hide FlatMap, Flight;
    var told: multiset<nat> := multiset(FlatMap<Reply, nat>(ReplyId, s.replies));
    var flying: multiset<nat> := multiset(FlatMap<Job, nat>(LiveId, Flight(s)));
    assert (told + flying)[id] == told[id] + flying[id];
  }

  /** The pipeline never answers a request twice, and answers only requests it has received. */
  lemma NewReplyIsFirst(s: Pipe, before: seq<Reply>, reply: Reply)
    requires Answered(s) && s.replies == before + [reply]
    ensures reply.id < s.nextId && !IsAnswered(before, reply.id)
  {
    hide FlatMap, Flight;
    FlatMapOne(ReplyId, before, reply);
    IdsOf(before, reply.id);
    CountOne(FlatMap(ReplyId, before), reply.id);
    SinksCountReplies(s, reply.id);
  }

  lemma NotYetAnswered(s: Pipe, id: nat)
    requires Answered(s) && id >= s.nextId
    ensures !IsAnswered(s.replies, id)
  {
    hide FlatMap, Flight;
    IdsOf(s.replies, id);
    assert Sinks(s)[id] == 0;
  }

  // ---------------------------------------------------------------------
  // Sessions and requests
  // ---------------------------------------------------------------------

  /** The requests of a session, in order. */
  function RequestsOf(arrivals: seq<Arrival>, id: nat): (r: seq<nat>)
    ensures forall k :: 0 <= k < |r| ==> r[k] < |arrivals| && arrivals[r[k]].session == id
  {
    if arrivals == [] then []
    else
      var last := |arrivals| - 1;
      RequestsOf(arrivals[..last], id) + (if arrivals[last].session == id then [last] else [])
  }

  lemma {:induction false} RequestsOfAll(arrivals: seq<Arrival>, id: nat, request: nat)
    requires request < |arrivals| && arrivals[request].session == id
    ensures request in RequestsOf(arrivals, id)
  {
    var last := |arrivals| - 1;
    if request < last {
      RequestsOfAll(arrivals[..last], id, request);
    }
  }

  lemma RequestsOfMore(arrivals: seq<Arrival>, a: Arrival, id: nat)
    ensures RequestsOf(arrivals + [a], id)
         == RequestsOf(arrivals, id) + if a.session == id then [|arrivals|] else []
  {
    assert (arrivals + [a])[..|arrivals|] == arrivals;
  }

  /**
   * The turns of a session are its requests and the pipeline's replies to
   * them, one by one: every request but the last has been replied to and the
   * response is out; the last is either the same, or its response is pending,
   * or the pipeline has not answered it yet.
   */
  ghost predicate InStep(session: S.Session, requests: seq<nat>, arrivals: seq<Arrival>, replies: seq<Reply>)
    requires forall k :: 0 <= k < |requests| ==> requests[k] < |arrivals|
  {
    && |session.turns| == 2 * |requests| - (if session.inFlight then 1 else 0)
    && (forall k :: 0 <= k < |requests| ==> session.turns[2 * k] == S.Asked(arrivals[requests[k]].msg))
    && (forall k :: 0 <= k < |requests| && 2 * k + 1 < |session.turns| ==>
          session.turns[2 * k + 1].Told? && Reply(requests[k], session.turns[2 * k + 1].response) in replies)
    && (session.inFlight ==>
          && requests != []
          && (match session.pending
              case Some(response) => Reply(requests[|requests| - 1], response) in replies
              case None => !IsAnswered(replies, requests[|requests| - 1])))
  }

  ghost predicate Matched(server: S.Server, arrivals: seq<Arrival>, replies: seq<Reply>) {
    && S.Valid(server)
    && (forall k :: 0 <= k < |arrivals| ==> arrivals[k].session < server.nextId)
    && (forall id :: id in server.sessions ==>
          InStep(server.sessions[id], RequestsOf(arrivals, id), arrivals, replies))
  }

  lemma MatchedAt(server: S.Server, arrivals: seq<Arrival>, replies: seq<Reply>, id: nat)
    requires Matched(server, arrivals, replies) && id in server.sessions
    ensures InStep(server.sessions[id], RequestsOf(arrivals, id), arrivals, replies)
  {
  }

  lemma {:induction false} NoRequestsYet(arrivals: seq<Arrival>, id: nat)
    requires forall k :: 0 <= k < |arrivals| ==> arrivals[k].session != id
    ensures RequestsOf(arrivals, id) == []
  {
    if arrivals != [] {
      NoRequestsYet(arrivals[..|arrivals| - 1], id);
    }
  }

  lemma AcceptMatches(server: S.Server, arrivals: seq<Arrival>, replies: seq<Reply>, fd: nat, added: bool, now: int)
    requires Matched(server, arrivals, replies)
    ensures Matched(S.AcceptOne(server, fd, added, now), arrivals, replies)
  {
    hide InStep, S.Valid, S.AcceptOne;
    S.AcceptKeeps(server, fd, added, now);
    var r := S.AcceptOne(server, fd, added, now);
    forall id | id in r.sessions ensures InStep(r.sessions[id], RequestsOf(arrivals, id), arrivals, replies) {
      if id in server.sessions {
        MatchedAt(server, arrivals, replies, id);
      } else {
        NoRequestsYet(arrivals, id);
        NewSessionInStep(r, id, arrivals, replies);
      }
    }
  }

  lemma NewSessionInStep(server: S.Server, id: nat, arrivals: seq<Arrival>, replies: seq<Reply>)
    requires S.Valid(server) && id in server.sessions && server.sessions[id].turns == []
    ensures InStep(server.sessions[id], [], arrivals, replies)
  {
    hide S.Valid;
    S.SessionOf(server, id);
  }

  lemma SweepMatches(server: S.Server, arrivals: seq<Arrival>, replies: seq<Reply>, now: int)
    requires Matched(server, arrivals, replies)
    ensures Matched(S.Sweep(server, now), arrivals, replies)
  {
    hide InStep, S.Valid, S.Sweep;
    S.SweepKeeps(server, now);
  }

  /** The other sessions after a change to one. */
  lemma OnlyOne(server: S.Server, r: S.Server, id: nat, other: nat)
    requires S.Only(server, r, id) && other in r.sessions && other != id
    ensures other in server.sessions && r.sessions[other] == server.sessions[other]
  {
    assert other in r.sessions - {id};
    assert (r.sessions - {id})[other] == (server.sessions - {id})[other];
  }

  /** An event that brings no request: nothing, or the pending response has gone out. */
  lemma EvolvedInStep(before: S.Session, after: S.Session, requests: seq<nat>,
                      arrivals: seq<Arrival>, replies: seq<Reply>)
    requires forall k :: 0 <= k < |requests| ==> requests[k] < |arrivals|
    requires InStep(before, requests, arrivals, replies) && S.Evolves(before, after, None) && S.WellFormed(before)
    ensures InStep(after, requests, arrivals, replies)
  {
  }

  /** An event that brings a request, not answered yet. */
  lemma AskedInStep(before: S.Session, after: S.Session, requests: seq<nat>, arrivals: seq<Arrival>,
                    replies: seq<Reply>, a: Arrival)
    requires forall k :: 0 <= k < |requests| ==> requests[k] < |arrivals|
    requires InStep(before, requests, arrivals, replies) && S.Evolves(before, after, Some(a.msg))
    requires !IsAnswered(replies, |arrivals|)
    ensures InStep(after, requests + [|arrivals|], arrivals + [a], replies)
  {
    var more := requests + [|arrivals|];
    forall k | 0 <= k < |more| ensures after.turns[2 * k] == S.Asked((arrivals + [a])[more[k]].msg) {
      if k < |requests| {
        assert after.turns[2 * k] == before.turns[2 * k];
      }
    }
  }

  /** Another session's request leaves a session in step. */
  lemma StillInStep(session: S.Session, requests: seq<nat>, arrivals: seq<Arrival>, replies: seq<Reply>, a: Arrival)
    requires forall k :: 0 <= k < |requests| ==> requests[k] < |arrivals|
    requires InStep(session, requests, arrivals, replies)
    ensures InStep(session, requests, arrivals + [a], replies)
  {
  }

  lemma EventMatches(server: S.Server, arrivals: seq<Arrival>, replies: seq<Reply>, id: nat,
                     events: set<S.Bit>, io: S.Io)
    requires Matched(server, arrivals, replies) && S.Enabled(server, S.Event(id, events, io))
    requires !IsAnswered(replies, |arrivals|)
    ensures
      var (r, request) := S.OnSessionEvent(server, id, events, io);
      Matched(r, arrivals + (if request.Some? then [Arrival(id, request.value)] else []), replies)
  {
    hide InStep, S.Valid, S.OnSessionEvent, S.Only, S.Evolves, IsAnswered;
    S.EventKeeps(server, id, events, io);
    S.SessionOf(server, id);
    var (r, request) := S.OnSessionEvent(server, id, events, io);
    EventIds(server, r, id);
    if request.Some? {
      var a := Arrival(id, request.value);
      forall other | other in r.sessions
        ensures InStep(r.sessions[other], RequestsOf(arrivals + [a], other), arrivals + [a], replies)
      {
        RequestsOfMore(arrivals, a, other);
        if other == id {
          AskedInStep(server.sessions[id], r.sessions[id], RequestsOf(arrivals, id), arrivals, replies, a);
        } else {
          OnlyOne(server, r, id, other);
          StillInStep(r.sessions[other], RequestsOf(arrivals, other), arrivals, replies, a);
          assert RequestsOf(arrivals, other) + [] == RequestsOf(arrivals, other);
        }
      }
    } else {
      assert arrivals + [] == arrivals;
      forall other | other in r.sessions
        ensures InStep(r.sessions[other], RequestsOf(arrivals, other), arrivals, replies)
      {
        if other == id {
          EvolvedInStep(server.sessions[id], r.sessions[id], RequestsOf(arrivals, id), arrivals, replies);
        } else {
          OnlyOne(server, r, id, other);
        }
      }
    }
  }

  lemma EventIds(server: S.Server, r: S.Server, id: nat)
    requires S.Only(server, r, id)
    ensures r.nextId == server.nextId && (id in r.sessions ==> id in server.sessions)
  {
  }

  // ---------------------------------------------------------------------
  // A reply on its way
  // ---------------------------------------------------------------------

  /** A session's unanswered request is its last one, and the session waits for it. */
  lemma UnansweredIsLast(session: S.Session, requests: seq<nat>, arrivals: seq<Arrival>,
                         replies: seq<Reply>, request: nat)
    requires forall k :: 0 <= k < |requests| ==> requests[k] < |arrivals|
    requires InStep(session, requests, arrivals, replies) && request in requests && !IsAnswered(replies, request)
    ensures session.inFlight && session.pending.None? && requests[|requests| - 1] == request
  {
    hide IsAnswered;
    var k :| 0 <= k < |requests| && requests[k] == request;
    if 2 * k + 1 < |session.turns| {
      InIsAnswered(replies, Reply(requests[k], session.turns[2 * k + 1].response));
    } else if session.pending.Some? {
      InIsAnswered(replies, Reply(requests[|requests| - 1], session.pending.value));
    }
  }

  lemma InIsAnswered(replies: seq<Reply>, reply: Reply)
    requires reply in replies
    ensures IsAnswered(replies, reply.id)
  {
  }

  lemma AnsweredMore(replies: seq<Reply>, reply: Reply, id: nat)
    requires reply.id != id
    ensures IsAnswered(replies + [reply], id) == IsAnswered(replies, id)
  {
    if IsAnswered(replies, id) {
      var k :| 0 <= k < |replies| && replies[k].id == id;
      assert (replies + [reply])[k].id == id;
    }
    if IsAnswered(replies + [reply], id) {
      var k :| 0 <= k < |replies + [reply]| && (replies + [reply])[k].id == id;
      assert replies[k].id == id;
    }
  }

  /** A reply to somebody else's request. */
  lemma OtherReplyInStep(session: S.Session, requests: seq<nat>, arrivals: seq<Arrival>,
                         replies: seq<Reply>, reply: Reply)
    requires forall k :: 0 <= k < |requests| ==> requests[k] < |arrivals|
    requires InStep(session, requests, arrivals, replies) && reply.id !in requests
    ensures InStep(session, requests, arrivals, replies + [reply])
  {
    hide IsAnswered;
    if session.inFlight && session.pending.None? {
      AnsweredMore(replies, reply, requests[|requests| - 1]);
    }
  }

  /** The reply a session waits for goes out, or is kept until it can. */
  lemma OwnReplyInStep(before: S.Session, after: S.Session, requests: seq<nat>, arrivals: seq<Arrival>,
                       replies: seq<Reply>, reply: Reply)
    requires forall k :: 0 <= k < |requests| ==> requests[k] < |arrivals|
    requires InStep(before, requests, arrivals, replies)
    requires before.inFlight && before.pending.None? && requests[|requests| - 1] == reply.id
    requires
      || (after.turns == before.turns + [S.Told(reply.response)] && !after.inFlight)
      || after == before.(pending := Some(reply.response))
    ensures InStep(after, requests, arrivals, replies + [reply])
  {
    assert reply in replies + [reply];
  }

  /** The session that asked, once the reply has been sent to it. */
  lemma SentInStep(server: S.Server, id: nat, requests: seq<nat>, arrivals: seq<Arrival>, replies: seq<Reply>,
                   reply: Reply, d: Delivery)
    requires S.Valid(server) && id in server.sessions
    requires forall k :: 0 <= k < |requests| ==> requests[k] < |arrivals|
    requires InStep(server.sessions[id], requests, arrivals, replies)
    requires reply.id in requests && !IsAnswered(replies, reply.id)
    ensures
      var r := S.SendResponse(server, id, reply.response, d.sent, d.modified, d.now);
      id in r.sessions ==> InStep(r.sessions[id], requests, arrivals, replies + [reply])
  {
    hide InStep, S.Valid, S.SendResponse, S.Only, IsAnswered;
    UnansweredIsLast(server.sessions[id], requests, arrivals, replies, reply.id);
    S.SendKeeps(server, id, reply.response, d.sent, d.modified, d.now);
    var r := S.SendResponse(server, id, reply.response, d.sent, d.modified, d.now);
    if id in r.sessions {
      OwnReplyInStep(server.sessions[id], r.sessions[id], requests, arrivals, replies, reply);
    }
  }

  /** The other sessions, once the reply has been sent. */
  lemma SentElsewhere(server: S.Server, reply: Reply, d: Delivery, id: nat)
    requires S.Valid(server)
    requires id in server.sessions ==> server.sessions[id].inFlight && server.sessions[id].pending.None?
    ensures
      var r := S.SendResponse(server, id, reply.response, d.sent, d.modified, d.now);
      S.Valid(r) && S.Only(server, r, id) && (id in r.sessions ==> id in server.sessions) && r.nextId == server.nextId
  {
    hide S.Valid, S.SendResponse, S.Only;
    S.SendKeeps(server, id, reply.response, d.sent, d.modified, d.now);
    EventIds(server, S.SendResponse(server, id, reply.response, d.sent, d.modified, d.now), id);
  }

  lemma ReplyMatches(server: S.Server, arrivals: seq<Arrival>, replies: seq<Reply>, reply: Reply, d: Delivery)
    requires Matched(server, arrivals, replies) && reply.id < |arrivals| && !IsAnswered(replies, reply.id)
    ensures Matched(S.SendResponse(server, arrivals[reply.id].session, reply.response, d.sent, d.modified, d.now),
                    arrivals, replies + [reply])
  {
    hide InStep, S.Valid, S.SendResponse, S.Only, IsAnswered;
    var id := arrivals[reply.id].session;
    RequestsOfAll(arrivals, id, reply.id);
    if id in server.sessions {
      UnansweredIsLast(server.sessions[id], RequestsOf(arrivals, id), arrivals, replies, reply.id);
      SentInStep(server, id, RequestsOf(arrivals, id), arrivals, replies, reply, d);
    }
    SentElsewhere(server, reply, d, id);
    var r := S.SendResponse(server, id, reply.response, d.sent, d.modified, d.now);
    forall other | other in r.sessions
      ensures InStep(r.sessions[other], RequestsOf(arrivals, other), arrivals, replies + [reply])
    {
      if other != id {
        OnlyOne(server, r, id, other);
        OtherReplyInStep(r.sessions[other], RequestsOf(arrivals, other), arrivals, replies, reply);
      }
    }
  }

  // ---------------------------------------------------------------------
  // Runs
  // ---------------------------------------------------------------------

  ghost predicate Together(s: System) {
    && Inv(s.pipe) && |s.arrivals| == s.pipe.nextId
    && Matched(s.server, s.arrivals, s.pipe.replies)
  }

  lemma RelayMatches(server: S.Server, arrivals: seq<Arrival>, before: Pipe, after: Pipe, d: Delivery)
    requires Matched(server, arrivals, before.replies) && Answered(after) && |arrivals| == after.nextId
    requires before.replies <= after.replies && |after.replies| <= |before.replies| + 1
    ensures Matched(Relay(server, arrivals, before.replies, after.replies, d), arrivals, after.replies)
  {
    hide Matched, Answered, S.SendResponse;
    if |after.replies| > |before.replies| {
      var reply := after.replies[|before.replies|];
      assert after.replies == before.replies + [reply];
      NewReplyIsFirst(after, before.replies, reply);
      ReplyMatches(server, arrivals, before.replies, reply, d);
    } else {
      assert after.replies == before.replies;
    }
  }

  lemma InvAnswered(s: Pipe)
    requires Inv(s)
    ensures Answered(s)
  {
  }

  lemma MovedKeeps(oracle: Oracle, s: System, move: Move)
    requires Together(s) && Enabled(s, move)
    ensures Together(Moved(oracle, s, move))
  {
    hide Inv, Matched, Relay, Take, S.OnSessionEvent, S.AcceptOne, S.Sweep, S.Enabled, Answered, IsAnswered;
    InvSound(s.pipe);
    match move {
      case Accept(fd, added, now) =>
        AcceptMatches(s.server, s.arrivals, s.pipe.replies, fd, added, now);
      case Idle(now) =>
        SweepMatches(s.server, s.arrivals, s.pipe.replies, now);
      case SessionEvent(id, events, io, d) =>
        InvAnswered(s.pipe);
        NotYetAnswered(s.pipe, |s.arrivals|);
        EventMatches(s.server, s.arrivals, s.pipe.replies, id, events, io);
        var (server, request) := S.OnSessionEvent(s.server, id, events, io);
        if request.Some? {
          DaemonKeeps(oracle, server, s.arrivals + [Arrival(id, request.value)], s.pipe, WireCommand(request.value), d);
        } else {
          assert s.arrivals + [] == s.arrivals;
        }
      case Daemon(step, d) =>
        DaemonKeeps(oracle, s.server, s.arrivals, s.pipe, step, d);
    }
  }

  lemma DaemonKeeps(oracle: Oracle, server: S.Server, arrivals: seq<Arrival>, pipe: Pipe, step: Step, d: Delivery)
    requires Inv(pipe) && Matched(server, arrivals, pipe.replies)
    requires |arrivals| == pipe.nextId + (if step.WireCommand? then 1 else 0)
    ensures
      var after := Take(oracle, pipe, step);
      Together(System(Relay(server, arrivals, pipe.replies, after.replies, d), after, arrivals))
  {
    hide Inv, Matched, Relay, Take, Answered;
    InvSound(pipe);
    TakeKeeps(oracle, pipe, step);
    var after := Take(oracle, pipe, step);
    StepReplies(oracle, pipe, step);
    InvAnswered(after);
    RelayMatches(server, arrivals, pipe, after, d);
  }

  /** The system reached by any sequence of moves; one that is not enabled does nothing. */
  function Reached(oracle: Oracle, pipe: Pipe, moves: seq<Move>): (r: System)
    requires pipe.core.rc.m.Valid()
    ensures r.pipe.core.rc.m.Valid()
  {
    if moves == [] then System(S.LISTENING, pipe, [])
    else
      var s := Reached(oracle, pipe, moves[..|moves| - 1]);
      if Enabled(s, moves[|moves| - 1]) then Moved(oracle, s, moves[|moves| - 1]) else s
  }

  lemma {:induction false} AlwaysTogether(oracle: Oracle, pipe: Pipe, moves: seq<Move>)
    requires Initial(pipe)
    ensures pipe.core.rc.m.Valid() && Together(Reached(oracle, pipe, moves))
  {
    hide Together, Moved, Enabled;
    if moves == [] {
      StartTogether(pipe);
    } else {
      AlwaysTogether(oracle, pipe, moves[..|moves| - 1]);
      var s := Reached(oracle, pipe, moves[..|moves| - 1]);
      if Enabled(s, moves[|moves| - 1]) {
        MovedKeeps(oracle, s, moves[|moves| - 1]);
      }
    }
  }

  lemma StartTogether(pipe: Pipe)
    requires Initial(pipe)
    ensures Together(System(S.LISTENING, pipe, []))
  {
    hide Inv, S.Valid;
    InitialKeeps(pipe);
    S.ListeningValid();
  }

  /**
   * End to end, over every interleaving of clients, sessions, suspends,
   * resumes and reconnects: the turns of an open session are its requests and
   * the daemon's answers to exactly those requests, in order; a request of an
   * open session is unanswered exactly when it is the session's last one and
   * the session is neither idle nor sending.
   */
  lemma ResponsesReachWhoAsked(oracle: Oracle, pipe: Pipe, moves: seq<Move>, id: nat)
    requires Initial(pipe) && id in Reached(oracle, pipe, moves).server.sessions
    ensures
      var s := Reached(oracle, pipe, moves);
      var session := s.server.sessions[id];
      var requests := RequestsOf(s.arrivals, id);
      && InStep(session, requests, s.arrivals, s.pipe.replies)
      && forall request :: request in requests ==>
           (!IsAnswered(s.pipe.replies, request)
            <==> request == requests[|requests| - 1] && session.inFlight && session.pending.None?)
  {
    hide InStep, Inv, Reached, IsAnswered, Initial;
    AlwaysTogether(oracle, pipe, moves);
    var s := Reached(oracle, pipe, moves);
    var session := s.server.sessions[id];
    var requests := RequestsOf(s.arrivals, id);
    MatchedAt(s.server, s.arrivals, s.pipe.replies, id);
    forall request | request in requests
      ensures !IsAnswered(s.pipe.replies, request)
              <==> request == requests[|requests| - 1] && session.inFlight && session.pending.None?
    {
      if !IsAnswered(s.pipe.replies, request) {
        UnansweredIsLast(session, requests, s.arrivals, s.pipe.replies, request);
      } else if session.inFlight && session.pending.None? {
        LastUnanswered(session, requests, s.arrivals, s.pipe.replies);
      }
    }
  }

  lemma LastUnanswered(session: S.Session, requests: seq<nat>, arrivals: seq<Arrival>, replies: seq<Reply>)
    requires forall k :: 0 <= k < |requests| ==> requests[k] < |arrivals|
    requires InStep(session, requests, arrivals, replies) && session.inFlight && session.pending.None?
    ensures requests != [] && !IsAnswered(replies, requests[|requests| - 1])
  {
  }

  /** Once the daemon has nothing left to do, no client is left waiting for it. */
  lemma NobodyWaitsForAQuietDaemon(oracle: Oracle, pipe: Pipe, moves: seq<Move>, id: nat)
    requires Initial(pipe) && id in Reached(oracle, pipe, moves).server.sessions
    requires forall step :: Internal(step) ==> !Pipeline.Enabled(Reached(oracle, pipe, moves).pipe, step)
    ensures
      var session := Reached(oracle, pipe, moves).server.sessions[id];
      session.inFlight ==> session.pending.Some?
  {
    hide InStep, Inv, Reached, IsAnswered, Initial, Pipeline.Enabled, Internal;
    AlwaysTogether(oracle, pipe, moves);
    var s := Reached(oracle, pipe, moves);
    QuietMeansDone(s.pipe);
    MatchedAt(s.server, s.arrivals, s.pipe.replies, id);
    var session := s.server.sessions[id];
    if session.inFlight && session.pending.None? {
      var requests := RequestsOf(s.arrivals, id);
      LastUnanswered(session, requests, s.arrivals, s.pipe.replies);
      AllAnswered(s.pipe, requests[|requests| - 1]);
    }
  }

  lemma AllAnswered(s: Pipe, id: nat)
    requires OnceEach(multiset(FlatMap(ReplyId, s.replies)), s.nextId) && id < s.nextId
    ensures IsAnswered(s.replies, id)
  {
    hide FlatMap;
    IdsOf(s.replies, id);
    assert multiset(FlatMap<Reply, nat>(ReplyId, s.replies))[id] == 1;
  }
}
