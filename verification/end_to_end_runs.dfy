/**
 * The joint system is no more and no less than its parts: every run of it is
 * a run of the pipeline and a run of the sessions, step by step, so that what
 * is proved of either part holds of the whole.
 */
module EndToEndRuns {
  import opened Supervisor
  import opened Pipeline
  import opened PipelineInvariant
  import opened PipelineRuns
  import opened EndToEnd
  import AR = Reconnect
  import S = Sessions

  /** The pipeline's step in a move: a daemon step, or the request an event has brought in. */
  function PipeStep(s: System, move: Move): seq<Step> {
    if !EndToEnd.Enabled(s, move) then []
    else
      match move
      case Daemon(step, _) => [step]
      case SessionEvent(id, events, io, _) =>
        var request := S.OnSessionEvent(s.server, id, events, io).1;
        if request.Some? then [WireCommand(request.value)] else []
      case _ => []
  }

  function PipeSteps(oracle: Oracle, pipe: Pipe, moves: seq<Move>): seq<Step>
    requires pipe.core.rc.m.Valid()
  {
    if moves == [] then []
    else
      var before := moves[..|moves| - 1];
      PipeSteps(oracle, pipe, before) + PipeStep(Reached(oracle, pipe, before), moves[|moves| - 1])
  }

  /** The reply a move has produced goes to the session its request came from. */
  function Sending(arrivals: seq<Arrival>, before: seq<Reply>, after: seq<Reply>, d: Delivery): seq<S.Step> {
    if |after| <= |before| || after[|before|].id >= |arrivals| then []
    else
      var reply := after[|before|];
      [S.Respond(arrivals[reply.id].session, reply.response, d.sent, d.modified, d.now)]
  }

  /** The sessions' steps in a move; `r` is the system after it. */
  function ServerStep(s: System, move: Move, r: System): seq<S.Step> {
    if !EndToEnd.Enabled(s, move) then []
    else
      match move
      case Accept(fd, added, now) => [S.Accept(fd, added, now)]
      case Idle(now) => [S.Idle(now)]
      case SessionEvent(id, events, io, d) =>
        [S.Event(id, events, io)] + Sending(r.arrivals, s.pipe.replies, r.pipe.replies, d)
      case Daemon(_, d) => Sending(r.arrivals, s.pipe.replies, r.pipe.replies, d)
  }

  function ServerSteps(oracle: Oracle, pipe: Pipe, moves: seq<Move>): seq<S.Step>
    requires pipe.core.rc.m.Valid()
  {
    if moves == [] then []
    else
      var before := moves[..|moves| - 1];
      ServerSteps(oracle, pipe, before)
      + ServerStep(Reached(oracle, pipe, before), moves[|moves| - 1], Reached(oracle, pipe, moves))
  }

  // ---------------------------------------------------------------------
  // The pipeline
  // ---------------------------------------------------------------------

  lemma OneMoreStep(oracle: Oracle, s0: Pipe, steps: seq<Step>, step: Step)
    requires s0.core.rc.m.Valid()
    ensures After(oracle, s0, steps + [step]) == Take(oracle, After(oracle, s0, steps), step)
  {
    hide Take, AR.Machine.Valid;
    var more := steps + [step];
    assert more[..|more| - 1] == steps && more[|more| - 1] == step;
  }

  lemma MovedPipe(oracle: Oracle, s: System, move: Move)
    requires s.pipe.core.rc.m.Valid()
    ensures
      var r := if EndToEnd.Enabled(s, move) then Moved(oracle, s, move) else s;
      var steps := PipeStep(s, move);
      && |steps| <= 1
      && r.pipe == if steps == [] then s.pipe else Take(oracle, s.pipe, steps[0])
  {
    hide Take, Relay, S.OnSessionEvent, S.AcceptOne, S.Sweep, S.Enabled, AR.Machine.Valid;
  }

  /** The pipeline of a system is where its own steps have taken it. */
  lemma {:induction false} PipeProjects(oracle: Oracle, pipe: Pipe, moves: seq<Move>)
    requires pipe.core.rc.m.Valid()
    ensures Reached(oracle, pipe, moves).pipe == After(oracle, pipe, PipeSteps(oracle, pipe, moves))
  {
    hide PipeStep, After, Take, Moved, EndToEnd.Enabled, AR.Machine.Valid;
    if moves == [] {
      NoStepsYet(oracle, pipe);
    } else {
      var before, move := moves[..|moves| - 1], moves[|moves| - 1];
      PipeProjects(oracle, pipe, before);
      var s := Reached(oracle, pipe, before);
      MovedPipe(oracle, s, move);
      var steps := PipeStep(s, move);
      if steps == [] {
        assert PipeSteps(oracle, pipe, before) + [] == PipeSteps(oracle, pipe, before);
      } else {
        OneMoreStep(oracle, pipe, PipeSteps(oracle, pipe, before), steps[0]);
        assert steps == [steps[0]];
      }
    }
  }

  lemma NoStepsYet(oracle: Oracle, pipe: Pipe)
    requires pipe.core.rc.m.Valid()
    ensures After(oracle, pipe, []) == pipe
  {
  }

  // ---------------------------------------------------------------------
  // The sessions
  // ---------------------------------------------------------------------

  lemma OneMoreServerStep(steps: seq<S.Step>, step: S.Step)
    requires S.Enabled(S.After(steps), step)
    ensures S.After(steps + [step]) == S.Next(S.After(steps), step)
  {
    hide S.Next, S.Enabled;
    var more := steps + [step];
    assert more[..|more| - 1] == steps && more[|more| - 1] == step;
  }

  /** The session that is answered waits for its answer. */
  lemma AnswerIsAwaited(server: S.Server, arrivals: seq<Arrival>, replies: seq<Reply>, reply: Reply, d: Delivery)
    requires Matched(server, arrivals, replies) && reply.id < |arrivals| && !IsAnswered(replies, reply.id)
    ensures S.Enabled(server, S.Respond(arrivals[reply.id].session, reply.response, d.sent, d.modified, d.now))
  {
    hide InStep, S.Valid, IsAnswered;
    var id := arrivals[reply.id].session;
    RequestsOfAll(arrivals, id, reply.id);
    if id in server.sessions {
      UnansweredIsLast(server.sessions[id], RequestsOf(arrivals, id), arrivals, replies, reply.id);
    }
  }

  lemma RelayIsSent(server: S.Server, arrivals: seq<Arrival>, before: seq<Reply>, after: seq<Reply>, d: Delivery)
    ensures
      var sending := Sending(arrivals, before, after, d);
      && |sending| <= 1
      && Relay(server, arrivals, before, after, d) == if sending == [] then server else S.Next(server, sending[0])
  {
    hide S.SendResponse;
  }

  /** Relaying a step's reply is at most one step of the sessions. */
  lemma RelaySteps(steps: seq<S.Step>, arrivals: seq<Arrival>, before: Pipe, after: Pipe, d: Delivery)
    requires Matched(S.After(steps), arrivals, before.replies) && Answered(after) && |arrivals| == after.nextId
    requires before.replies <= after.replies && |after.replies| <= |before.replies| + 1
    ensures Relay(S.After(steps), arrivals, before.replies, after.replies, d)
         == S.After(steps + Sending(arrivals, before.replies, after.replies, d))
  {
    hide Matched, Answered, S.After, S.Next, S.Enabled, Relay;
    RelayIsSent(S.After(steps), arrivals, before.replies, after.replies, d);
    var sending := Sending(arrivals, before.replies, after.replies, d);
    if sending == [] {
      assert steps + [] == steps;
    } else {
      var reply := after.replies[|before.replies|];
      assert after.replies == before.replies + [reply];
      NewReplyIsFirst(after, before.replies, reply);
      AnswerIsAwaited(S.After(steps), arrivals, before.replies, reply, d);
      OneMoreServerStep(steps, sending[0]);
      assert sending == [sending[0]];
    }
  }

  /** A daemon step on a server that has `steps` behind it. */
  lemma DaemonServer(oracle: Oracle, steps: seq<S.Step>, arrivals: seq<Arrival>, pipe: Pipe, step: Step, d: Delivery)
    requires Inv(pipe) && Matched(S.After(steps), arrivals, pipe.replies)
    requires |arrivals| == pipe.nextId + (if step.WireCommand? then 1 else 0)
    ensures pipe.core.rc.m.Valid()
    ensures
      var after := Take(oracle, pipe, step);
      Relay(S.After(steps), arrivals, pipe.replies, after.replies, d)
      == S.After(steps + Sending(arrivals, pipe.replies, after.replies, d))
  {
    hide Inv, Matched, Relay, Take, Answered, S.After;
    InvSound(pipe);
    TakeKeeps(oracle, pipe, step);
    StepReplies(oracle, pipe, step);
    InvAnswered(Take(oracle, pipe, step));
    RelaySteps(steps, arrivals, pipe, Take(oracle, pipe, step), d);
  }

  lemma PlainServer(steps: seq<S.Step>, step: S.Step)
    requires S.Enabled(S.After(steps), step)
    ensures S.Next(S.After(steps), step) == S.After(steps + [step])
  {
    hide S.Next, S.Enabled, S.After;
    OneMoreServerStep(steps, step);
  }

  lemma EventServer(oracle: Oracle, s: System, steps: seq<S.Step>, id: nat, events: set<S.Bit>, io: S.Io, d: Delivery)
    requires Together(s) && s.server == S.After(steps) && S.Enabled(s.server, S.Event(id, events, io))
    ensures s.pipe.core.rc.m.Valid()
    ensures
      var move := SessionEvent(id, events, io, d);
      var r := Moved(oracle, s, move);
      r.server == S.After(steps + ServerStep(s, move, r))
  {
    hide Inv, Matched, Relay, Take, S.OnSessionEvent, S.Enabled, S.After, Answered, IsAnswered;
    InvSound(s.pipe);
    InvAnswered(s.pipe);
    NotYetAnswered(s.pipe, |s.arrivals|);
    EventMatches(s.server, s.arrivals, s.pipe.replies, id, events, io);
    PlainServer(steps, S.Event(id, events, io));
    var more := steps + [S.Event(id, events, io)];
    var (server, request) := S.OnSessionEvent(s.server, id, events, io);
    if request.Some? {
      var arrivals := s.arrivals + [Arrival(id, request.value)];
      DaemonServer(oracle, more, arrivals, s.pipe, WireCommand(request.value), d);
      var sending := Sending(arrivals, s.pipe.replies, Take(oracle, s.pipe, WireCommand(request.value)).replies, d);
      assert more + sending == steps + ([S.Event(id, events, io)] + sending);
    } else {
      assert steps + ([S.Event(id, events, io)] + []) == more;
    }
  }

  lemma MovedServer(oracle: Oracle, s: System, steps: seq<S.Step>, move: Move)
    requires Together(s) && s.server == S.After(steps) && EndToEnd.Enabled(s, move)
    ensures s.pipe.core.rc.m.Valid()
    ensures Moved(oracle, s, move).server == S.After(steps + ServerStep(s, move, Moved(oracle, s, move)))
  {
    hide Inv, Matched, Relay, Take, S.OnSessionEvent, S.AcceptOne, S.Sweep, S.After, Sending;
    InvSound(s.pipe);
    match move {
      case Accept(fd, added, now) => PlainServer(steps, S.Accept(fd, added, now));
      case Idle(now) => PlainServer(steps, S.Idle(now));
      case SessionEvent(id, events, io, d) => EventServer(oracle, s, steps, id, events, io, d);
      case Daemon(step, d) => DaemonServer(oracle, steps, s.arrivals, s.pipe, step, d);
    }
  }

  lemma SameServer(s: System, move: Move, steps: seq<S.Step>)
    requires !EndToEnd.Enabled(s, move)
    ensures S.After(steps + ServerStep(s, move, s)) == S.After(steps)
  {
    hide S.After;
    assert steps + [] == steps;
  }

  /** The sessions of a system are where their own steps have taken them, each reply among them. */
  lemma {:induction false} ServerProjects(oracle: Oracle, pipe: Pipe, moves: seq<Move>)
    requires Initial(pipe)
    ensures pipe.core.rc.m.Valid()
    ensures Reached(oracle, pipe, moves).server == S.After(ServerSteps(oracle, pipe, moves))
  {
    hide Together, Moved, EndToEnd.Enabled, ServerStep, S.After, Initial;
    AlwaysTogether(oracle, pipe, moves);
    if moves == [] {
      ListeningFirst();
    } else {
      var before, move := moves[..|moves| - 1], moves[|moves| - 1];
      ServerProjects(oracle, pipe, before);
      AlwaysTogether(oracle, pipe, before);
      var s := Reached(oracle, pipe, before);
      if EndToEnd.Enabled(s, move) {
        MovedServer(oracle, s, ServerSteps(oracle, pipe, before), move);
      } else {
        SameServer(s, move, ServerSteps(oracle, pipe, before));
      }
    }
  }

  lemma ListeningFirst()
    ensures S.After([]) == S.LISTENING
  {
  }
}
