/** The socket server in place: it keeps its session table and the event loop's masks in step. */
module SocketServers {
  import opened Wire
  import opened Sessions

  /** The descriptors registered with the loop. The kernel's verdict on each call is a parameter. */
  class EventLoop {
    var masks: map<nat, set<Bit>>

    constructor ()
      ensures masks == map[]
    {
      masks := map[];
    }

    method Add(fd: nat, mask: set<Bit>, accepted: bool) returns (ok: bool)
      modifies this
      ensures ok <==> fd !in old(masks) && accepted
      ensures masks == if ok then old(masks)[fd := mask] else old(masks)
    {
      if fd in masks || !accepted {
        return false;
      }
      masks := masks[fd := mask];
      return true;
    }

    method Modify(fd: nat, mask: set<Bit>, accepted: bool) returns (ok: bool)
      modifies this
      ensures ok <==> fd in old(masks) && accepted
      ensures masks == if ok then old(masks)[fd := mask] else old(masks)
    {
      if fd !in masks || !accepted {
        return false;
      }
      masks := masks[fd := mask];
      return true;
    }

    method Remove(fd: nat)
      modifies this
      ensures masks == old(masks) - {fd}
    {
      masks := masks - {fd};
    }
  }

  /** What one call to accept returns. */
  datatype Accepted = Client(fd: nat, added: bool) | Interrupted

  class SocketServer {
    const loop: EventLoop
    var sessions: map<nat, Session>
    var nextId: nat

    ghost function View(): Server
      reads this, loop
    {
      Server(sessions, loop.masks, nextId)
    }

    constructor (loop: EventLoop)
      requires loop.masks == map[]
      ensures View() == LISTENING && this.loop == loop
    {
      this.loop := loop;
      sessions, nextId := map[], 1;
    }

    method CloseSession(id: nat)
      modifies this, loop
      ensures View() == Close(old(View()), id)
    {
      if id !in sessions {
        return;
      }
      loop.Remove(sessions[id].fd);
      sessions := sessions - {id};
    }

    /** Sets the mask of a session just changed; a session whose mask cannot be set is closed. */
    method SetMask(id: nat, mask: set<Bit>, accepted: bool)
      requires id in sessions
      modifies this, loop
      ensures View() == Masked(old(View()), id, mask, accepted)
    {
      var ok := loop.Modify(sessions[id].fd, mask, accepted);
      if !ok {
        CloseSession(id);
      }
    }

    method SendResponse(id: nat, response: Response, sent: Sent, modified: bool, now: int)
      modifies this, loop
      ensures View() == Sessions.SendResponse(old(View()), id, response, sent, modified, now)
    {
      if id !in sessions {
        return;
      }
      match sent {
        case Delivered =>
          sessions := sessions[id := Answered(sessions[id], response, now)];
          SetMask(id, {ReadBit}, modified);
        case Blocked =>
          sessions := sessions[id := sessions[id].(pending := Some(response))];
          SetMask(id, {WriteBit}, modified);
        case Broken =>
          CloseSession(id);
      }
    }

    method DrainPendingSend(id: nat, sent: Sent, modified: bool, now: int) returns (open: bool)
      modifies this, loop
      ensures (View(), open) == Sessions.DrainPendingSend(old(View()), id, sent, modified, now)
    {
      if id !in sessions {
        return false;
      }
      match sent {
        case Delivered =>
          var session := sessions[id];
          sessions := sessions[id := if session.pending.Some? then Answered(session, session.pending.value, now)
                                     else session.(inFlight := false, lastActivity := now)];
          SetMask(id, {ReadBit}, modified);
          open := id in sessions;
        case Blocked =>
          open := true;
        case Broken =>
          CloseSession(id);
          open := false;
      }
    }

    /** The request, when there is one, goes to the handler as the last thing done. */
    method ProcessRequest(id: nat, received: Received, modified: bool, now: int) returns (request: Option<Message>)
      requires id in sessions
      modifies this, loop
      ensures (View(), request) == Sessions.ProcessRequest(old(View()), id, received, modified, now)
    {
      request := None;
      match received {
        case Nothing =>
        case Request(msg) =>
          sessions := sessions[id := Asking(sessions[id], msg, now)];
          SetMask(id, {}, modified);
          if id in sessions {
            request := Some(msg);
          }
        case _ =>
          CloseSession(id);
      }
    }

    method OnSessionEvent(id: nat, events: set<Bit>, io: Io) returns (request: Option<Message>)
      modifies this, loop
      ensures (View(), request) == Sessions.OnSessionEvent(old(View()), id, events, io)
    {
      request := None;
      if WriteBit in events {
        var open := DrainPendingSend(id, io.sent, io.writing, io.now);
        if !open {
          return;
        }
      }
      if ReadBit in events {
        if id in sessions && !sessions[id].inFlight {
          request := ProcessRequest(id, io.received, io.reading, io.now);
          return;
        }
      }
      if ErrorBit in events {
        CloseSession(id);
      }
    }

    /** Drains the accept queue: `incoming` is what accept returns until it would block. */
    method OnAcceptReady(incoming: seq<Accepted>, now: int)
      modifies this, loop
      ensures View() == AcceptAll(old(View()), incoming, now)
    {
      var i := 0;
      while i < |incoming|
        invariant 0 <= i <= |incoming|
        invariant View() == AcceptAll(old(View()), incoming[..i], now)
      {
        assert incoming[..i + 1][..i] == incoming[..i];
        if incoming[i].Client? && |sessions| < MAX_CONNECTIONS {
          var id, fd := nextId, incoming[i].fd;
          nextId := nextId + 1;
          var ok := loop.Add(fd, {ReadBit}, incoming[i].added);
          if ok {
            sessions := sessions[id := Session(fd, now, None, false, [])];
          }
        }
        i := i + 1;
      }
      assert incoming[..i] == incoming;
    }

    method ExpiredSessions(now: int) returns (expired: set<nat>)
      ensures expired == set id | id in sessions && Sessions.Expired(sessions[id], now)
    {
      expired := {};
      var left := sessions.Keys;
      while left != {}
        invariant left <= sessions.Keys
        invariant expired == set id | id in sessions.Keys - left && Sessions.Expired(sessions[id], now)
        decreases |left|
      {
        var id :| id in left;
        left := left - {id};
        if !sessions[id].inFlight && now - sessions[id].lastActivity > CLIENT_IDLE_TIMEOUT_MS {
          expired := expired + {id};
        }
      }
    }

    method OnIdleSweep(now: int)
      modifies this, loop
      ensures View() == Sweep(old(View()), now)
    {
      hide Kept, Close;
      var expired := ExpiredSessions(now);
      ghost var before := View();
      var left := expired;
      KeptAll(before);
      assert before.sessions.Keys - (expired - left) == before.sessions.Keys;
      while left != {}
        invariant left <= expired
        invariant View() == Kept(before, before.sessions.Keys - (expired - left))
        decreases |left|
      {
        var id :| id in left;
        KeptOneLess(before, before.sessions.Keys - (expired - left), id);
        CloseSession(id);
        assert before.sessions.Keys - (expired - left) - {id} == before.sessions.Keys - (expired - (left - {id}));
        left := left - {id};
      }
      assert expired - left == expired;
      assert before.sessions.Keys - expired == Survivors(before, now);
      SweepIsKept(before, now);
    }
  }

  function AcceptAll(s: Server, incoming: seq<Accepted>, now: int): Server {
    if incoming == [] then s
    else
      var before := AcceptAll(s, incoming[..|incoming| - 1], now);
      match incoming[|incoming| - 1]
      case Client(fd, added) => AcceptOne(before, fd, added, now)
      case Interrupted => before
  }

  lemma KeptAll(s: Server)
    ensures Kept(s, s.sessions.Keys) == s
  {
    assert s.sessions.Keys - s.sessions.Keys == {};
    assert s.masks - {} == s.masks;
  }

  lemma KeptOneLess(s: Server, keep: set<nat>, id: nat)
    requires id in keep && id in s.sessions
    ensures Close(Kept(s, keep), id) == Kept(s, keep - {id})
  {
    var fds := set other | other in s.sessions.Keys - keep :: s.sessions[other].fd;
    assert (set other | other in s.sessions.Keys - (keep - {id}) :: s.sessions[other].fd)
        == fds + {s.sessions[id].fd};
  }
}
