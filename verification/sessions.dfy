/**
 * The socket sessions: each one is a three-state machine encoded in a flag, a
 * pending response and the event mask its descriptor is registered with.
 */
module Sessions {
  import opened Wire

  datatype Bit = ReadBit | WriteBit | ErrorBit

  /** What has passed over a session. */
  datatype Turn = Asked(msg: Message) | Told(response: Response)

  datatype Session = Session(
    fd: nat, lastActivity: int, pending: Option<Response>, inFlight: bool, turns: seq<Turn>)

  /** The open sessions by id, and the masks of their descriptors in the event loop. */
  datatype Server = Server(sessions: map<nat, Session>, masks: map<nat, set<Bit>>, nextId: nat)

  const MAX_CONNECTIONS := 10
  const CLIENT_IDLE_TIMEOUT_MS := 60_000

  /** How a send ends once interrupted calls have been retried; it sends all or nothing. */
  datatype Sent = Delivered | Blocked | Broken

  /** How a receive ends, and what parsing makes of the datagram. */
  datatype Received = Request(msg: Message) | EndOfFile | Nothing | Failure | Oversized | Malformed

  /** The outcomes one event meets: `writing` and `reading` say whether changing the mask succeeds. */
  datatype Io = Io(sent: Sent, writing: bool, received: Received, reading: bool, now: int)

  function Close(s: Server, id: nat): Server {
    if id !in s.sessions then s
    else s.(sessions := s.sessions - {id}, masks := s.masks - {s.sessions[id].fd})
  }

  /** Changes the mask of a session; when the loop refuses, the session is closed. */
  function Masked(s: Server, id: nat, mask: set<Bit>, modified: bool): Server
    requires id in s.sessions
  {
    var fd := s.sessions[id].fd;
    if modified && fd in s.masks then s.(masks := s.masks[fd := mask]) else Close(s, id)
  }

  /** The session changes and its mask with it. */
  function Update(s: Server, id: nat, session: Session, mask: set<Bit>, modified: bool): Server
    requires id in s.sessions
  {
    Masked(s.(sessions := s.sessions[id := session]), id, mask, modified)
  }

  /** The session once `response` is out. */
  function Answered(session: Session, response: Response, now: int): Session {
    session.(pending := None, inFlight := false, lastActivity := now, turns := session.turns + [Told(response)])
  }

  function SendResponse(s: Server, id: nat, response: Response, sent: Sent, modified: bool, now: int): Server {
    if id !in s.sessions then s
    else
      match sent
      case Delivered => Update(s, id, Answered(s.sessions[id], response, now), {ReadBit}, modified)
      case Blocked => Update(s, id, s.sessions[id].(pending := Some(response)), {WriteBit}, modified)
      case Broken => Close(s, id)
  }

  /** Retries the pending response; the flag says whether the session is still open. */
  function DrainPendingSend(s: Server, id: nat, sent: Sent, modified: bool, now: int): (Server, bool) {
    if id !in s.sessions then (s, false)
    else
      var session := s.sessions[id];
      match sent
      case Delivered =>
        var done := if session.pending.Some? then Answered(session, session.pending.value, now)
                    else session.(inFlight := false, lastActivity := now);
        var r := Update(s, id, done, {ReadBit}, modified);
        (r, id in r.sessions)
      case Blocked => (s, true)
      case Broken => (Close(s, id), false)
  }

  /** The session once a request has been taken in. */
  function Asking(session: Session, msg: Message, now: int): Session {
    session.(inFlight := true, lastActivity := now, turns := session.turns + [Asked(msg)])
  }

  /** Reads one datagram; a well-formed request is handed on. */
  function ProcessRequest(s: Server, id: nat, received: Received, modified: bool, now: int): (Server, Option<Message>)
    requires id in s.sessions
  {
    match received
    case Nothing => (s, None)
    case Request(msg) =>
      var r := Update(s, id, Asking(s.sessions[id], msg, now), {}, modified);
      (r, if id in r.sessions then Some(msg) else None)
    case _ => (Close(s, id), None)
  }

  function OnSessionEvent(s: Server, id: nat, events: set<Bit>, io: Io): (Server, Option<Message>) {
    var (t, open) := if WriteBit in events then DrainPendingSend(s, id, io.sent, io.writing, io.now) else (s, true);
    if !open then (t, None)
    else if ReadBit in events && id in t.sessions && !t.sessions[id].inFlight then
      ProcessRequest(t, id, io.received, io.reading, io.now)
    else if ErrorBit in events then (Close(t, id), None)
    else (t, None)
  }

  /** One accepted connection; `added` says whether the loop takes the descriptor. */
  function AcceptOne(s: Server, fd: nat, added: bool, now: int): Server {
    if |s.sessions| >= MAX_CONNECTIONS then s
    else if fd in s.masks || !added then s.(nextId := s.nextId + 1)
    else Opened(s, fd, now)
  }

  function Opened(s: Server, fd: nat, now: int): Server {
    Server(s.sessions[s.nextId := Session(fd, now, None, false, [])], s.masks[fd := {ReadBit}], s.nextId + 1)
  }

  predicate Expired(session: Session, now: int) {
    !session.inFlight && now - session.lastActivity > CLIENT_IDLE_TIMEOUT_MS
  }

  function Sweep(s: Server, now: int): Server {
    s.(sessions := map id | id in s.sessions && !Expired(s.sessions[id], now) :: s.sessions[id],
       masks := s.masks - (set id | id in s.sessions && Expired(s.sessions[id], now) :: s.sessions[id].fd))
  }

  // ---------------------------------------------------------------------
  // What holds between any two main-thread steps
  // ---------------------------------------------------------------------

  /** Reading, waiting for the daemon, or sending. */
  function MaskOf(session: Session): set<Bit> {
    if !session.inFlight then {ReadBit} else if session.pending.None? then {} else {WriteBit}
  }

  /** Requests and responses alternate; one is in flight exactly when the last turn was a request. */
  ghost predicate WellFormed(session: Session) {
    && (forall k :: 0 <= k < |session.turns| ==> (session.turns[k].Asked? <==> k % 2 == 0))
    && (session.inFlight <==> |session.turns| % 2 == 1)
    && (session.pending.Some? ==> session.inFlight)
  }

  ghost predicate Registered(s: Server, id: nat)
    requires id in s.sessions
  {
    var session := s.sessions[id];
    && id < s.nextId && WellFormed(session)
    && session.fd in s.masks && s.masks[session.fd] == MaskOf(session)
  }

  ghost predicate AllRegistered(s: Server) {
    forall id :: id in s.sessions ==> Registered(s, id)
  }

  ghost predicate DistinctFds(sessions: map<nat, Session>) {
    forall a, b :: a in sessions && b in sessions && a != b ==> sessions[a].fd != sessions[b].fd
  }

  ghost predicate NoStrays(s: Server) {
    forall fd :: fd in s.masks ==> exists id :: id in s.sessions && s.sessions[id].fd == fd
  }

  /** Every open session is well formed and registered with the mask of its state; the loop holds nothing else. */
  ghost predicate Valid(s: Server) {
    AllRegistered(s) && DistinctFds(s.sessions) && NoStrays(s) && |s.sessions| <= MAX_CONNECTIONS
  }

  /** Nothing but session `id` changes. */
  ghost predicate Only(s: Server, r: Server, id: nat) {
    && r.nextId == s.nextId
    && r.sessions - {id} == s.sessions - {id}
    && (id in r.sessions ==> id in s.sessions)
  }

  lemma SmallerKeys<K, V>(m: map<K, V>, n: map<K, V>)
    requires n.Keys <= m.Keys
    ensures |n| <= |m|
  {
    SmallerSet(n.Keys, m.Keys);
  }

  lemma {:induction false} SmallerSet<K>(a: set<K>, b: set<K>)
    requires a <= b
    ensures |a| <= |b|
  {
    if a != {} {
      var x :| x in a;
      SmallerSet(a - {x}, b - {x});
    }
  }

  /** The server with only some of its sessions. */
  ghost function Kept(s: Server, keep: set<nat>): Server {
    s.(sessions := map id | id in s.sessions && id in keep :: s.sessions[id],
       masks := s.masks - (set id | id in s.sessions.Keys - keep :: s.sessions[id].fd))
  }

  lemma KeptRegistered(s: Server, keep: set<nat>)
    requires AllRegistered(s) && DistinctFds(s.sessions)
    ensures AllRegistered(Kept(s, keep))
  {
    hide WellFormed, MaskOf;
    forall id | id in s.sessions && id in keep ensures Registered(Kept(s, keep), id) {
      assert Registered(s, id);
    }
  }

  lemma KeptNoStrays(s: Server, keep: set<nat>)
    requires NoStrays(s)
    ensures NoStrays(Kept(s, keep))
  {
    var r := Kept(s, keep);
    forall fd | fd in r.masks ensures exists id :: id in r.sessions && r.sessions[id].fd == fd {
      var id :| id in s.sessions && s.sessions[id].fd == fd;
      assert id in r.sessions;
    }
  }

  lemma KeptKeeps(s: Server, keep: set<nat>)
    requires Valid(s)
    ensures Valid(Kept(s, keep))
  {
    hide AllRegistered, NoStrays;
    KeptRegistered(s, keep);
    KeptNoStrays(s, keep);
    SmallerKeys(s.sessions, Kept(s, keep).sessions);
  }

  lemma CloseIsKept(s: Server, id: nat)
    ensures Close(s, id) == Kept(s, s.sessions.Keys - {id})
  {
    var keep := s.sessions.Keys - {id};
    if id in s.sessions {
      assert s.sessions.Keys - keep == {id};
      assert (set other | other in s.sessions.Keys - keep :: s.sessions[other].fd) == {s.sessions[id].fd};
    }
  }

  lemma CloseKeeps(s: Server, id: nat)
    requires Valid(s)
    ensures Valid(Close(s, id)) && Only(s, Close(s, id), id) && id !in Close(s, id).sessions
  {
    hide Valid, Kept;
    CloseIsKept(s, id);
    KeptKeeps(s, s.sessions.Keys - {id});
  }

  /** A session changed in place, on the same descriptor. */
  ghost function Changed(s: Server, id: nat, session: Session): Server {
    s.(sessions := s.sessions[id := session], masks := s.masks[session.fd := MaskOf(session)])
  }

  lemma ChangedRegistered(s: Server, id: nat, session: Session)
    requires AllRegistered(s) && DistinctFds(s.sessions)
    requires id in s.sessions && session.fd == s.sessions[id].fd && WellFormed(session)
    ensures AllRegistered(Changed(s, id, session)) && DistinctFds(Changed(s, id, session).sessions)
  {
    hide WellFormed, MaskOf;
    var r := Changed(s, id, session);
    assert Registered(s, id);
    forall other | other in r.sessions ensures Registered(r, other) {
      assert Registered(s, other);
    }
  }

  lemma ChangedNoStrays(s: Server, id: nat, session: Session)
    requires NoStrays(s) && id in s.sessions && session.fd == s.sessions[id].fd
    ensures NoStrays(Changed(s, id, session))
  {
    hide MaskOf;
    var r := Changed(s, id, session);
    assert id in r.sessions && r.sessions[id].fd == session.fd;
    forall fd | fd in r.masks ensures exists other :: other in r.sessions && r.sessions[other].fd == fd {
      if fd != session.fd {
        var other :| other in s.sessions && s.sessions[other].fd == fd;
        assert other in r.sessions && r.sessions[other].fd == fd;
      }
    }
  }

  lemma ChangedKeeps(s: Server, id: nat, session: Session)
    requires Valid(s) && id in s.sessions && session.fd == s.sessions[id].fd && WellFormed(session)
    ensures Valid(Changed(s, id, session)) && Only(s, Changed(s, id, session), id)
  {
    hide AllRegistered, NoStrays, DistinctFds, WellFormed, MaskOf;
    ChangedRegistered(s, id, session);
    ChangedNoStrays(s, id, session);
    assert Changed(s, id, session).sessions.Keys == s.sessions.Keys;
    SmallerKeys(s.sessions, Changed(s, id, session).sessions);
  }

  lemma UpdateKeeps(s: Server, id: nat, session: Session, mask: set<Bit>, modified: bool)
    requires Valid(s) && id in s.sessions && session.fd == s.sessions[id].fd
    requires WellFormed(session) && mask == MaskOf(session)
    ensures
      var r := Update(s, id, session, mask, modified);
      Valid(r) && Only(s, r, id) && (id in r.sessions ==> r.sessions[id] == session) && (modified <==> id in r.sessions)
  {
    hide Valid, WellFormed, MaskOf;
    SessionOf(s, id);
    if modified {
      ChangedKeeps(s, id, session);
    } else {
      CloseKeeps(s, id);
      var t := s.(sessions := s.sessions[id := session]);
      assert t.sessions - {id} == s.sessions - {id};
      assert Close(t, id) == Close(s, id);
    }
  }

  /** Answering a session that waits for its answer. */
  lemma SendKeeps(s: Server, id: nat, response: Response, sent: Sent, modified: bool, now: int)
    requires Valid(s)
    requires id in s.sessions ==> s.sessions[id].inFlight && s.sessions[id].pending.None?
    ensures
      var r := SendResponse(s, id, response, sent, modified, now);
      && Valid(r) && Only(s, r, id)
      && (id in s.sessions ==>
            && (id in r.sessions <==> modified && !sent.Broken?)
            && (modified && sent.Delivered? ==>
                  r.sessions[id] == s.sessions[id].(pending := None, inFlight := false, lastActivity := now,
                                                    turns := s.sessions[id].turns + [Told(response)]))
            && (modified && sent.Blocked? ==> r.sessions[id] == s.sessions[id].(pending := Some(response))))
  {
    hide Valid, Only, Update;
    if id in s.sessions {
      SessionOf(s, id);
      match sent {
        case Delivered =>
          AnsweredWellFormed(s.sessions[id], response, now);
          UpdateKeeps(s, id, Answered(s.sessions[id], response, now), {ReadBit}, modified);
        case Blocked =>
          UpdateKeeps(s, id, s.sessions[id].(pending := Some(response)), {WriteBit}, modified);
        case Broken =>
          CloseKeeps(s, id);
      }
    } else {
      CloseKeeps(s, id);
    }
  }

  /** A waiting session has a request in flight and a pending response at once exactly after a blocked send. */
  lemma BlockedSendKeepsBoth(s: Server, id: nat, response: Response, sent: Sent, modified: bool, now: int)
    requires Valid(s) && id in s.sessions && s.sessions[id].inFlight && s.sessions[id].pending.None?
    ensures
      var r := SendResponse(s, id, response, sent, modified, now);
      id in r.sessions && r.sessions[id].inFlight && r.sessions[id].pending.Some? <==> sent.Blocked? && modified
  {
    hide Valid, SendResponse;
    SendKeeps(s, id, response, sent, modified, now);
  }

  lemma SessionOf(s: Server, id: nat)
    requires Valid(s) && id in s.sessions
    ensures WellFormed(s.sessions[id]) && id < s.nextId
    ensures s.sessions[id].fd in s.masks && s.masks[s.sessions[id].fd] == MaskOf(s.sessions[id])
  {
    assert Registered(s, id);
  }

  lemma AnsweredWellFormed(session: Session, response: Response, now: int)
    requires WellFormed(session) && session.inFlight
    ensures WellFormed(Answered(session, response, now))
  {
  }

  /** How one event may change its session: nothing, a request taken in, or the pending response sent. */
  ghost predicate Evolves(before: Session, after: Session, request: Option<Message>) {
    match request
    case Some(msg) =>
      && !before.inFlight && after.inFlight && after.pending.None? && after.turns == before.turns + [Asked(msg)]
    case None =>
      || after == before
      || (before.pending.Some? && !after.inFlight && after.turns == before.turns + [Told(before.pending.value)])
  }

  lemma DrainKeeps(s: Server, id: nat, sent: Sent, modified: bool, now: int)
    requires Valid(s) && id in s.sessions && s.sessions[id].pending.Some?
    ensures
      var (r, open) := DrainPendingSend(s, id, sent, modified, now);
      && Valid(r) && Only(s, r, id) && (open <==> id in r.sessions)
      && (match sent
          case Delivered =>
            && (open <==> modified)
            && (open ==> r.sessions[id] == Answered(s.sessions[id], s.sessions[id].pending.value, now))
          case Blocked => r == s
          case Broken => !open)
  {
    hide Valid, Only, Update;
    SessionOf(s, id);
    match sent {
      case Delivered =>
        AnsweredWellFormed(s.sessions[id], s.sessions[id].pending.value, now);
        UpdateKeeps(s, id, Answered(s.sessions[id], s.sessions[id].pending.value, now), {ReadBit}, modified);
      case Blocked => OnlyItself(s, id);
      case Broken => CloseKeeps(s, id);
    }
  }

  lemma OnlyItself(s: Server, id: nat)
    ensures Only(s, s, id)
  {
  }

  lemma AskedWellFormed(session: Session, msg: Message, now: int)
    requires WellFormed(session) && !session.inFlight
    ensures WellFormed(Asking(session, msg, now))
  {
  }

  lemma ProcessKeeps(s: Server, id: nat, received: Received, modified: bool, now: int)
    requires Valid(s) && id in s.sessions && !s.sessions[id].inFlight
    ensures
      var (r, request) := ProcessRequest(s, id, received, modified, now);
      && Valid(r) && Only(s, r, id)
      && (match received
          case Request(msg) =>
            if modified then
              id in r.sessions && request == Some(msg) && r.sessions[id] == Asking(s.sessions[id], msg, now)
            else id !in r.sessions && request == None
          case Nothing => r == s && request == None
          case _ => id !in r.sessions && request == None)
  {
    hide Valid, Only, Update;
    SessionOf(s, id);
    match received {
      case Nothing => OnlyItself(s, id);
      case Request(msg) =>
        AskedWellFormed(s.sessions[id], msg, now);
        assert Asking(s.sessions[id], msg, now).pending.None?;
        UpdateKeeps(s, id, Asking(s.sessions[id], msg, now), {}, modified);
      case _ => CloseKeeps(s, id);
    }
  }

  /**
   * What an event leaves of its session, case by case: `None` when the session
   * is closed. A reading session takes in a well-formed request exactly when
   * its mask can be cleared; a spurious read changes nothing; any other end of
   * a read closes. A sending session is told when the rest of the response
   * goes out and its mask can be set, waits on when the send blocks again, and
   * closes otherwise. An error closes whatever has not been read.
   */
  function Outcome(session: Session, events: set<Bit>, io: Io): (Option<Session>, Option<Message>) {
    if !session.inFlight && ReadBit in events then
      match io.received
      case Request(msg) =>
        if io.reading then
          (Some(session.(inFlight := true, lastActivity := io.now, turns := session.turns + [Asked(msg)])), Some(msg))
        else (None, None)
      case Nothing => (Some(session), None)
      case _ => (None, None)
    else if ErrorBit in events then (None, None)
    else if session.pending.Some? && WriteBit in events then
      match io.sent
      case Delivered =>
        if io.writing then
          (Some(session.(pending := None, inFlight := false, lastActivity := io.now,
                         turns := session.turns + [Told(session.pending.value)])), None)
        else (None, None)
      case Blocked => (Some(session), None)
      case Broken => (None, None)
    else (Some(session), None)
  }

  /** An event within the registered mask, or an error. */
  lemma EventExactly(s: Server, id: nat, events: set<Bit>, io: Io)
    requires Valid(s) && id in s.sessions
    requires events <= s.masks[s.sessions[id].fd] + {ErrorBit}
    ensures
      var (r, request) := OnSessionEvent(s, id, events, io);
      var (after, taken) := Outcome(s.sessions[id], events, io);
      && Valid(r) && Only(s, r, id) && request == taken
      && (id in r.sessions <==> after.Some?) && (after.Some? ==> r.sessions[id] == after.value)
  {
    hide Valid, Only, WellFormed, DrainPendingSend, ProcessRequest, Close;
    SessionOf(s, id);
    OnlyItself(s, id);
    CloseKeeps(s, id);
    if WriteBit in events {
      DrainKeeps(s, id, io.sent, io.writing, io.now);
      var (t, open) := DrainPendingSend(s, id, io.sent, io.writing, io.now);
      CloseKeeps(t, id);
      OnlyTwice(s, t, Close(t, id), id);
      assert ReadBit !in events;
    } else if ReadBit in events {
      ProcessKeeps(s, id, io.received, io.reading, io.now);
    }
  }

  lemma OutcomeEvolves(session: Session, events: set<Bit>, io: Io)
    requires WellFormed(session)
    ensures
      var (after, taken) := Outcome(session, events, io);
      && (taken.Some? ==> after.Some?)
      && (after.Some? ==> Evolves(session, after.value, taken))
  {
  }

  /** In particular nothing but its own session changes, and that in one of the ways listed. */
  lemma EventKeeps(s: Server, id: nat, events: set<Bit>, io: Io)
    requires Valid(s) && id in s.sessions
    requires events <= s.masks[s.sessions[id].fd] + {ErrorBit}
    ensures
      var (r, request) := OnSessionEvent(s, id, events, io);
      && Valid(r) && Only(s, r, id)
      && (request.Some? ==> id in r.sessions)
      && (id in r.sessions ==> Evolves(s.sessions[id], r.sessions[id], request))
  {
    hide Valid, Only, WellFormed, OnSessionEvent, Outcome, Evolves;
    SessionOf(s, id);
    EventExactly(s, id, events, io);
    OutcomeEvolves(s.sessions[id], events, io);
  }

  lemma OnlyTwice(s: Server, t: Server, r: Server, id: nat)
    requires Only(s, t, id) && Only(t, r, id)
    ensures Only(s, r, id)
  {
  }

  lemma OpenedRegistered(s: Server, fd: nat, now: int)
    requires AllRegistered(s) && DistinctFds(s.sessions) && fd !in s.masks
    ensures
      var r := Opened(s, fd, now);
      AllRegistered(r) && DistinctFds(r.sessions) && s.nextId !in s.sessions
  {
    hide WellFormed, MaskOf;
    var r := Opened(s, fd, now);
    FreshSession(fd, now);
    forall id | id in s.sessions ensures id < s.nextId && s.sessions[id].fd != fd && Registered(r, id) {
      assert Registered(s, id);
    }
    assert Registered(r, s.nextId);
  }

  lemma OpenedNoStrays(s: Server, fd: nat, now: int)
    requires NoStrays(s) && s.nextId !in s.sessions
    ensures NoStrays(Opened(s, fd, now))
  {
    var r := Opened(s, fd, now);
    assert s.nextId in r.sessions && r.sessions[s.nextId].fd == fd;
    forall other | other in r.masks ensures exists id :: id in r.sessions && r.sessions[id].fd == other {
      if other != fd {
        var id :| id in s.sessions && s.sessions[id].fd == other;
        assert id in r.sessions && r.sessions[id].fd == other;
      }
    }
  }

  lemma RefusedKeeps(s: Server)
    requires Valid(s)
    ensures Valid(s.(nextId := s.nextId + 1))
  {
    hide WellFormed, MaskOf;
    assert forall id :: id in s.sessions ==> Registered(s, id);
  }

  lemma OpenedKeeps(s: Server, fd: nat, now: int)
    requires Valid(s) && fd !in s.masks && |s.sessions| < MAX_CONNECTIONS
    ensures Valid(Opened(s, fd, now)) && s.nextId !in s.sessions
  {
    hide AllRegistered, NoStrays, DistinctFds;
    OpenedRegistered(s, fd, now);
    OpenedNoStrays(s, fd, now);
    OneMore(s.sessions, s.nextId, Opened(s, fd, now).sessions[s.nextId]);
  }

  lemma OneMore<V>(m: map<nat, V>, key: nat, value: V)
    requires key !in m
    ensures |m[key := value]| == |m| + 1
  {
    assert m[key := value].Keys == m.Keys + {key};
    assert |m[key := value]| == |m[key := value].Keys|;
  }

  lemma AcceptKeeps(s: Server, fd: nat, added: bool, now: int)
    requires Valid(s)
    ensures
      var r := AcceptOne(s, fd, added, now);
      && Valid(r) && s.nextId <= r.nextId
      && (forall id :: id in s.sessions ==> id in r.sessions && r.sessions[id] == s.sessions[id])
      && (forall id :: id in r.sessions && id !in s.sessions ==>
            id == s.nextId < r.nextId && r.sessions[id].turns == [])
  {
    hide Valid;
    RefusedKeeps(s);
    if |s.sessions| < MAX_CONNECTIONS && fd !in s.masks {
      OpenedKeeps(s, fd, now);
    }
  }

  /** A connection becomes a session exactly if there is room, its descriptor is new and the loop takes it. */
  lemma AcceptExactly(s: Server, fd: nat, added: bool, now: int)
    requires Valid(s)
    ensures
      var r := AcceptOne(s, fd, added, now);
      && (|r.sessions| == |s.sessions| + 1 <==> |s.sessions| < 10 && fd !in s.masks && added)
      && (|s.sessions| < 10 && fd !in s.masks && added ==>
            && s.nextId !in s.sessions && r.sessions == s.sessions[s.nextId := Session(fd, now, None, false, [])]
            && r.masks == s.masks[fd := {ReadBit}])
      && (|s.sessions| >= 10 || fd in s.masks || !added ==> r.sessions == s.sessions && r.masks == s.masks)
      && r.nextId == s.nextId + (if |s.sessions| < 10 then 1 else 0)
  {
    hide Valid;
    if |s.sessions| < MAX_CONNECTIONS && fd !in s.masks {
      OpenedKeeps(s, fd, now);
      OneMore(s.sessions, s.nextId, Session(fd, now, None, false, []));
    }
  }

  lemma FreshSession(fd: nat, now: int)
    ensures WellFormed(Session(fd, now, None, false, []))
    ensures MaskOf(Session(fd, now, None, false, [])) == {ReadBit}
  {
  }

  ghost function Survivors(s: Server, now: int): set<nat> {
    set id | id in s.sessions && !Expired(s.sessions[id], now)
  }

  lemma SweepIsKept(s: Server, now: int)
    ensures Sweep(s, now) == Kept(s, Survivors(s, now))
  {
    hide Expired;
    var keep := Survivors(s, now);
    assert (set id | id in s.sessions && Expired(s.sessions[id], now) :: s.sessions[id].fd)
        == (set id | id in s.sessions.Keys - keep :: s.sessions[id].fd);
  }

  lemma SweepKeeps(s: Server, now: int)
    requires Valid(s)
    ensures
      var r := Sweep(s, now);
      && Valid(r) && r.nextId == s.nextId
      && (forall id :: id in r.sessions <==> id in s.sessions && !Expired(s.sessions[id], now))
      && (forall id :: id in r.sessions ==> r.sessions[id] == s.sessions[id])
  {
    hide Valid, Expired, Kept;
    SweepIsKept(s, now);
    KeptKeeps(s, Survivors(s, now));
  }

  /** The sweep closes exactly the sessions that have been idle, with no request in flight, for more than a minute. */
  lemma SweepExactly(s: Server, now: int)
    requires Valid(s)
    ensures
      var r := Sweep(s, now);
      && (forall id :: id in s.sessions ==>
            (id in r.sessions <==> s.sessions[id].inFlight || now - s.sessions[id].lastActivity <= 60_000))
      && (forall id :: id in r.sessions ==> id in s.sessions && r.sessions[id] == s.sessions[id])
      && (forall fd :: fd in r.masks ==> fd in s.masks && r.masks[fd] == s.masks[fd])
  {
    hide Valid;
    SweepKeeps(s, now);
  }

  // ---------------------------------------------------------------------
  // Runs
  // ---------------------------------------------------------------------

  datatype Step =
    | Accept(fd: nat, added: bool, now: int)
    | Event(id: nat, events: set<Bit>, io: Io)
    | Respond(id: nat, response: Response, sent: Sent, modified: bool, now: int)
    | Idle(now: int)

  /**
   * Events stay within the mask their descriptor is registered with, plus
   * errors; the handler answers a request once.
   */
  predicate Enabled(s: Server, step: Step) {
    match step
    case Event(id, events, _) =>
      id in s.sessions && s.sessions[id].fd in s.masks && events <= s.masks[s.sessions[id].fd] + {ErrorBit}
    case Respond(id, _, _, _, _) => id in s.sessions ==> s.sessions[id].inFlight && s.sessions[id].pending.None?
    case _ => true
  }

  function Next(s: Server, step: Step): Server {
    match step
    case Accept(fd, added, now) => AcceptOne(s, fd, added, now)
    case Event(id, events, io) => OnSessionEvent(s, id, events, io).0
    case Respond(id, response, sent, modified, now) => SendResponse(s, id, response, sent, modified, now)
    case Idle(now) => Sweep(s, now)
  }

  const LISTENING := Server(map[], map[], 1)

  function After(steps: seq<Step>): Server {
    if steps == [] then LISTENING
    else
      var s := After(steps[..|steps| - 1]);
      var step := steps[|steps| - 1];
      if Enabled(s, step) then Next(s, step) else s
  }

  /** Ids only move on, and what an open session has said and heard is never rewritten. */
  ghost predicate Grows(s: Server, r: Server) {
    && s.nextId <= r.nextId
    && (forall id :: id in r.sessions && id < s.nextId ==>
          id in s.sessions && s.sessions[id].turns <= r.sessions[id].turns)
  }

  lemma OnlyGrows(s: Server, r: Server, id: nat)
    requires Only(s, r, id) && (id in r.sessions ==> s.sessions[id].turns <= r.sessions[id].turns)
    ensures Grows(s, r)
  {
    forall other | other in r.sessions
      ensures other in s.sessions && s.sessions[other].turns <= r.sessions[other].turns
    {
      if other != id {
        assert other in r.sessions - {id} && (r.sessions - {id})[other] == (s.sessions - {id})[other];
      }
    }
  }

  lemma NextKeeps(s: Server, step: Step)
    requires Valid(s) && Enabled(s, step)
    ensures Valid(Next(s, step)) && Grows(s, Next(s, step))
  {
    hide Valid, Only, OnSessionEvent, AcceptOne, Sweep, SendResponse;
    match step {
      case Accept(fd, added, now) => AcceptKeeps(s, fd, added, now);
      case Event(id, events, io) =>
        EventKeeps(s, id, events, io);
        OnlyGrows(s, Next(s, step), id);
      case Respond(id, response, sent, modified, now) =>
        SendKeeps(s, id, response, sent, modified, now);
        OnlySubset(s, Next(s, step), id);
        OnlyGrows(s, Next(s, step), id);
      case Idle(now) => SweepKeeps(s, now);
    }
  }

  lemma OnlySubset(s: Server, r: Server, id: nat)
    requires Only(s, r, id)
    ensures id in r.sessions ==> id in s.sessions
  {
  }

  /**
   * In every run each open session is registered for reading, for nothing or
   * for writing exactly as it is idle, waiting for the daemon or sending; its
   * history alternates requests and responses; the loop holds the open
   * sessions' descriptors and no other; there are at most ten sessions.
   */
  lemma {:induction false} SessionsStayInStep(steps: seq<Step>)
    ensures Valid(After(steps))
  {
    hide Valid, Next, Enabled;
    if steps == [] {
      ListeningValid();
    } else {
      SessionsStayInStep(steps[..|steps| - 1]);
      if Enabled(After(steps[..|steps| - 1]), steps[|steps| - 1]) {
        NextKeeps(After(steps[..|steps| - 1]), steps[|steps| - 1]);
      }
    }
  }

  lemma ListeningValid()
    ensures Valid(LISTENING)
  {
  }

  /** A session id that has been closed never comes back, whatever happens next. */
  lemma {:induction false} IdsAreNeverReused(steps: seq<Step>, more: seq<Step>)
    ensures Grows(After(steps), After(steps + more))
  {
    hide Next, Enabled, Grows, Valid;
    if more == [] {
      assert steps + more == steps;
      SameGrows(After(steps));
    } else {
      var last := |more| - 1;
      IdsAreNeverReused(steps, more[..last]);
      assert (steps + more)[..|steps| + last] == steps + more[..last];
      assert (steps + more)[|steps| + last] == more[last];
      var t := After(steps + more[..last]);
      SessionsStayInStep(steps + more[..last]);
      if Enabled(t, more[last]) {
        NextKeeps(t, more[last]);
        GrowsTwice(After(steps), t, Next(t, more[last]));
      }
    }
  }

  lemma SameGrows(s: Server)
    ensures Grows(s, s)
  {
  }

  lemma GrowsTwice(s: Server, t: Server, r: Server)
    requires Grows(s, t) && Grows(t, r)
    ensures Grows(s, r)
  {
  }

  /** The idle sweep never closes a session whose last turn was a request. */
  lemma SweepSparesInFlight(steps: seq<Step>, now: int, id: nat)
    requires id in After(steps).sessions
    ensures
      var s := After(steps);
      var turns := s.sessions[id].turns;
      turns != [] && turns[|turns| - 1].Asked? ==>
        id in Sweep(s, now).sessions && Sweep(s, now).sessions[id] == s.sessions[id]
  {
    hide Sweep, After, Valid;
    SessionsStayInStep(steps);
    SessionOf(After(steps), id);
    SweepKeeps(After(steps), now);
  }
}
