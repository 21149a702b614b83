/** What holds between any two steps of the pipeline, family by family. */
module PipelineInvariant {
  import opened Seqs
  import opened Wire
  import opened Supervisor
  import opened Pipeline
  import opened PipelineMoves
  import opened PipelineShape
  import PL = Lifecycle
  import AR = Reconnect

  // ---------------------------------------------------------------------
  // Projections
  // ---------------------------------------------------------------------

  /** The request of a command job, live or replayed. */
  function CommandId(j: Job): seq<nat> {
    if j.LiveJob? || j.ReplayJob? then [j.req.id] else []
  }

  function LiveId(j: Job): seq<nat> {
    if j.LiveJob? then [j.req.id] else []
  }

  function ReplayOf(j: Job): seq<Request> {
    if j.ReplayJob? then [j.req] else []
  }

  function AttemptOf(j: Job): seq<nat> {
    if j.ReconnectJob? then [j.attempt] else []
  }

  function ReplayFate(f: Fate): seq<Request> {
    if f.Replayed? then [f.req] else []
  }

  function RequestOf(f: Fate): seq<Request> { [f.req] }

  function IdOf(q: Request): seq<nat> { [q.id] }

  function ReplyId(r: Reply): seq<nat> { [r.id] }

  // ---------------------------------------------------------------------
  // The families
  // ---------------------------------------------------------------------

  /** Each suspend is followed at once by its resume, or by nothing yet; no resume stands alone. */
  ghost predicate Alternates(log: seq<Job>, asleep: bool) {
    && (forall i :: 0 <= i < |log| - 1 && log[i].SuspendJob? ==> log[i + 1].ResumeJob?)
    && (forall i :: 0 <= i < |log| && log[i].ResumeJob? ==> i > 0 && log[i - 1].SuspendJob?)
    && (asleep <==> log != [] && log[|log| - 1].SuspendJob?)
  }

  ghost predicate Increasing(ids: seq<nat>) {
    forall i, j :: 0 <= i < j < |ids| ==> ids[i] < ids[j]
  }

  /** Commands submitted, then commands parked: in arrival order, without repetition. */
  function Commands(s: Pipe): seq<nat> {
    FlatMap(CommandId, Log(s)) + FlatMap(IdOf, s.parked)
  }

  ghost predicate Ordered(s: Pipe) {
    Increasing(Commands(s)) && forall i :: 0 <= i < |Commands(s)| ==> Commands(s)[i] < s.nextId
  }

  /** Invoked sinks and sinks in flight. */
  ghost function Sinks(s: Pipe): multiset<nat> {
    multiset(FlatMap(ReplyId, s.replies)) + multiset(FlatMap(LiveId, Flight(s)))
  }

  /** Each of 0, 1, ..., n - 1 once, and nothing else. */
  ghost predicate OnceEach(ids: multiset<nat>, n: nat) {
    forall id: nat :: ids[id] == if id < n then 1 else 0
  }

  /** Every request so far has its sink in exactly one place. */
  ghost predicate Answered(s: Pipe) {
    OnceEach(Sinks(s), s.nextId)
  }

  /** Parked commands are resolved in order, each once; exactly the replayed ones reach the worker. */
  ghost predicate Conserved(s: Pipe) {
    && s.accepted == FlatMap(RequestOf, s.fates) + s.parked
    && FlatMap(ReplayOf, Log(s)) == FlatMap(ReplayFate, s.fates)
  }

  function Attempts(s: Pipe): seq<nat> {
    FlatMap(AttemptOf, Flight(s))
  }

  /** While the machine waits for an attempt, the system is awake and the attempt's result outstanding. */
  ghost predicate Recovering(c: Core, attempts: seq<nat>) {
    c.rc.m.state.Attempting? ==> !c.suspended && c.rc.attempts in attempts
  }

  /** After a suspend has run and until the next job runs, the adapter is closed. */
  ghost predicate ClosedAsleep(s: Pipe) {
    s.ran != [] && s.ran[|s.ran| - 1].SuspendJob? ==> !s.core.connected
  }

  /** Everything but the shape of what is in flight. */
  ghost predicate Books(s: Pipe) {
    && Alternates(Log(s), Asleep(s.core))
    && Ordered(s) && Answered(s) && Conserved(s)
    && Recovering(s.core, Attempts(s))
    && ClosedAsleep(s)
  }

  ghost predicate Inv(s: Pipe) {
    Shaped(s) && Books(s)
  }

  // ---------------------------------------------------------------------
  // Steps, abstractly
  // ---------------------------------------------------------------------

  /** Command bookkeeping is untouched. */
  ghost predicate SameCommands(s: Pipe, r: Pipe) {
    && r.nextId == s.nextId && r.replies == s.replies
    && r.parked == s.parked && r.accepted == s.accepted && r.fates == s.fates
  }

  lemma AlternatesGives(log: seq<Job>, asleep: bool, gave: seq<Job>)
    requires Alternates(log, asleep)
    requires NoPower(gave) ==> asleep ==> gave == []
    requires NoPower(gave) || gave == [SuspendJob] || gave == [ResumeJob]
    requires gave == [SuspendJob] ==> !asleep
    requires gave == [ResumeJob] ==> asleep
    ensures Alternates(log + gave, if NoPower(gave) then asleep else gave == [SuspendJob])
  {
    assert gave == [] ==> log + gave == log;
  }

  /** The four projections follow what is taken back and handed over. */
  lemma ProjectionsFollow(s: Pipe, r: Pipe, took: seq<Job>, gave: seq<Job>)
    requires Exchanged(s, r, took, gave)
    ensures FlatMap(CommandId, Log(r)) == FlatMap(CommandId, Log(s)) + FlatMap(CommandId, gave)
    ensures FlatMap(ReplayOf, Log(r)) == FlatMap(ReplayOf, Log(s)) + FlatMap(ReplayOf, gave)
    ensures
      var left := Flight(s)[|took|..];
      && FlatMap(LiveId, Flight(s)) == FlatMap(LiveId, took) + FlatMap(LiveId, left)
      && FlatMap(LiveId, Flight(r)) == FlatMap(LiveId, left) + FlatMap(LiveId, gave)
      && FlatMap(AttemptOf, Flight(s)) == FlatMap(AttemptOf, took) + FlatMap(AttemptOf, left)
      && FlatMap(AttemptOf, Flight(r)) == FlatMap(AttemptOf, left) + FlatMap(AttemptOf, gave)
  {
    var left := Flight(s)[|took|..];
    assert Flight(s) == took + left;
    FlatMapConcat(CommandId, Log(s), gave);
    FlatMapConcat(ReplayOf, Log(s), gave);
    FlatMapConcat(LiveId, took, left);
    FlatMapConcat(LiveId, left, gave);
    FlatMapConcat(AttemptOf, took, left);
    FlatMapConcat(AttemptOf, left, gave);
  }

  /** No command, no attempt changes hands. */
  ghost predicate SameWork(s: Pipe, r: Pipe) {
    && FlatMap(CommandId, Log(r)) == FlatMap(CommandId, Log(s))
    && FlatMap(ReplayOf, Log(r)) == FlatMap(ReplayOf, Log(s))
    && FlatMap(LiveId, Flight(r)) == FlatMap(LiveId, Flight(s))
    && Attempts(r) == Attempts(s)
  }

  lemma PowerCarriesNoWork(js: seq<Job>)
    requires |js| <= 1 && (js != [] ==> IsPower(js[0]))
    ensures FlatMap(CommandId, js) == [] && FlatMap(ReplayOf, js) == []
    ensures FlatMap(LiveId, js) == [] && FlatMap(AttemptOf, js) == []
  {
  }

  lemma PowerIsNoWork(s: Pipe, r: Pipe, took: seq<Job>, gave: seq<Job>)
    requires Exchanged(s, r, took, gave)
    requires |took| <= 1 && (took != [] ==> IsPower(took[0]))
    requires |gave| <= 1 && (gave != [] ==> IsPower(gave[0]))
    ensures SameWork(s, r)
  {
    ProjectionsFollow(s, r, took, gave);
    PowerCarriesNoWork(took);
    PowerCarriesNoWork(gave);
  }

  lemma SameWorkKeeps(s: Pipe, r: Pipe)
    requires SameCommands(s, r) && SameWork(s, r)
    requires Ordered(s) && Answered(s) && Conserved(s)
    ensures Ordered(r) && Answered(r) && Conserved(r)
  {
    assert Commands(r) == Commands(s) && Sinks(r) == Sinks(s);
  }

  /** Taking back the result of a suspend or resume touches no book. */
  lemma TakePowerKeeps(s: Pipe, r: Pipe, job: Job)
    requires Books(s) && SameCommands(s, r) && Exchanged(s, r, [job], []) && IsPower(job) && r.core == s.core
    ensures Books(r)
  {
    PowerIsNoWork(s, r, [job], []);
    SameWorkKeeps(s, r);
    assert Log(r) == Log(s);
  }

  /** Handing over a suspend or a resume, or nothing. */
  lemma PowerKeeps(s: Pipe, r: Pipe, gave: seq<Job>)
    requires Books(s) && SameCommands(s, r) && Exchanged(s, r, [], gave) && PowerGives(s.core, r.core, gave)
    ensures Books(r)
  {
    PowerIsNoWork(s, r, [], gave);
    SameWorkKeeps(s, r);
    AlternatesGives(Log(s), Asleep(s.core), gave);
  }

  // ---------------------------------------------------------------------
  // Parked commands resolved
  // ---------------------------------------------------------------------

  lemma {:induction false} ResolvedMaps(reqs: seq<Request>, replayed: bool)
    ensures FlatMap(CommandId, Replays(reqs)) == FlatMap(IdOf, reqs)
    ensures FlatMap(ReplayOf, Replays(reqs)) == reqs
    ensures FlatMap(LiveId, Replays(reqs)) == [] && FlatMap(AttemptOf, Replays(reqs)) == []
    ensures FlatMap(RequestOf, Fates(reqs, replayed)) == reqs
    ensures FlatMap(ReplayFate, Fates(reqs, replayed)) == if replayed then reqs else []
  {
    if reqs == [] {
    } else {
      var init := reqs[..|reqs| - 1];
      ResolvedMaps(init, replayed);
      assert reqs == init + [reqs[|reqs| - 1]];
      ReplayedOne(init, reqs[|reqs| - 1]);
      FatedOne(init, reqs[|reqs| - 1], replayed);
    }
  }

  lemma ReplayedOne(init: seq<Request>, q: Request)
    ensures FlatMap(IdOf, init + [q]) == FlatMap(IdOf, init) + [q.id]
    ensures FlatMap(CommandId, Replays(init + [q])) == FlatMap(CommandId, Replays(init)) + [q.id]
    ensures FlatMap(ReplayOf, Replays(init + [q])) == FlatMap(ReplayOf, Replays(init)) + [q]
    ensures FlatMap(LiveId, Replays(init + [q])) == FlatMap(LiveId, Replays(init))
    ensures FlatMap(AttemptOf, Replays(init + [q])) == FlatMap(AttemptOf, Replays(init))
  {
    hide FlatMap;
    assert Replays(init + [q]) == Replays(init) + [ReplayJob(q)];
    FlatMapOne(IdOf, init, q);
    FlatMapOne(CommandId, Replays(init), ReplayJob(q));
    FlatMapOne(ReplayOf, Replays(init), ReplayJob(q));
    FlatMapOne(LiveId, Replays(init), ReplayJob(q));
    FlatMapOne(AttemptOf, Replays(init), ReplayJob(q));
  }

  lemma FatedOne(init: seq<Request>, q: Request, replayed: bool)
    ensures FlatMap(RequestOf, Fates(init + [q], replayed)) == FlatMap(RequestOf, Fates(init, replayed)) + [q]
    ensures FlatMap(ReplayFate, Fates(init + [q], replayed))
         == FlatMap(ReplayFate, Fates(init, replayed)) + if replayed then [q] else []
  {
    hide FlatMap;
    var fate := if replayed then Replayed(q) else Discarded(q);
    assert Fates(init + [q], replayed) == Fates(init, replayed) + [fate];
    FlatMapOne(RequestOf, Fates(init, replayed), fate);
    FlatMapOne(ReplayFate, Fates(init, replayed), fate);
  }

  lemma ResolveKeeps(s: Pipe, valid: bool)
    requires Books(s) && Rested(s.core) && s.core.suspended && s.core.pl.phase == PL.Resuming && Flight(s) == []
    ensures Books(Resolve(s, valid))
  {
    hide FlatMap, Flight, Log;
    var r := Resolve(s, valid);
    var replays := if valid then Replays(s.parked) else [];
    FlatMapNothing(CommandId, []);
    FlatMapNothing(ReplayOf, []);
    FlatMapNothing(LiveId, []);
    FlatMapNothing(AttemptOf, []);
    FlatMapNothing(IdOf, []);
    ResolveGives(s, valid);
    ProjectionsFollow(s, r, [], replays);
    ResolvedMaps(s.parked, valid);
    FlatMapConcat(RequestOf, s.fates, Fates(s.parked, valid));
    FlatMapConcat(ReplayFate, s.fates, Fates(s.parked, valid));
    assert Commands(r) <= Commands(s);
    assert Sinks(r) == Sinks(s);
    assert replays != [] ==> !IsPower(replays[0]);
    AlternatesGives(Log(s), false, replays);
  }

  // ---------------------------------------------------------------------
  // Commands received and answered
  // ---------------------------------------------------------------------

  lemma NewSink(s: Pipe, r: Pipe)
    requires Answered(s) && r.nextId == s.nextId + 1 && Sinks(r) == Sinks(s) + multiset{s.nextId}
    ensures Answered(r)
  {
    hide Sinks;
  }

  lemma NewCommand(s: Pipe, r: Pipe)
    requires Ordered(s) && r.nextId == s.nextId + 1
    requires Commands(r) == Commands(s) || Commands(r) == Commands(s) + [s.nextId]
    ensures Ordered(r)
  {
  }

  /** Invoking a sink. */
  lemma RespondSinks(s: Pipe, req: Request, response: Response)
    ensures Sinks(Respond(s, req, response)) == Sinks(s) + multiset{req.id}
  {
    FlatMapOne(ReplyId, s.replies, Reply(req.id, response));
    var ids := FlatMap(ReplyId, s.replies);
    assert multiset(ids + [req.id]) == multiset(ids) + multiset{req.id};
    assert Flight(Respond(s, req, response)) == Flight(s);
  }

  /** A new request answered on the spot. */
  lemma ReplyKeeps(s: Pipe, msg: Message, response: Response)
    requires Books(s)
    ensures Books(Respond(s.(nextId := s.nextId + 1), Request(s.nextId, msg), response))
  {
    var t := s.(nextId := s.nextId + 1);
    var r := Respond(t, Request(s.nextId, msg), response);
    assert Log(r) == Log(s) && Flight(t) == Flight(r) == Flight(s);
    RespondSinks(t, Request(s.nextId, msg), response);
    assert Sinks(t) == Sinks(s);
    NewSink(s, r);
    NewCommand(s, r);
  }

  /** A request parked: it comes after every command before it. */
  lemma ParkKeeps(s: Pipe, req: Request)
    requires Books(s)
    requires forall i :: 0 <= i < |Commands(s)| ==> Commands(s)[i] < req.id
    requires req.id < s.nextId
    ensures Books(s.(parked := s.parked + [req], accepted := s.accepted + [req]))
  {
    hide Flight, Log, Commands, Sinks, OnceEach, Increasing, Ordered;
    var r := s.(parked := s.parked + [req], accepted := s.accepted + [req]);
    SameQueues(s, r);
    FlatMapOne(IdOf, s.parked, req);
    ParkedLast(s, r, req.id);
  }

  lemma SameQueues(s: Pipe, r: Pipe)
    requires r.posts == s.posts && r.stage == s.stage && r.core == s.core && r.ran == s.ran
    ensures Log(r) == Log(s) && Flight(r) == Flight(s)
    ensures r.replies == s.replies ==> Sinks(r) == Sinks(s)
  {
  }

  lemma ParkedLast(s: Pipe, r: Pipe, id: nat)
    requires Ordered(s) && r.nextId == s.nextId && Log(r) == Log(s)
    requires FlatMap(IdOf, r.parked) == FlatMap(IdOf, s.parked) + [id]
    requires forall i :: 0 <= i < |Commands(s)| ==> Commands(s)[i] < id
    requires id < s.nextId
    ensures Ordered(r)
  {
    hide FlatMap, Log;
    assert Commands(r) == Commands(s) + [id];
  }

  /** `r` is `s` with one live command more in the worker's queue. */
  ghost predicate HandsOver(s: Pipe, r: Pipe, job: Job) {
    && Exchanged(s, r, [], [job]) && job.LiveJob? && job.req.id == s.nextId && r.nextId == s.nextId + 1
    && r.replies == s.replies && r.parked == s.parked == [] && r.accepted == s.accepted && r.fates == s.fates
    && r.core == s.core.(jobs := r.core.jobs)
  }

  lemma LiveProjections(s: Pipe, r: Pipe, job: Job)
    requires HandsOver(s, r, job)
    ensures FlatMap(CommandId, Log(r)) == FlatMap(CommandId, Log(s)) + [job.req.id]
    ensures FlatMap(ReplayOf, Log(r)) == FlatMap(ReplayOf, Log(s))
    ensures FlatMap(LiveId, Flight(r)) == FlatMap(LiveId, Flight(s)) + [job.req.id]
    ensures Attempts(r) == Attempts(s)
  {
    ProjectionsFollow(s, r, [], [job]);
    assert [job][..0] == [];
  }

  lemma LiveSinks(s: Pipe, r: Pipe, job: Job)
    requires HandsOver(s, r, job)
    ensures Commands(r) == Commands(s) + [job.req.id]
    ensures Sinks(r) == Sinks(s) + multiset{job.req.id}
  {
    hide FlatMap, Flight, Log;
    FlatMapNothing(IdOf, []);
    LiveProjections(s, r, job);
    var lives := FlatMap(LiveId, Flight(s));
    assert multiset(lives + [job.req.id]) == multiset(lives) + multiset{job.req.id};
  }

  /** A new request handed to the worker. */
  lemma LiveKeeps(s: Pipe, r: Pipe, job: Job)
    requires Books(s) && !s.core.suspended && HandsOver(s, r, job)
    ensures Books(r)
  {
    hide FlatMap, Flight, Log, Ordered, Answered, Alternates, Commands, Sinks, Recovering;
    LiveSinks(s, r, job);
    LiveProjections(s, r, job);
    NewCommand(s, r);
    NewSink(s, r);
    assert NoPower([job]);
    AlternatesGives(Log(s), false, [job]);
    LiveRecovering(s, r);
  }

  lemma LiveRecovering(s: Pipe, r: Pipe)
    requires Recovering(s.core, Attempts(s)) && Attempts(r) == Attempts(s) && r.core == s.core.(jobs := r.core.jobs)
    ensures Recovering(r.core, Attempts(r))
  {
  }

  lemma AnswerProjections(s: Pipe, t: Pipe, req: Request)
    requires Exchanged(s, t, [LiveJob(req)], []) && t.replies == s.replies
    ensures Sinks(s) == Sinks(t) + multiset{req.id}
    ensures Attempts(t) == Attempts(s) && Log(t) == Log(s)
  {
    hide Flight, FlatMap;
    ProjectionsFollow(s, t, [LiveJob(req)], []);
    FlatMapOne(LiveId, [], LiveJob(req));
    FlatMapOne(AttemptOf, [], LiveJob(req));
    FlatMapNothing(LiveId, []);
    FlatMapNothing(AttemptOf, []);
    var left := FlatMap(LiveId, Flight(t));
    assert multiset([req.id] + left) == multiset{req.id} + multiset(left);
  }

  /** The worker's answer reaches its sink. */
  lemma AnswerKeeps(s: Pipe, t: Pipe, req: Request, response: Response)
    requires Books(s) && SameCommands(s, t) && t.core == s.core && t.ran == s.ran
    requires Exchanged(s, t, [LiveJob(req)], [])
    ensures Books(Respond(t, req, response))
  {
    hide Flight, Log, FlatMap, OnceEach, Sinks;
    var r := Respond(t, req, response);
    AnswerProjections(s, t, req);
    RespondSinks(t, req, response);
    SameQueues(t, r);
    assert Commands(r) == Commands(s);
  }

  // ---------------------------------------------------------------------
  // Recovery
  // ---------------------------------------------------------------------

  lemma AttemptProjections(s: Pipe, r: Pipe, took: seq<Job>, gave: seq<Job>)
    requires Exchanged(s, r, took, gave)
    requires |took| <= 1 && (took != [] ==> took[0].ReconnectJob?)
    requires |gave| <= 1 && (gave != [] ==> gave[0].ReconnectJob?)
    ensures FlatMap(CommandId, Log(r)) == FlatMap(CommandId, Log(s))
    ensures FlatMap(ReplayOf, Log(r)) == FlatMap(ReplayOf, Log(s))
    ensures FlatMap(LiveId, Flight(r)) == FlatMap(LiveId, Flight(s))
    ensures
      var taken := if took == [] then [] else [took[0].attempt];
      taken <= Attempts(s)
      && Attempts(r) == Attempts(s)[|taken|..] + (if gave == [] then [] else [gave[0].attempt])
  {
    ProjectionsFollow(s, r, took, gave);
    assert took != [] ==> took[..0] == [];
    assert gave != [] ==> gave[..0] == [];
  }

  lemma CommandsKeep(s: Pipe, r: Pipe)
    requires Ordered(s) && Answered(s) && Conserved(s) && SameCommands(s, r)
    requires FlatMap(CommandId, Log(r)) == FlatMap(CommandId, Log(s))
    requires FlatMap(ReplayOf, Log(r)) == FlatMap(ReplayOf, Log(s))
    requires FlatMap(LiveId, Flight(r)) == FlatMap(LiveId, Flight(s))
    ensures Ordered(r) && Answered(r) && Conserved(r)
  {
    assert Commands(r) == Commands(s) && Sinks(r) == Sinks(s);
  }

  lemma RecoveringGives(c: Core, r: Core, e: AR.Event, attempts: seq<nat>, gave: seq<Job>)
    requires c.rc.m.Valid() && Recovering(c, attempts) && Signalled(c, r, e, gave)
    requires e in {AR.ConnectionLost, AR.RetryTimerFired}
    ensures Recovering(r, attempts + (if gave == [] then [] else [gave[0].attempt]))
  {
    assert attempts + [] == attempts;
  }

  lemma RecoveringTakes(c: Core, r: Core, e: AR.Event, attempts: seq<nat>, gave: seq<Job>)
    requires c.rc.m.Valid() && Recovering(c, attempts) && Signalled(c, r, e, gave)
    requires e in {AR.AttemptSucceeded, AR.AttemptFailed} && attempts != []
    ensures gave == [] && Recovering(r, attempts[1..])
  {
  }

  /** A lost connection or a retry timer, stale or not. */
  lemma RecoverKeeps(oracle: Oracle, s: Pipe, e: AR.Event)
    requires Books(s) && Shaped(s) && e in {AR.ConnectionLost, AR.RetryTimerFired}
    ensures Books(s.(core := Recover(oracle, s.core, e)))
    ensures Shaped(s.(core := Recover(oracle, s.core, e)))
  {
    var gave := RecoveryGives(oracle, s, e);
    var r := s.(core := Recover(oracle, s.core, e));
    SignalKeeps(s, r, e, gave);
  }

  lemma SignalKeeps(s: Pipe, r: Pipe, e: AR.Event, gave: seq<Job>)
    requires Books(s) && s.core.rc.m.Valid() && Signalled(s.core, r.core, e, gave)
    requires SameCommands(s, r) && Exchanged(s, r, [], gave) && e in {AR.ConnectionLost, AR.RetryTimerFired}
    ensures Books(r)
  {
    hide Flight, Log, FlatMap, Ordered, Answered;
    AttemptProjections(s, r, [], gave);
    CommandsKeep(s, r);
    assert Alternates(Log(r), Asleep(r.core)) by {
      assert NoPower(gave);
      AlternatesGives(Log(s), Asleep(s.core), gave);
    }
    assert Recovering(r.core, Attempts(r)) by {
      RecoveringGives(s.core, r.core, e, Attempts(s), gave);
      assert Attempts(s)[0..] == Attempts(s);
    }
  }

  lemma ResultSignalKeeps(s: Pipe, r: Pipe, e: AR.Event, attempt: nat)
    requires Books(s) && s.core.rc.m.Valid() && Signalled(s.core, r.core, e, [])
    requires e in {AR.AttemptSucceeded, AR.AttemptFailed}
    requires SameCommands(s, r) && Exchanged(s, r, [ReconnectJob(attempt)], [])
    ensures Books(r)
  {
    hide Flight, Log, FlatMap, Ordered, Answered;
    AttemptProjections(s, r, [ReconnectJob(attempt)], []);
    CommandsKeep(s, r);
    assert Log(r) == Log(s);
    RecoveringTakes(s.core, r.core, e, Attempts(s), []);
  }

  /** The result of an attempt: consumed if the machine waits for one, absorbed otherwise. */
  lemma ResultKeeps(oracle: Oracle, s: Pipe, t: Pipe, attempt: nat, ok: bool)
    requires Books(s) && Shaped(t) && SameCommands(s, t) && t.core == s.core
    requires Exchanged(s, t, [ReconnectJob(attempt)], [])
    ensures Books(ReconnectFinished(oracle, t, ok)) && Shaped(ReconnectFinished(oracle, t, ok))
  {
    hide Flight, Log, FlatMap, Ordered, Answered, Conserved, Alternates, Recovering;
    var e := if ok then AR.AttemptSucceeded else AR.AttemptFailed;
    var gave := RecoveryGives(oracle, t, e);
    var r := ReconnectFinished(oracle, t, ok);
    assert gave == [];
    ThenGive(s, t, r, [ReconnectJob(attempt)], []);
    ResultSignalKeeps(s, r, e, attempt);
  }

  // ---------------------------------------------------------------------
  // Steps outside the main thread
  // ---------------------------------------------------------------------

  lemma SilentProjections(f: seq<Job>, g: seq<Job>, k: nat)
    requires SilentAt(f, g, k)
    ensures FlatMap(LiveId, g) == FlatMap(LiveId, f) && FlatMap(AttemptOf, g) == FlatMap(AttemptOf, f)
  {
    FlatMapDrop(LiveId, f, k);
    FlatMapDrop(AttemptOf, f, k);
  }

  /** Nothing the books depend on changes, but for what the worker does to the adapter. */
  lemma ProgressKeeps(s: Pipe, r: Pipe)
    requires Books(s) && Shaped(s) && Progressed(s, r) && SameCommands(s, r)
    requires Rested(r.core) && r.core.pl.phase == s.core.pl.phase && r.core.suspended == s.core.suspended
    requires (r.core.rc.m, r.core.rc.attempts) == (s.core.rc.m, s.core.rc.attempts)
    requires ClosedAsleep(r)
    ensures Books(r) && Shaped(r)
  {
    if Flight(r) != Flight(s) {
      var k :| SilentAt(Flight(s), Flight(r), k);
      SilentProjections(Flight(s), Flight(r), k);
      ShapeDrops(s.core.pl.phase, s.core.suspended, Flight(s), Flight(r), k);
    }
    CommandsKeep(s, r);
  }
}
