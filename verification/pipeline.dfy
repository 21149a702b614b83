/**
 * The power and command pipeline as one transition system.
 *
 * The main thread owns the supervisor, the parked commands and the standby
 * policy; the worker thread owns the adapter. They are joined by two FIFOs:
 * jobs (main to worker) and posts (any thread to main). A step is one
 * main-thread handler, one stage of a worker job, one adapter callback or one
 * timer expiry, so a run is any interleaving of the threads.
 */
module Pipeline {
  import opened Wire
  import opened Supervisor
  import opened Timers
  import PL = Lifecycle
  import AR = Reconnect

  /** A closure on the main-thread work queue. */
  datatype Post =
    | SuspendDone | ResumeDone(valid: bool)
    | ReconnectDone(attempt: nat, ok: bool)
    | Answer(req: Request, response: Response)
    | ConnectionLost
    | PowerSignal(kind: PL.Kind)
    | Observation(tvStandby: bool)
    | ArmStandby
    | SuspendSystem

  /**
   * Where the worker stands with the job it has dequeued. `closing`: a job
   * that reopens the adapter has begun to, and the adapter is closed.
   */
  datatype Stage = Resting | Fetched(job: Job, closing: bool) | Reopened | Ran(job: Job, ok: bool)

  datatype Reply = Reply(id: nat, response: Response)

  /** What became of a parked command. */
  datatype Fate = Replayed(req: Request) | Discarded(req: Request)

  datatype Pipe = Pipe(
    core: Core,
    parked: seq<Request>,
    standbyEnabled: bool, standbyArmed: bool,
    queueing: bool,            // configuration: park commands during suspend
    closed: bool,              // the dispatcher has been shut down
    stage: Stage,              // worker thread
    posts: seq<Post>,          // main-thread work queue
    // Histories.
    nextId: nat,               // requests received
    replies: seq<Reply>,       // sinks invoked
    accepted: seq<Request>,    // commands acknowledged as queued
    fates: seq<Fate>,          // what became of those no longer parked
    ran: seq<Job>,             // jobs whose adapter calls have been made
    met: seq<bool>,            // whether the adapter was open when each of them was run
    results: seq<bool>,        // what the jobs that have finished came to, in the same order
    started: seq<PL.Entry>,    // suspend and resume requests begun
    autoSuspends: nat)         // suspends asked for by the standby policy

  // ---------------------------------------------------------------------
  // Main thread: commands
  // ---------------------------------------------------------------------

  /** The requests one handler has begun, given the pending queue before and after it. */
  function Begun(before: seq<PL.Entry>, after: seq<PL.Entry>): seq<PL.Entry> {
    if |after| <= |before| then before[..|before| - |after|] else []
  }

  /** `r` is what a supervisor handler makes of `c`; the requests it begins are recorded. */
  function WithCore(s: Pipe, c: Core, r: Core): Pipe {
    s.(core := r, started := s.started + Begun(c.pl.pending, r.pl.pending))
  }

  function PowerRequest(oracle: Oracle, s: Pipe, e: PL.Entry): (r: Pipe)
    requires s.core.rc.m.Valid()
    ensures r.core.rc.m.Valid()
  {
    WithCore(s, s.core.(pl := PL.Requested(s.core.pl, e)), Requested(oracle, s.core, e))
  }

  function Respond(s: Pipe, req: Request, response: Response): Pipe {
    s.(replies := s.replies + [Reply(req.id, response)])
  }

  function Submit(s: Pipe, jobs: seq<Job>): Pipe {
    s.(core := s.core.(jobs := s.core.jobs + jobs))
  }

  /** A command that arrives while suspended is parked, or refused. */
  function HandleSuspendedInline(s: Pipe, req: Request, spec: DispatchSpec): Pipe {
    if s.queueing && spec.queueable then
      Respond(s.(parked := s.parked + [req], accepted := s.accepted + [req]), req, Success)
    else Respond(s, req, Error)
  }

  function Dispatch(s: Pipe, req: Request): Pipe {
    var spec := DispatchOf(req.msg.ty);
    if s.closed || spec.None? || spec.value.dispatch.SupervisorIntercepted? then Respond(s, req, Error)
    else if s.core.suspended then HandleSuspendedInline(s, req, spec.value)
    else if spec.value.dispatch.StateOnly? then
      if req.msg.data == [] then Respond(s, req, Error)
      else Respond(s.(standbyEnabled := req.msg.data[0] > 0), req, Success)
    else Submit(s, [LiveJob(req)])
  }

  function HandleCommand(oracle: Oracle, s: Pipe, msg: Message): (r: Pipe)
    requires s.core.rc.m.Valid()
    ensures r.core.rc.m.Valid()
  {
    var req := Request(s.nextId, msg);
    var s1 := s.(nextId := s.nextId + 1);
    var spec := DispatchOf(msg.ty);
    if spec.Some? && spec.value.dispatch.SupervisorIntercepted? then
      match msg.ty
      case CMD_SUSPEND => Respond(PowerRequest(oracle, s1, PL.Entry(PL.Suspend, PL.Wire)), req, Success)
      case CMD_RESUME => Respond(PowerRequest(oracle, s1, PL.Entry(PL.Resume, PL.Wire)), req, Success)
      case _ => Respond(s1, req, Error)
    else Dispatch(s1, req)
  }

  // ---------------------------------------------------------------------
  // Main thread: completions and other posts
  // ---------------------------------------------------------------------

  function Replays(reqs: seq<Request>): seq<Job> {
    seq(|reqs|, i requires 0 <= i < |reqs| => ReplayJob(reqs[i]))
  }

  function Fates(reqs: seq<Request>, replayed: bool): seq<Fate> {
    seq(|reqs|, i requires 0 <= i < |reqs| => if replayed then Replayed(reqs[i]) else Discarded(reqs[i]))
  }

  function SuspendFinished(oracle: Oracle, s: Pipe): (r: Pipe)
    requires s.core.rc.m.Valid()
    ensures r.core.rc.m.Valid()
  {
    WithCore(s, s.core, OnSuspendCompleted(oracle, s.core))
  }

  /** Drains the parked commands and unsuspends; they are replayed if the adapter is back. */
  function Resolve(s: Pipe, valid: bool): Pipe {
    var t := s.(parked := [], fates := s.fates + Fates(s.parked, valid),
                core := s.core.(suspended := false));
    if valid then Submit(t, Replays(s.parked)) else t
  }

  /** The parked commands are resolved before the resume completes, all in one main-thread step. */
  function ResumeFinished(oracle: Oracle, s: Pipe, valid: bool): (r: Pipe)
    requires s.core.rc.m.Valid()
    ensures r.core.rc.m.Valid()
  {
    var t := Resolve(s, valid);
    WithCore(t, t.core, OnResumeCompleted(oracle, t.core, valid))
  }

  function ReconnectFinished(oracle: Oracle, s: Pipe, ok: bool): (r: Pipe)
    requires s.core.rc.m.Valid()
    ensures r.core.rc.m.Valid()
  {
    s.(core := Recover(oracle, s.core, if ok then AR.AttemptSucceeded else AR.AttemptFailed))
  }

  /** Runs one closure. */
  function RunPost(oracle: Oracle, s: Pipe, p: Post): (r: Pipe)
    requires s.core.rc.m.Valid()
    ensures r.core.rc.m.Valid()
  {
    match p
    case SuspendDone => SuspendFinished(oracle, s)
    case ResumeDone(valid) => ResumeFinished(oracle, s, valid)
    case ReconnectDone(_, ok) => ReconnectFinished(oracle, s, ok)
    case Answer(req, response) => Respond(s, req, response)
    case ConnectionLost => s.(core := Recover(oracle, s.core, AR.ConnectionLost))
    case PowerSignal(kind) => PowerRequest(oracle, s, PL.Entry(kind, PL.DBus))
    case Observation(tvStandby) =>
      if tvStandby && s.standbyArmed && s.standbyEnabled then s.(posts := s.posts + [SuspendSystem]) else s
    case ArmStandby => s.(standbyArmed := true)
    case SuspendSystem => s.(autoSuspends := s.autoSuspends + 1)
  }

  /** Shutting down: commands are refused from now on, and what is still parked is discarded. */
  function ShutDown(s: Pipe): Pipe {
    var t := s.(closed := true);
    if s.core.down then t
    else t.(core := s.core.(down := true), parked := [], fates := s.fates + Fates(s.parked, false))
  }

  // ---------------------------------------------------------------------
  // Worker thread
  // ---------------------------------------------------------------------

  /** The handler of a command: the connection gate, then the adapter call. */
  function ExecuteOnAdapter(connected: bool, msg: Message, ok: bool): (r: (bool, bool)) {
    var spec := DispatchOf(msg.ty);
    if spec.None? || !spec.value.dispatch.AdapterCall? then (connected, false)
    else if spec.value.requiresConnection && !connected then (connected, false)
    else if msg.ty == CMD_RESTART_ADAPTER then (ok, ok)
    else if msg.ty in {CMD_CHANGE_SOURCE, CMD_KEY} && msg.data == [] then (connected, false)
    else (connected, ok)
  }

  /** The adapter calls of a job: the connection flag they leave, and how far the job has got. */
  function AdapterCalls(connected: bool, job: Job, ok: bool): (r: (bool, Stage))
    ensures if job.ResumeJob? then r.1 == Reopened else r.1.Ran? && r.1.job == job
    ensures job.SuspendJob? ==> !r.0
  {
    match job
    case SuspendJob => (false, Ran(job, true))
    case ResumeJob => (ok, Reopened)
    case ReconnectJob(_) => (ok, Ran(job, ok))
    case ScanJob => (connected, Ran(job, ok))
    case _ =>
      var (c, done) := ExecuteOnAdapter(connected, job.req.msg, ok);
      (c, Ran(job, done))
  }

  /** Jobs that close the adapter and open it again; it counts as closed in between. */
  predicate Reopens(job: Job) {
    match job
    case ResumeJob => true
    case ReconnectJob(_) => true
    case LiveJob(req) => req.msg.ty == CMD_RESTART_ADAPTER
    case ReplayJob(req) => req.msg.ty == CMD_RESTART_ADAPTER
    case _ => false
  }

  /** Runs the fetched job; `ok` is what the adapter answers. */
  function RunJob(s: Pipe, ok: bool): Pipe
    requires s.stage.Fetched?
  {
    var (connected, stage) := AdapterCalls(s.core.connected, s.stage.job, ok);
    s.(ran := s.ran + [s.stage.job], met := s.met + [s.core.connected],
       stage := stage, core := s.core.(connected := connected))
  }

  /** What a finished job posts back; replays and the startup scan post nothing. */
  function Completion(job: Job, ok: bool): seq<Post> {
    match job
    case SuspendJob => [SuspendDone]
    case ResumeJob => [ResumeDone(ok)]
    case ReconnectJob(a) => [ReconnectDone(a, ok)]
    case LiveJob(req) => [Answer(req, if ok then Success else Error)]
    case _ => []
  }

  function FinishJob(s: Pipe): Pipe
    requires s.stage.Ran?
  {
    s.(stage := Resting, posts := s.posts + Completion(s.stage.job, s.stage.ok), results := s.results + [s.stage.ok])
  }

  // ---------------------------------------------------------------------
  // Steps and runs
  // ---------------------------------------------------------------------

  datatype Step =
    | WireCommand(msg: Message)   // main: a client's request has been read
    | DrainOne                    // main: the next closure runs
    | SafetyTimer | RetryTimer    // main: a timer's handler runs, possibly stale
    | SafetyExpires | RetryExpires
    | Dequeue | Reopening | Perform(ok: bool) | Probe | Finish  // worker
    | Alert                       // adapter: connection lost
    | Observed(tvStandby: bool)   // adapter: bus observation
    | BusSignal(kind: PL.Kind)    // D-Bus: the system suspends or resumes

  predicate Enabled(s: Pipe, step: Step) {
    match step
    case DrainOne => s.posts != []
    case SafetyExpires => s.core.safety == Armed
    case RetryExpires => s.core.rc.retry == Armed
    case Dequeue => s.stage == Resting && s.core.jobs != []
    case Reopening => s.stage.Fetched? && Reopens(s.stage.job) && !s.stage.closing
    case Perform(_) => s.stage.Fetched? && (Reopens(s.stage.job) ==> s.stage.closing)
    case Probe => s.stage == Reopened
    case Finish => s.stage.Ran?
    case _ => true
  }

  function Next(oracle: Oracle, s: Pipe, step: Step): Pipe
    requires s.core.rc.m.Valid() && Enabled(s, step)
  {
    match step
    case WireCommand(msg) => HandleCommand(oracle, s, msg)
    case DrainOne => RunPost(oracle, s.(posts := s.posts[1..]), s.posts[0])
    case SafetyTimer => s.(core := OnSafetyTimerFired(oracle, s.core))
    case RetryTimer => s.(core := OnRetryTimerFired(oracle, s.core))
    case SafetyExpires => s.(core := s.core.(safety := Expired))
    case RetryExpires => s.(core := s.core.(rc := s.core.rc.(retry := Expired)))
    case Dequeue => s.(stage := Fetched(s.core.jobs[0], false), core := s.core.(jobs := s.core.jobs[1..]))
    case Reopening => s.(stage := s.stage.(closing := true), core := s.core.(connected := false))
    case Perform(ok) => RunJob(s, ok)
    case Probe => s.(stage := Ran(ResumeJob, s.core.connected))
    case Finish => FinishJob(s)
    case Alert => s.(core := s.core.(connected := false), posts := s.posts + [ConnectionLost])
    case Observed(tvStandby) => s.(posts := s.posts + [Observation(tvStandby)])
    case BusSignal(kind) => s.(posts := s.posts + [PowerSignal(kind)])
  }

  lemma NextSound(oracle: Oracle, s: Pipe, step: Step)
    requires s.core.rc.m.Valid() && Enabled(s, step)
    ensures Next(oracle, s, step).core.rc.m.Valid()
  {
    hide HandleCommand, RunPost, OnSafetyTimerFired, OnRetryTimerFired, RunJob, FinishJob, AR.Machine.Valid;
    match step {
      case Perform(ok) => RunJobSound(s, ok);
      case Finish => FinishJobSound(s);
      case _ =>
    }
  }

  lemma RunJobSound(s: Pipe, ok: bool)
    requires s.stage.Fetched?
    ensures RunJob(s, ok).core.rc == s.core.rc
  {
    hide AdapterCalls;
  }

  lemma FinishJobSound(s: Pipe)
    requires s.stage.Ran?
    ensures FinishJob(s).core.rc == s.core.rc
  {
    hide Completion;
  }

  /**
   * The daemon when its event loop starts. The adapter has been opened; if it
   * is lost again by then, the loss is among the posts.
   */
  predicate Initial(s: Pipe) {
    && s.core.pl == PL.AT_REST
    && s.core.rc.m.state == AR.Idle && s.core.rc.m.Valid()
    && s.core.rc.retry == Off && s.core.rc.attempts == 0
    && s.core.safety == Off && !s.core.suspended && !s.core.down
    && (s.core.jobs == [] || s.core.jobs == [ScanJob])
    && s.core.locks == []
    && s.parked == [] && !s.standbyArmed && s.stage == Resting
    && s.posts != [] && s.posts[|s.posts| - 1] == ArmStandby
    && (forall i :: 0 <= i < |s.posts| - 1 ==> s.posts[i].ConnectionLost? || s.posts[i].Observation?)
    && (s.core.connected || ConnectionLost in s.posts)
    && s.nextId == 0 && s.replies == [] && s.accepted == [] && s.fates == []
    && s.ran == [] && s.met == [] && s.results == []
    && s.started == [] && s.autoSuspends == 0
  }
}
