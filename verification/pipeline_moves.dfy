/** How one step of the pipeline moves work between its two queues. */
module PipelineMoves {
  import opened Seqs
  import opened Supervisor
  import opened Timers
  import opened Pipeline
  import PL = Lifecycle

  /** The job whose result a post carries. */
  function JobOf(p: Post): seq<Job> {
    match p
    case SuspendDone => [SuspendJob]
    case ResumeDone(_) => [ResumeJob]
    case ReconnectDone(a, _) => [ReconnectJob(a)]
    case Answer(req, _) => [LiveJob(req)]
    case _ => []
  }

  function Staged(st: Stage): seq<Job> {
    match st
    case Resting => []
    case Fetched(job, _) => [job]
    case Reopened => [ResumeJob]
    case Ran(job, _) => [job]
  }

  /** Work that has left the main thread and has not come back: results posted, the job in hand, jobs waiting. */
  function Flight(s: Pipe): seq<Job> {
    FlatMap(JobOf, s.posts) + Staged(s.stage) + s.core.jobs
  }

  /** Every job ever submitted, in order. */
  function Log(s: Pipe): seq<Job> {
    s.ran + (if s.stage.Fetched? then [s.stage.job] else []) + s.core.jobs
  }

  predicate IsPower(j: Job) { j.SuspendJob? || j.ResumeJob? }

  /** Jobs that post nothing when they finish. */
  predicate IsSilent(j: Job) { j.ReplayJob? || j.ScanJob? }

  /** The main thread takes back `took` and hands over `gave`. */
  ghost predicate Exchanged(s: Pipe, r: Pipe, took: seq<Job>, gave: seq<Job>) {
    && took <= Flight(s)
    && Flight(r) == Flight(s)[|took|..] + gave
    && Log(r) == Log(s) + gave
    && r.core.jobs == s.core.jobs + gave
    && r.stage == s.stage && r.ran == s.ran
  }

  /** A step outside the main thread: nothing is submitted, and at most a silent job disappears. */
  ghost predicate Progressed(s: Pipe, r: Pipe) {
    && Log(r) == Log(s)
    && (Flight(r) == Flight(s) || exists k :: SilentAt(Flight(s), Flight(r), k))
  }

  /** `g` is `f` without the silent job at `k`. */
  ghost predicate SilentAt(f: seq<Job>, g: seq<Job>, k: nat) {
    k < |f| && IsSilent(f[k]) && g == f[..k] + f[k + 1..]
  }

  lemma ExchangedBy(s: Pipe, r: Pipe, gave: seq<Job>)
    requires r.core.jobs == s.core.jobs + gave && r.stage == s.stage && r.ran == s.ran
    requires FlatMap(JobOf, r.posts) == FlatMap(JobOf, s.posts)
    ensures Exchanged(s, r, [], gave)
  {
  }

  /** Popping the head post takes back the job it reports. */
  lemma PopTakes(s: Pipe)
    requires s.posts != []
    ensures Exchanged(s, s.(posts := s.posts[1..]), JobOf(s.posts[0]), [])
  {
    assert s.posts == [s.posts[0]] + s.posts[1..];
    FlatMapConcat(JobOf, [s.posts[0]], s.posts[1..]);
    FlatMapOne(JobOf, [], s.posts[0]);
  }

  lemma ThenGive(s: Pipe, t: Pipe, r: Pipe, took: seq<Job>, gave: seq<Job>)
    requires Exchanged(s, t, took, []) && Exchanged(t, r, [], gave)
    ensures Exchanged(s, r, took, gave)
  {
  }

  lemma FinishProgresses(s: Pipe)
    requires s.stage.Ran?
    ensures Progressed(s, FinishJob(s))
  {
    hide FlatMap;
    var r := FinishJob(s);
    var done := FlatMap(JobOf, s.posts);
    var job := s.stage.job;
    var posted := Completion(job, s.stage.ok);
    FlatMapConcat(JobOf, s.posts, posted);
    if IsSilent(job) {
      assert s.posts + posted == s.posts;
      assert SilentAt(done + [job] + s.core.jobs, done + [] + s.core.jobs, |done|);
    } else {
      FlatMapOne(JobOf, [], posted[0]);
      assert posted == [posted[0]];
    }
  }

  lemma PostProgresses(s: Pipe, p: Post)
    requires JobOf(p) == []
    ensures Flight(s.(posts := s.posts + [p])) == Flight(s)
  {
    FlatMapOne(JobOf, s.posts, p);
  }

  lemma PerformProgresses(s: Pipe, ok: bool)
    requires s.stage.Fetched?
    ensures Progressed(s, RunJob(s, ok))
  {
    hide AdapterCalls;
    var r := RunJob(s, ok);
    assert Staged(r.stage) == Staged(s.stage);
    assert Log(r) == s.ran + [s.stage.job] + [] + s.core.jobs == Log(s);
  }

  lemma ReopeningProgresses(s: Pipe, r: Pipe)
    requires s.stage.Fetched? && r.stage == s.stage.(closing := true)
    requires r.posts == s.posts && r.ran == s.ran && r.core.jobs == s.core.jobs
    ensures Progressed(s, r)
  {
  }

  /** The worker takes the next job, or reads the connection flag. */
  lemma WorkerProgresses(s: Pipe, r: Pipe)
    requires r.posts == s.posts && r.ran == s.ran
    requires
      || (s.stage == Resting && s.core.jobs != []
          && r.stage == Fetched(s.core.jobs[0], false) && r.core.jobs == s.core.jobs[1..])
      || (s.stage == Reopened && r.stage.Ran? && r.stage.job == ResumeJob && r.core.jobs == s.core.jobs)
    ensures Progressed(s, r)
  {
    hide FlatMap;
    if s.stage == Resting {
      assert [s.core.jobs[0]] + s.core.jobs[1..] == s.core.jobs;
      assert Flight(r) == FlatMap(JobOf, s.posts) + ([s.core.jobs[0]] + s.core.jobs[1..]);
      assert Log(r) == s.ran + ([s.core.jobs[0]] + s.core.jobs[1..]);
    }
  }

  // ---------------------------------------------------------------------
  // What the sequencer may hand over in one handler
  // ---------------------------------------------------------------------

  /** Suspended, and the resume that will end it has not been handed over. */
  predicate Asleep(c: Core) { c.suspended && c.pl.phase != PL.Resuming }

  /** The sequencer hands over nothing, one suspend while awake, or one resume while asleep. */
  ghost predicate PowerGives(c: Core, r: Core, gave: seq<Job>) {
    && r.jobs == c.jobs + gave && r.connected == c.connected
    && r.rc.attempts == c.rc.attempts
    && (r.rc.m.state.Attempting? ==> c.rc.m.state.Attempting? && gave == [])
    && (if gave == [SuspendJob] then !c.suspended && Asleep(r)
        else if gave == [ResumeJob] then Asleep(c) && r.suspended && !Asleep(r)
        else
          gave == [] && r.suspended == c.suspended && Asleep(r) == Asleep(c))
  }

  /** So it does when it leaves off the request it was carrying out. */
  ghost predicate PowerMove(c: Core, r: Core, gave: seq<Job>) {
    && Rested(r) && PowerGives(c, r, gave)
    && (gave == [SuspendJob] ==> r.pl.phase == PL.Suspending)
    && (gave == [ResumeJob] ==> r.pl.phase == PL.Resuming)
    && (gave == [] ==> r.pl.phase == PL.Idle)
  }

  lemma SettledMoves(c: Core, r: Core) returns (gave: seq<Job>)
    requires AtRest(c) && Settled(c, r)
    ensures PowerMove(c, r, gave)
  {
    var rest := c.pl.pending[Skipped(c.suspended, c.pl.pending)..];
    gave := if rest == [] then [] else [if rest[0].kind == PL.Suspend then SuspendJob else ResumeJob];
  }

  /** A request joins the queue behind the one being carried out, or the sequencer moves at once. */
  ghost predicate Sequenced(c: Core, r: Core, gave: seq<Job>) {
    if c.pl.phase == PL.Idle then PowerMove(c, r, gave)
    else gave == [] && r == c.(pl := c.pl.(pending := r.pl.pending))
  }

  lemma RequestMoves(oracle: Oracle, c: Core, e: PL.Entry) returns (gave: seq<Job>)
    requires Rested(c)
    ensures Sequenced(c, Requested(oracle, c, e), gave)
    ensures PowerGives(c, Requested(oracle, c, e), gave) && Rested(Requested(oracle, c, e))
  {
    RequestEffect(oracle, c, e);
    if c.pl.phase == PL.Idle {
      gave := SettledMoves(c.(pl := PL.Requested(c.pl, e)), Requested(oracle, c, e));
    } else {
      gave := [];
      assert c.jobs + [] == c.jobs;
    }
  }

  lemma SuspendCompletionMoves(oracle: Oracle, c: Core) returns (gave: seq<Job>)
    requires Rested(c) && c.pl.phase == PL.Suspending && c.suspended
    ensures PowerMove(c, OnSuspendCompleted(oracle, c), gave)
  {
    SuspendCompletedEffect(oracle, c);
    var (m, out) := PL.SuspendCompleted(c.pl);
    var q := c.(pl := m, safety := Off,
                locks := c.locks + if c.monitored && out.lock.Some? then [out.lock.value] else []);
    gave := SettledMoves(q, OnSuspendCompleted(oracle, c));
  }

  lemma ResumeCompletionMoves(oracle: Oracle, c: Core, valid: bool) returns (gave: seq<Job>)
    requires Rested(c) && c.pl.phase == PL.Resuming && !c.suspended
    ensures PowerMove(c, OnResumeCompleted(oracle, c, valid), gave)
  {
    ResumeCompletedEffect(oracle, c, valid);
    var (m, out) := PL.ResumeCompleted(c.pl);
    var q := c.(pl := m, locks := c.locks + if c.monitored && out.lock.Some? then [out.lock.value] else []);
    gave := SettledMoves(q, OnResumeCompleted(oracle, c, valid));
  }
}
