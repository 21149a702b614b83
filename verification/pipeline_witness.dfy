/** Concrete runs: what does go wrong, and how little it takes. */
module PipelineWitness {
  import opened Wire
  import opened Supervisor
  import opened Timers
  import opened Pipeline
  import opened PipelineRuns
  import opened PipelineAttempts
  import opened PipelineRecovery
  import opened PipelineRecoveryRuns
  import PL = Lifecycle
  import AR = Reconnect

  /** Every timer can be armed. */
  const ORACLE := Oracle((k: nat) => true, (k: nat) => true)

  /** The daemon's own schedule, and its delay after a lost connection. */
  const IDLE := AR.Fresh([5_000, 10_000, 20_000], 1_500)
  const WAITING := IDLE.(state := AR.WaitingForRetry, nextAttempt := 1)
  const FIRST_TRY := IDLE.(state := AR.Attempting, nextAttempt := 1)

  /** A daemon just started, its adapter open. */
  const START: Pipe :=
    Pipe(Core(PL.AT_REST, Recovery(IDLE, Off, 0, 0, 0), Off, 0, false, false, true, [], false, []),
         [], false, false, true, false, Resting, [ArmStandby],
         0, [], [], [], [], [], [], [], 0)

  lemma StartIsInitial()
    ensures Initial(START)
  {
    assert START.posts == [] + [ArmStandby];
  }

  lemma Then(s0: Pipe, steps: seq<Step>, step: Step, s: Pipe, t: Pipe)
    requires s0.core.rc.m.Valid() && After(ORACLE, s0, steps) == s && s.core.rc.m.Valid() && Take(ORACLE, s, step) == t
    ensures After(ORACLE, s0, steps + [step]) == t
  {
    hide After, Take, AR.Machine.Valid;
    AfterOne(ORACLE, s0, steps, step);
  }

  lemma AfterOne(oracle: Oracle, s0: Pipe, steps: seq<Step>, step: Step)
    requires s0.core.rc.m.Valid()
    ensures After(oracle, s0, steps + [step]) == Take(oracle, After(oracle, s0, steps), step)
  {
    hide Take, AR.Machine.Valid;
    var more := steps + [step];
    assert more[..|more| - 1] == steps && more[|more| - 1] == step;
  }

  // ---------------------------------------------------------------------
  // The adapter is lost and the first attempt begins
  // ---------------------------------------------------------------------

  const LOST := [Alert] + [DrainOne] + [DrainOne] + [RetryExpires] + [RetryTimer]

  function Armed1(): Pipe {
    START.(core := START.core.(connected := false), standbyArmed := true, posts := [ConnectionLost])
  }

  /** The loss has been handled; the first attempt is delayed. */
  function Waiting1(): Pipe {
    Armed1().(core := Armed1().core.(rc := Recovery(WAITING, Armed, 1, 0, 0)), posts := [])
  }

  /** Awake, in the first attempt, which waits for the worker. */
  function Trying(): Pipe {
    Waiting1().(core := Waiting1().core.(rc := Recovery(FIRST_TRY, Off, 1, 1, 0), jobs := [ReconnectJob(1)]))
  }

  lemma LosesAdapter()
    ensures START.core.rc.m.Valid() && After(ORACLE, START, LOST) == Trying()
  {
    hide After;
    AlertAndArm();
    LossIsScheduled();
    Then(START, [Alert] + [DrainOne], DrainOne, Armed1(), Waiting1());
    TimerFires([Alert] + [DrainOne] + [DrainOne], Waiting1(), 1, 0);
    assert [] + [ReconnectJob(1)] == [ReconnectJob(1)];
  }

  lemma AlertAndArm()
    ensures START.core.rc.m.Valid() && After(ORACLE, START, [Alert] + [DrainOne]) == Armed1()
  {
    hide Signal;
    var s1 := START.(core := START.core.(connected := false), posts := [ArmStandby, ConnectionLost]);
    assert Take(ORACLE, START, Alert) == s1;
    Then(START, [], Alert, START, s1);
    assert s1.posts[1..] == [ConnectionLost];
    assert Take(ORACLE, s1, DrainOne) == Armed1();
    assert [] + [Alert] == [Alert];
    Then(START, [Alert], DrainOne, s1, Armed1());
  }

  lemma LossIsScheduled()
    ensures Take(ORACLE, Armed1(), DrainOne) == Waiting1()
  {
    var s := Armed1();
    assert s.posts[1..] == [];
    assert Signal(ORACLE, s.core.rc, s.core.Gate(), AR.ConnectionLost) == (Recovery(WAITING, Armed, 1, 0, 0), []);
    assert s.core.jobs + [] == [];
  }

  /** The retry timer expires and its handler starts the cycle's first attempt. */
  lemma TimerFires(steps: seq<Step>, s: Pipe, arms: nat, attempts: nat)
    requires START.core.rc.m.Valid() && After(ORACLE, START, steps) == s
    requires s.core.rc == Recovery(WAITING, Armed, arms, attempts, 0)
    requires !s.core.down && !s.core.suspended && !s.core.connected
    ensures
      After(ORACLE, START, steps + [RetryExpires] + [RetryTimer])
      == s.(core := s.core.(rc := Recovery(FIRST_TRY, Off, arms, attempts + 1, 0),
                            jobs := s.core.jobs + [ReconnectJob(attempts + 1)]))
  {
    hide After;
    var t := s.(core := s.core.(rc := Recovery(WAITING, Expired, arms, attempts, 0)));
    assert Take(ORACLE, s, RetryExpires) == t;
    Then(START, steps, RetryExpires, s, t);
    var c := t.core.(rc := Recovery(WAITING, Off, arms, attempts, 0));
    var started := Recovery(FIRST_TRY, Off, arms, attempts + 1, 0);
    assert SubmitReconnectAttempt(ORACLE, started, Open) == (started, [ReconnectJob(attempts + 1)]);
    assert Signal(ORACLE, c.rc, c.Gate(), AR.RetryTimerFired) == (started, [ReconnectJob(attempts + 1)]);
    Then(START, steps + [RetryExpires], RetryTimer, t, Take(ORACLE, t, RetryTimer));
  }

  /** The worker runs the attempt at the head of its queue. */
  lemma WorkerAttempts(s: Pipe, attempt: nat, ok: bool) returns (r: Pipe)
    requires s.core.rc.m.Valid() && s.stage == Resting && s.core.jobs != [] && s.core.jobs[0] == ReconnectJob(attempt)
    ensures r == s.(core := s.core.(jobs := s.core.jobs[1..], connected := ok), stage := Ran(ReconnectJob(attempt), ok),
                    ran := s.ran + [ReconnectJob(attempt)], met := s.met + [false])
    ensures Take(ORACLE, Take(ORACLE, Take(ORACLE, s, Dequeue), Reopening), Perform(ok)) == r
  {
    hide Take;
    var d := s.(core := s.core.(jobs := s.core.jobs[1..]), stage := Fetched(ReconnectJob(attempt), false));
    assert Take(ORACLE, s, Dequeue) == d by { FetchesAttempt(s, attempt); }
    var o := d.(stage := Fetched(ReconnectJob(attempt), true), core := d.core.(connected := false));
    assert Take(ORACLE, d, Reopening) == o by { ClosesFirst(d, attempt); }
    RunsAttempt(o, attempt, ok);
    r := Take(ORACLE, o, Perform(ok));
  }

  lemma FetchesAttempt(s: Pipe, attempt: nat)
    requires s.core.rc.m.Valid() && s.stage == Resting && s.core.jobs != [] && s.core.jobs[0] == ReconnectJob(attempt)
    ensures Take(ORACLE, s, Dequeue)
         == s.(core := s.core.(jobs := s.core.jobs[1..]), stage := Fetched(ReconnectJob(attempt), false))
  {
  }

  lemma ClosesFirst(s: Pipe, attempt: nat)
    requires s.core.rc.m.Valid() && s.stage == Fetched(ReconnectJob(attempt), false)
    ensures Take(ORACLE, s, Reopening)
         == s.(stage := Fetched(ReconnectJob(attempt), true), core := s.core.(connected := false))
  {
  }

  lemma RunsAttempt(s: Pipe, attempt: nat, ok: bool)
    requires s.core.rc.m.Valid() && s.stage == Fetched(ReconnectJob(attempt), true)
    ensures Take(ORACLE, s, Perform(ok))
         == s.(core := s.core.(connected := ok), stage := Ran(ReconnectJob(attempt), ok),
               ran := s.ran + [ReconnectJob(attempt)], met := s.met + [s.core.connected])
  {
  }

  // ---------------------------------------------------------------------
  // A loss reported too early
  // ---------------------------------------------------------------------

  const MISSED := LOST + [Dequeue] + [Reopening] + [Perform(true)] + [Alert] + [DrainOne] + [Finish] + [DrainOne]

  /** The attempt has reopened the adapter, its result is not out yet, and the adapter is lost again. */
  function Reopened1(): Pipe {
    Trying().(core := Trying().core.(jobs := [], connected := true), stage := Ran(ReconnectJob(1), true),
              ran := [ReconnectJob(1)], met := [false])
  }

  function LostAgain(): Pipe {
    Reopened1().(core := Reopened1().core.(connected := false), posts := [ConnectionLost])
  }

  /** The loss is absorbed: an attempt is under way. */
  function Absorbed(): Pipe {
    LostAgain().(posts := [])
  }

  function Told(): Pipe {
    Absorbed().(stage := Resting, posts := [ReconnectDone(1, true)], results := [true])
  }

  /** The attempt's success ends the cycle. */
  function Stranded(): Pipe {
    Told().(core := Told().core.(rc := Recovery(IDLE, Off, 1, 1, 0)), posts := [])
  }

  lemma LossIsPosted()
    ensures Take(ORACLE, Reopened1(), Alert) == LostAgain()
  {
    hide AR.Machine.Valid;
    assert [] + [ConnectionLost] == [ConnectionLost];
  }

  lemma LossIsAbsorbed()
    ensures Take(ORACLE, LostAgain(), DrainOne) == Absorbed()
  {
    hide Signal;
    var s := LostAgain();
    assert s.posts[1..] == [];
    AbsorbedSignal(ORACLE, s.core.rc, s.core.Gate(), AR.ConnectionLost);
    assert s.core.jobs + [] == s.core.jobs;
  }

  lemma SuccessEndsCycle()
    ensures Take(ORACLE, Absorbed(), Finish) == Told()
    ensures Take(ORACLE, Told(), DrainOne) == Stranded()
  {
    var s := Told();
    assert s.posts[1..] == [];
    assert Signal(ORACLE, s.core.rc, s.core.Gate(), AR.AttemptSucceeded) == (Recovery(IDLE, Off, 1, 1, 0), []);
    assert s.core.jobs + [] == s.core.jobs;
  }

  /**
   * A loss reported after an attempt has reopened the adapter and before its
   * result is handled is absorbed, and the result then ends the cycle: the
   * daemon is left awake and quiet with the adapter closed, recovery at rest
   * and no timer armed, though no cycle was given up. The in-flight attempt
   * does not address that loss.
   */
  lemma EarlyLossIsMissed()
    ensures Initial(START) && START.core.rc.m.Valid()
    ensures
      var s := After(ORACLE, START, MISSED);
      && Quiet(s) && !s.core.suspended && !s.core.connected
      && s.core.rc.m.state.Idle? && s.core.rc.retry == Off && s.core.rc.abandoned == 0
    ensures Misses(After(ORACLE, START, LOST + [Dequeue] + [Reopening] + [Perform(true)]), Alert)
  {
    hide Take, Initial, Misses;
    StartIsInitial();
    LosesAdapter();
    var ran := WorkerAttempts(Trying(), 1, true);
    assert ran == Reopened1();
    var d := Take(ORACLE, Trying(), Dequeue);
    Then(START, LOST, Dequeue, Trying(), d);
    Then(START, LOST + [Dequeue], Reopening, d, Take(ORACLE, d, Reopening));
    var worked := LOST + [Dequeue] + [Reopening] + [Perform(true)];
    Then(START, LOST + [Dequeue] + [Reopening], Perform(true), Take(ORACLE, d, Reopening), Reopened1());
    LossIsPosted();
    LossIsAbsorbed();
    Then(START, worked, Alert, Reopened1(), LostAgain());
    Then(START, worked + [Alert], DrainOne, LostAgain(), Absorbed());
    SuccessEndsCycle();
    Then(START, worked + [Alert] + [DrainOne], Finish, Absorbed(), Told());
    Then(START, worked + [Alert] + [DrainOne] + [Finish], DrainOne, Told(), Stranded());
    ReopenedMisses();
  }

  lemma ReopenedMisses()
    ensures Misses(Reopened1(), Alert)
  {
  }

  // ---------------------------------------------------------------------
  // A restart command that fails
  // ---------------------------------------------------------------------

  const RESTART := Message(CMD_RESTART_ADAPTER, 0, [])
  const RESTART_JOB := LiveJob(Request(0, RESTART))

  const RESTARTED := [DrainOne] + [WireCommand(RESTART)] + [Dequeue] + [Reopening]
                                + [Perform(false)] + [Finish] + [DrainOne]

  function Asked(): Pipe {
    START.(core := START.core.(jobs := [RESTART_JOB]), standbyArmed := true, posts := [], nextId := 1)
  }

  function Restarting1(): Pipe {
    Asked().(core := START.core.(connected := false), stage := Fetched(RESTART_JOB, true))
  }

  /** The client has been told that the restart failed; nobody else has. */
  function Refused(): Pipe {
    Asked().(core := START.core.(connected := false), replies := [Reply(0, Error)],
             ran := [RESTART_JOB], met := [false], results := [false])
  }

  lemma RestartSubmitted()
    ensures START.core.rc.m.Valid() && After(ORACLE, START, [DrainOne] + [WireCommand(RESTART)]) == Asked()
  {
    hide DispatchOf, AR.Machine.Valid;
    TableClassifies(CMD_RESTART_ADAPTER);
    var s1 := START.(standbyArmed := true, posts := []);
    assert START.posts[1..] == [];
    assert Take(ORACLE, START, DrainOne) == s1;
    Then(START, [], DrainOne, START, s1);
    assert [] + [DrainOne] == [DrainOne];
    assert [] + [RESTART_JOB] == [RESTART_JOB];
    Then(START, [DrainOne], WireCommand(RESTART), s1, Asked());
  }

  lemma RestartCloses()
    ensures Take(ORACLE, Take(ORACLE, Asked(), Dequeue), Reopening) == Restarting1()
  {
    hide AR.Machine.Valid;
    assert Asked().core.jobs[1..] == [];
  }

  lemma RestartFails()
    ensures Restarting1().core.rc.m.Valid()
    ensures Take(ORACLE, Take(ORACLE, Take(ORACLE, Restarting1(), Perform(false)), Finish), DrainOne) == Refused()
  {
    hide DispatchOf, AR.Machine.Valid;
    JobLeaves(false, RESTART_JOB, false);
    var s1 := Restarting1().(stage := Ran(RESTART_JOB, false), ran := [RESTART_JOB], met := [false]);
    assert Take(ORACLE, Restarting1(), Perform(false)) == s1;
    var s2 := s1.(stage := Resting, posts := [Answer(Request(0, RESTART), Error)], results := [false]);
    assert Take(ORACLE, s1, Finish) == s2;
    assert s2.posts[1..] == [];
  }

  /**
   * A restart command that fails with nothing else under way: seven steps
   * from the start the daemon is awake and quiet with the adapter closed,
   * recovery at rest and no timer armed, though no cycle was given up.
   */
  lemma FailedRestartIsMissed()
    ensures Initial(START) && START.core.rc.m.Valid()
    ensures
      var s := After(ORACLE, START, RESTARTED);
      && Quiet(s) && !s.core.suspended && !s.core.connected
      && s.core.rc.m.state.Idle? && s.core.rc.retry == Off && s.core.rc.abandoned == 0
    ensures Misses(After(ORACLE, START, [DrainOne] + [WireCommand(RESTART)] + [Dequeue] + [Reopening]), Perform(false))
  {
    hide Take, After, Initial, Misses;
    StartIsInitial();
    RestartSubmitted();
    RestartCloses();
    RestartFails();
    var begun := [DrainOne] + [WireCommand(RESTART)];
    Then(START, begun, Dequeue, Asked(), Take(ORACLE, Asked(), Dequeue));
    Then(START, begun + [Dequeue], Reopening, Take(ORACLE, Asked(), Dequeue), Restarting1());
    var s1 := Take(ORACLE, Restarting1(), Perform(false));
    Then(START, begun + [Dequeue] + [Reopening], Perform(false), Restarting1(), s1);
    var s2 := Take(ORACLE, s1, Finish);
    Then(START, begun + [Dequeue] + [Reopening] + [Perform(false)], Finish, s1, s2);
    Then(START, begun + [Dequeue] + [Reopening] + [Perform(false)] + [Finish], DrainOne, s2, Refused());
    RestartMisses();
  }

  lemma RestartMisses()
    ensures Misses(Restarting1(), Perform(false))
  {
  }

  // ---------------------------------------------------------------------
  // An attempt cut short
  // ---------------------------------------------------------------------

  const CMD_RESUME_MSG := Message(CMD_RESUME, 0, [])

  const CUT := LOST + [WireCommand(CMD_RESUME_MSG)] + [RetryExpires] + [RetryTimer]

  /** The resume has made recovery forget the attempt and seeded a new cycle. */
  function Seeded1(): Pipe {
    Trying().(core := Trying().core.(pl := PL.Machine(PL.Idle, PL.Wire, false, []),
                                     rc := Recovery(WAITING, Armed, 2, 1, 0)),
              nextId := 1, replies := [Reply(0, Success)], started := [PL.Entry(PL.Resume, PL.Wire)])
  }

  function TryingTwice(): Pipe {
    Seeded1().(core := Seeded1().core.(rc := Recovery(FIRST_TRY, Off, 2, 2, 0),
                                       jobs := [ReconnectJob(1), ReconnectJob(2)]))
  }

  /** The resume starts, forgets the attempt and, finding nothing to resume, completes at once. */
  lemma ResumeForgets(q: Core, d: Core)
    requires q == Trying().core.(pl := PL.Machine(PL.Idle, PL.DBus, false, [PL.Entry(PL.Resume, PL.Wire)]))
    requires d == Trying().core.(pl := PL.Machine(PL.Idle, PL.Wire, false, []), rc := Recovery(IDLE, Off, 1, 1, 0))
    ensures Pump(ORACLE, q) == (var (rc, js) := Seed(ORACLE, d.rc, d.Gate()); d.(rc := rc, jobs := d.jobs + js))
  {
    var (m, out) := PL.Pumped(q.pl);
    assert m == PL.Machine(PL.Resuming, PL.Wire, false, []);
    var p := Prepare(ORACLE, q.(pl := m), out);
    assert p == d.(pl := m) by {
      assert q.jobs + [] == q.jobs;
    }
    assert Pump(ORACLE, q) == SubmitResumeWork(ORACLE, p) == OnResumeCompleted(ORACLE, p, false);
    CompletesAtOnce(p, d);
  }

  lemma CompletesAtOnce(p: Core, d: Core)
    requires d.pl == PL.Machine(PL.Idle, PL.Wire, false, []) && d.rc.m.Valid()
    requires p == d.(pl := PL.Machine(PL.Resuming, PL.Wire, false, []))
    ensures OnResumeCompleted(ORACLE, p, false)
         == (var (rc, js) := Seed(ORACLE, d.rc, d.Gate()); d.(rc := rc, jobs := d.jobs + js))
  {
    hide Seed, Pump;
    var (m1, out1) := PL.ResumeCompleted(p.pl);
    ApplyIsPump(ORACLE, d, out1);
    EmptyPump(ORACLE, d);
    assert p.(pl := m1) == d && Prepare(ORACLE, d, out1) == d;
  }

  lemma ResumeSeeds(c: Core)
    requires c == Trying().core
    ensures Requested(ORACLE, c, PL.Entry(PL.Resume, PL.Wire)) == Seeded1().core
  {
    hide Pump, Seed;
    var e := PL.Entry(PL.Resume, PL.Wire);
    var q := c.(pl := PL.Requested(c.pl, e));
    assert q.pl.pending == [] + [e] == [e];
    ApplyIsPump(ORACLE, q, PL.INERT);
    assert Prepare(ORACLE, q, PL.INERT) == q;
    var d := c.(pl := PL.Machine(PL.Idle, PL.Wire, false, []), rc := Recovery(IDLE, Off, 1, 1, 0));
    ResumeForgets(q, d);
    SeedArms(d);
    assert d.jobs + [] == d.jobs;
  }

  lemma SeedArms(d: Core)
    requires d.rc == Recovery(IDLE, Off, 1, 1, 0)
    ensures Seed(ORACLE, d.rc, d.Gate()) == (Recovery(WAITING, Armed, 2, 1, 0), [])
  {
    var (m, out) := AR.Seeded(IDLE, POST_RESUME_RETRY_DELAY_MS);
    assert Execute(ORACLE, d.rc.(m := m), d.Gate(), out) == (Recovery(WAITING, Armed, 2, 1, 0), []);
  }

  lemma ResumeCuts()
    ensures Take(ORACLE, Trying(), WireCommand(CMD_RESUME_MSG)) == Seeded1()
  {
    hide Requested, DispatchOf;
    TableClassifies(CMD_RESUME);
    ResumeSeeds(Trying().core);
    var e := PL.Entry(PL.Resume, PL.Wire);
    assert PL.Requested(Trying().core.pl, e).pending == [e];
    assert [e][..1] == [e];
    assert Begun([e], []) == [e];
  }

  lemma TriesTwice()
    ensures START.core.rc.m.Valid() && After(ORACLE, START, CUT) == TryingTwice()
  {
    hide Take;
    LosesAdapter();
    ResumeCuts();
    Then(START, LOST, WireCommand(CMD_RESUME_MSG), Trying(), Seeded1());
    TimerFires(LOST + [WireCommand(CMD_RESUME_MSG)], Seeded1(), 2, 1);
    assert [ReconnectJob(1)] + [ReconnectJob(2)] == [ReconnectJob(1), ReconnectJob(2)];
  }

  /**
   * Two attempts outstanding, eight steps from the start: the adapter is lost,
   * a client asks for a resume while the first attempt waits for the worker,
   * and the seeded retry starts a second one.
   */
  lemma ResumeDuringAttemptDoublesIt()
    ensures Initial(START) && START.core.rc.m.Valid()
    ensures After(ORACLE, START, CUT).core.jobs == [ReconnectJob(1), ReconnectJob(2)]
    ensures Cuts(After(ORACLE, START, LOST), WireCommand(CMD_RESUME_MSG))
  {
    hide Initial, Take;
    StartIsInitial();
    LosesAdapter();
    TriesTwice();
  }

  // ---------------------------------------------------------------------
  // What the second attempt can do
  // ---------------------------------------------------------------------

  const ORPHANED := CUT + [Dequeue] + [Reopening] + [Perform(true)] + [Finish] + [DrainOne]
                        + [Dequeue] + [Reopening] + [Perform(false)] + [Finish] + [DrainOne]

  /** The first attempt's success has been taken for the second's. */
  function Mistaken(): Pipe {
    TryingTwice().(core := TryingTwice().core.(rc := Recovery(IDLE, Off, 2, 2, 0),
                                               jobs := [ReconnectJob(2)], connected := true),
                   ran := [ReconnectJob(1)], met := [false], results := [true])
  }

  function Failed(): Pipe {
    Mistaken().(core := Mistaken().core.(jobs := [], connected := false),
                ran := [ReconnectJob(1), ReconnectJob(2)], met := [false, false], results := [true, false])
  }

  /** The worker's result comes back and is handled. */
  lemma ResultHandled(s: Pipe, attempt: nat, ok: bool, rc: Recovery)
    requires s.core.rc.m.Valid() && s.stage == Ran(ReconnectJob(attempt), ok) && s.posts == []
    requires Signal(ORACLE, s.core.rc, s.core.Gate(), if ok then AR.AttemptSucceeded else AR.AttemptFailed) == (rc, [])
    ensures
      Take(ORACLE, Take(ORACLE, s, Finish), DrainOne)
      == s.(stage := Resting, results := s.results + [ok], core := s.core.(rc := rc))
  {
    hide Signal;
    var f := s.(stage := Resting, posts := [ReconnectDone(attempt, ok)], results := s.results + [ok]);
    assert Take(ORACLE, s, Finish) == f;
    assert f.posts[1..] == [];
    assert s.core.jobs + [] == s.core.jobs;
  }

  lemma FirstResultMistaken(s: Pipe)
    requires s == Mistaken().(core := Mistaken().core.(rc := TryingTwice().core.rc),
                              stage := Ran(ReconnectJob(1), true), results := [])
    ensures s.core.rc.m.Valid() && Take(ORACLE, Take(ORACLE, s, Finish), DrainOne) == Mistaken()
  {
    hide Take;
    assert Signal(ORACLE, s.core.rc, s.core.Gate(), AR.AttemptSucceeded) == (Recovery(IDLE, Off, 2, 2, 0), []);
    ResultHandled(s, 1, true, Recovery(IDLE, Off, 2, 2, 0));
  }

  lemma SecondResultAbsorbed(s: Pipe)
    requires s == Failed().(stage := Ran(ReconnectJob(2), false), results := [true])
    ensures s.core.rc.m.Valid() && Take(ORACLE, Take(ORACLE, s, Finish), DrainOne) == Failed()
  {
    hide Take;
    AbsorbedSignal(ORACLE, s.core.rc, s.core.Gate(), AR.AttemptFailed);
    ResultHandled(s, 2, false, s.core.rc);
  }

  lemma WorkerRuns(steps: seq<Step>, s: Pipe, attempt: nat, ok: bool) returns (r: Pipe)
    requires START.core.rc.m.Valid() && After(ORACLE, START, steps) == s
    requires s.core.rc.m.Valid() && s.stage == Resting && s.core.jobs != [] && s.core.jobs[0] == ReconnectJob(attempt)
    ensures r == s.(core := s.core.(jobs := s.core.jobs[1..], connected := ok), stage := Ran(ReconnectJob(attempt), ok),
                    ran := s.ran + [ReconnectJob(attempt)], met := s.met + [false])
    ensures After(ORACLE, START, steps + [Dequeue] + [Reopening] + [Perform(ok)]) == r
  {
    hide Take;
    r := WorkerAttempts(s, attempt, ok);
    var d := Take(ORACLE, s, Dequeue);
    Then(START, steps, Dequeue, s, d);
    Then(START, steps + [Dequeue], Reopening, d, Take(ORACLE, d, Reopening));
    Then(START, steps + [Dequeue] + [Reopening], Perform(ok), Take(ORACLE, d, Reopening), r);
  }

  lemma ResultTaken(steps: seq<Step>, s: Pipe, r: Pipe)
    requires START.core.rc.m.Valid() && After(ORACLE, START, steps) == s
    requires Take(ORACLE, Take(ORACLE, s, Finish), DrainOne) == r
    ensures After(ORACLE, START, steps + [Finish] + [DrainOne]) == r
  {
    hide Take;
    Then(START, steps, Finish, s, Take(ORACLE, s, Finish));
    Then(START, steps + [Finish], DrainOne, Take(ORACLE, s, Finish), r);
  }

  const HALFWAY := CUT + [Dequeue] + [Reopening] + [Perform(true)] + [Finish] + [DrainOne]

  lemma FirstAttemptEnds()
    ensures START.core.rc.m.Valid() && After(ORACLE, START, HALFWAY) == Mistaken()
  {
    hide Take, After;
    TriesTwice();
    var a := WorkerRuns(CUT, TryingTwice(), 1, true);
    assert a.core.jobs == [ReconnectJob(2)] && a.ran == [ReconnectJob(1)] && a.met == [false];
    FirstResultMistaken(a);
    ResultTaken(CUT + [Dequeue] + [Reopening] + [Perform(true)], a, Mistaken());
  }

  lemma SecondAttemptEnds()
    ensures START.core.rc.m.Valid() && After(ORACLE, START, ORPHANED) == Failed()
  {
    hide Take, After;
    FirstAttemptEnds();
    var b := WorkerRuns(HALFWAY, Mistaken(), 2, false);
    assert b.core.jobs == [] && b.ran == [ReconnectJob(1), ReconnectJob(2)] && b.met == [false, false];
    SecondResultAbsorbed(b);
    ResultTaken(HALFWAY + [Dequeue] + [Reopening] + [Perform(false)], b, Failed());
    assert HALFWAY + [Dequeue] + [Reopening] + [Perform(false)] + [Finish] + [DrainOne] == ORPHANED;
  }

  /**
   * Why a cut attempt voids recovery until it is drained: the first attempt's
   * success is taken for the second's, the second then closes the adapter
   * again and fails, and nobody is waiting for it. The daemon is left awake
   * and quiet with the adapter closed and recovery at rest.
   */
  lemma CutAttemptStrands()
    ensures START.core.rc.m.Valid()
    ensures
      var s := After(ORACLE, START, ORPHANED);
      && Quiet(s) && !s.core.suspended && !s.core.connected
      && s.core.rc.m.state.Idle? && s.core.rc.retry == Off && s.core.rc.abandoned == 0
  {
    hide After;
    SecondAttemptEnds();
  }
}
