/**
 * The supervisor's executor: it carries out the outputs of the two decision
 * machines, and its effects call back into it, at once or through the worker.
 *
 * `oracle` says which attempts to arm a timer succeed; every theorem
 * quantifies over it.
 */
module Supervisor {
  import opened Seqs
  import opened Wire
  import opened Timers
  import PL = Lifecycle
  import AR = Reconnect

  /** A wire message and the number of its arrival. */
  datatype Request = Request(id: nat, msg: Message)

  datatype Job =
    | SuspendJob | ResumeJob
    | ReconnectJob(attempt: nat)
    | LiveJob(req: Request)    // dispatched while awake; answers its request
    | ReplayJob(req: Request)  // parked during suspend; already answered
    | ScanJob                  // device scan at startup

  /** `retry(k)` and `safety(k)`: whether the k-th arming of that timer succeeds. */
  datatype Oracle = Oracle(retry: nat -> bool, safety: nat -> bool)

  // ---------------------------------------------------------------------
  // Reconnecting
  // ---------------------------------------------------------------------

  /** The reconnect machine, its timer, and counts of arm calls, attempts and abandoned cycles. */
  datatype Recovery = Recovery(m: AR.Machine, retry: Timer, arms: nat, attempts: nat, abandoned: nat)

  /** What `reconnectAsync` finds: shut down or suspended, an open adapter, or work to do. */
  datatype Gate = Closed | Connected | Open

  /** What each effect may lead to at once ranks below it. */
  function Rank(e: AR.Effect): nat {
    match e
    case StartAttempt => 2
    case ScheduleRetry => 1
    case _ => 0
  }

  /** Carries out one output; returns the jobs handed to the worker. */
  function Execute(oracle: Oracle, c: Recovery, gate: Gate, out: AR.Output): (r: (Recovery, seq<Job>))
    requires c.m.Valid()
    requires out.effect.StartAttempt? ==> c.m.state.Attempting?
    requires out.effect.ScheduleRetry? ==> c.m.state.WaitingForRetry?
    ensures r.0.m.Valid() && r.0.m.delays == c.m.delays
    decreases Rank(out.effect), 0
  {
    match out.effect
    case NoEffect => (c, [])
    case StartAttempt =>
      SubmitReconnectAttempt(oracle, c.(retry := Off, attempts := c.attempts + 1), gate)
    case ScheduleRetry =>
      var c1 := c.(arms := c.arms + 1, retry := Rearmed(c.retry, out.delay, oracle.retry(c.arms)));
      if Arms(out.delay, oracle.retry(c.arms)) then (c1, [])
      else
        var (m, out1) := AR.Transition(c1.m, AR.TimerArmFailed);
        Execute(oracle, c1.(m := m), gate, out1)
    case CancelRetry => (c.(retry := Off), [])
    case AbandonCycle => (c.(abandoned := c.abandoned + 1), [])
  }

  function SubmitReconnectAttempt(oracle: Oracle, c: Recovery, gate: Gate): (r: (Recovery, seq<Job>))
    requires c.m.Valid() && c.m.state.Attempting?
    ensures r.0.m.Valid() && r.0.m.delays == c.m.delays
    decreases 1, 2
  {
    match gate
    case Closed => OnReconnectResult(oracle, c, gate, false)
    case Connected => OnReconnectResult(oracle, c, gate, true)
    case Open => (c, [ReconnectJob(c.attempts)])
  }

  function OnReconnectResult(oracle: Oracle, c: Recovery, gate: Gate, ok: bool): (r: (Recovery, seq<Job>))
    requires c.m.Valid()
    ensures r.0.m.Valid() && r.0.m.delays == c.m.delays
    decreases 1, 1
  {
    var (m, out) := AR.Transition(c.m, if ok then AR.AttemptSucceeded else AR.AttemptFailed);
    Execute(oracle, c.(m := m), gate, out)
  }

  /** Feeds one event to the reconnect machine and carries out its effect. */
  function Signal(oracle: Oracle, c: Recovery, gate: Gate, e: AR.Event): (r: (Recovery, seq<Job>))
    requires c.m.Valid()
    ensures r.0.m.Valid() && r.0.m.delays == c.m.delays
  {
    var (m, out) := AR.Transition(c.m, e);
    Execute(oracle, c.(m := m), gate, out)
  }

  const POST_RESUME_RETRY_DELAY_MS := 10_000

  function Seed(oracle: Oracle, c: Recovery, gate: Gate): (r: (Recovery, seq<Job>))
    requires c.m.Valid()
    ensures r.0.m.Valid() && r.0.m.delays == c.m.delays
  {
    var (m, out) := AR.Seeded(c.m, POST_RESUME_RETRY_DELAY_MS);
    Execute(oracle, c.(m := m), gate, out)
  }

  /** The retry timer is pending, armed or expired but unread, exactly while the machine waits for it. */
  predicate TimerAgrees(c: Recovery) {
    c.m.state.WaitingForRetry? <==> c.retry != Off
  }

  /** Waiting for a retry either gets its timer or, when that cannot be armed, gives the cycle up. */
  lemma ScheduleEffect(oracle: Oracle, c: Recovery, gate: Gate, out: AR.Output)
    requires c.m.Valid() && c.m.state.WaitingForRetry? && c.retry == Off && out.effect.ScheduleRetry?
    ensures
      var (c', js) := Execute(oracle, c, gate, out);
      && TimerAgrees(c') && js == [] && c'.attempts == c.attempts
      && (if Arms(out.delay, oracle.retry(c.arms)) then c'.m.state.WaitingForRetry? && c'.abandoned == c.abandoned
          else c'.m.state.Idle? && c'.abandoned == c.abandoned + 1)
  {
    var (m, out1) := AR.Transition(c.m, AR.TimerArmFailed);
    var c1 := c.(arms := c.arms + 1, retry := Rearmed(c.retry, out.delay, oracle.retry(c.arms)), m := m);
    assert Execute(oracle, c1, gate, out1) == (c1.(abandoned := c1.abandoned + 1), []);
  }

  /** A result that is not absorbed ends the attempt. */
  lemma ResultEffect(oracle: Oracle, c: Recovery, gate: Gate, ok: bool)
    requires c.m.Valid() && TimerAgrees(c)
    ensures
      var (c', js) := OnReconnectResult(oracle, c, gate, ok);
      && TimerAgrees(c') && js == [] && c'.attempts == c.attempts && !c'.m.state.Attempting?
      && c'.abandoned >= c.abandoned
  {
    var (m, out) := AR.Transition(c.m, if ok then AR.AttemptSucceeded else AR.AttemptFailed);
    if out.effect.ScheduleRetry? {
      ScheduleEffect(oracle, c.(m := m), gate, out);
    }
  }

  /**
   * One event in full, synchronous completions and arm failures included. The
   * timer keeps agreeing with the machine; a job is submitted exactly when an
   * attempt started and found the adapter closed but reachable, and then the
   * machine is left waiting for that attempt's result; otherwise the machine
   * is left attempting only if it was already and the event was absorbed.
   */
  lemma SignalEffect(oracle: Oracle, c: Recovery, gate: Gate, e: AR.Event)
    requires c.m.Valid() && TimerAgrees(c)
    requires e != AR.TimerArmFailed
    ensures
      var (c', js) := Signal(oracle, c, gate, e);
      && TimerAgrees(c')
      && c'.attempts == c.attempts + (if AR.Transition(c.m, e).1.effect.StartAttempt? then 1 else 0)
      && (js == if AR.Transition(c.m, e).1.effect.StartAttempt? && gate.Open? then [ReconnectJob(c'.attempts)] else [])
      && (c'.m.state.Attempting? <==>
            js != [] || (c.m.state.Attempting? && e in {AR.ConnectionLost, AR.RetryTimerFired}))
      && (e in {AR.SystemSuspend, AR.SystemResume} ==> c'.m.state.Idle? && c'.abandoned == c.abandoned)
      && c'.abandoned >= c.abandoned
  {
    var (m, out) := AR.Transition(c.m, e);
    match out.effect {
      case StartAttempt =>
        var started := c.(m := m, retry := Off, attempts := c.attempts + 1);
        assert Signal(oracle, c, gate, e) == SubmitReconnectAttempt(oracle, started, gate);
        ResultEffect(oracle, started, gate, gate.Connected?);
      case ScheduleRetry =>
        ScheduleEffect(oracle, c.(m := m), gate, out);
      case _ =>
    }
  }

  /** An event the machine does not react to has no effect at all. */
  lemma AbsorbedSignal(oracle: Oracle, c: Recovery, gate: Gate, e: AR.Event)
    requires c.m.Valid() && AR.Transition(c.m, e) == (c.m, AR.INERT)
    ensures Signal(oracle, c, gate, e) == (c, [])
  {
  }

  /**
   * An event leaves the machine at rest, without giving a cycle up, only when
   * it found it there, when an attempt has succeeded, or when the adapter
   * turned out to be connected.
   */
  lemma SignalRests(oracle: Oracle, c: Recovery, gate: Gate, e: AR.Event)
    requires c.m.Valid() && TimerAgrees(c)
    requires e in {AR.ConnectionLost, AR.RetryTimerFired, AR.AttemptSucceeded, AR.AttemptFailed}
    ensures
      var c' := Signal(oracle, c, gate, e).0;
      c'.m.state.Idle? && c'.abandoned == c.abandoned ==>
        || (c.m.state.Idle? && e != AR.ConnectionLost)
        || (c.m.state.Attempting? && e == AR.AttemptSucceeded)
        || (AR.Transition(c.m, e).1.effect.StartAttempt? && gate.Connected?)
  {
    var (m, out) := AR.Transition(c.m, e);
    match out.effect {
      case StartAttempt =>
        var started := c.(m := m, retry := Off, attempts := c.attempts + 1);
        assert Signal(oracle, c, gate, e) == SubmitReconnectAttempt(oracle, started, gate);
        FailureRests(oracle, started, gate);
      case ScheduleRetry =>
        ScheduleEffect(oracle, c.(m := m), gate, out);
      case _ =>
    }
  }

  /** A failed attempt leaves a cycle waiting, or one more abandoned. */
  lemma FailureRests(oracle: Oracle, c: Recovery, gate: Gate)
    requires c.m.Valid() && TimerAgrees(c) && c.m.state.Attempting?
    ensures
      var c' := OnReconnectResult(oracle, c, gate, false).0;
      c'.m.state.Idle? ==> c'.abandoned > c.abandoned
  {
    var (m, out) := AR.Transition(c.m, AR.AttemptFailed);
    if out.effect.ScheduleRetry? {
      ScheduleEffect(oracle, c.(m := m), gate, out);
    }
  }

  lemma SeedEffect(oracle: Oracle, c: Recovery, gate: Gate)
    requires c.m.Valid() && TimerAgrees(c)
    ensures
      var (c', js) := Seed(oracle, c, gate);
      && TimerAgrees(c') && js == [] && c'.attempts == c.attempts
      && (if !c.m.state.Idle? then c' == c
          else if oracle.retry(c.arms) then c'.m.state.WaitingForRetry? && c'.abandoned == c.abandoned
          else c'.m.state.Idle? && c'.abandoned == c.abandoned + 1)
  {
    var (m, out) := AR.Seeded(c.m, POST_RESUME_RETRY_DELAY_MS);
    if out.effect.ScheduleRetry? {
      ScheduleEffect(oracle, c.(m := m), gate, out);
    }
  }

  // ---------------------------------------------------------------------
  // Suspending and resuming: the re-entrant executor
  // ---------------------------------------------------------------------

  /** Everything the supervisor reads and writes. */
  datatype Core = Core(
    pl: PL.Machine, rc: Recovery,
    safety: Timer, safetyArms: nat,
    suspended: bool,       // the suspend queue's flag
    down: bool,            // the adapter lifecycle has been shut down
    connected: bool,       // the adapter's connection hint
    jobs: seq<Job>,        // jobs waiting for the worker
    monitored: bool,       // a D-Bus monitor is attached
    locks: seq<PL.Lock>)   // calls made to it
  {
    function Gate(): (g: Gate)
      ensures g.Open? <==> !down && !suspended && !connected
      ensures g.Connected? <==> !down && !suspended && connected
    {
      if down || suspended then Closed else if connected then Connected else Open
    }
  }

  /** Recursion stays well founded: no callee lengthens the pending queue. The schedule is never replaced. */
  ghost predicate Sound(c: Core, r: Core) {
    r.rc.m.Valid() && r.rc.m.delays == c.rc.m.delays && |r.pl.pending| <= |c.pl.pending|
  }

  function Notified(oracle: Oracle, c: Core, n: PL.Notify): (r: Core)
    requires c.rc.m.Valid()
    ensures r.rc.m.Valid() && r.rc.m.delays == c.rc.m.delays && r.pl == c.pl
  {
    if n.NoNotify? then c
    else
      var (rc, js) := Signal(oracle, c.rc, c.Gate(), if n.SystemSuspend? then AR.SystemSuspend else AR.SystemResume);
      c.(rc := rc, jobs := c.jobs + js)
  }

  function ArmSafety(oracle: Oracle, c: Core): Core {
    c.(safety := if oracle.safety(c.safetyArms) then Armed else c.safety, safetyArms := c.safetyArms + 1)
  }

  /** Every axis of an output but the adapter work, in the order they are carried out. */
  function Prepare(oracle: Oracle, c: Core, out: PL.Output): (r: Core)
    requires c.rc.m.Valid()
    ensures r.rc.m.Valid() && r.rc.m.delays == c.rc.m.delays && r.pl == c.pl
  {
    var c1 := if out.safetyTimer.Disarm? then c.(safety := Off) else c;
    var c2 := Notified(oracle, c1, out.reconnectNotify);
    var c3 := if out.safetyTimer.Arm? then ArmSafety(oracle, c2) else c2;
    if c3.monitored && out.lock.Some? then c3.(locks := c3.locks + [out.lock.value]) else c3
  }

  function ApplyLifecycle(oracle: Oracle, c: Core, out: PL.Output): (r: Core)
    requires c.rc.m.Valid()
    ensures Sound(c, r)
    decreases |c.pl.pending|, if out.work.NoWork? then 1 else 5
  {
    var c1 := ExecuteEffects(oracle, c, out);
    var (m, next) := PL.Pumped(c1.pl);
    ExecuteEffects(oracle, c1.(pl := m), next)
  }

  function ExecuteEffects(oracle: Oracle, c: Core, out: PL.Output): (r: Core)
    requires c.rc.m.Valid()
    ensures Sound(c, r)
    decreases |c.pl.pending|, if out.work.NoWork? then 0 else 4
  {
    var c1 := Prepare(oracle, c, out);
    match out.work
    case StartSuspend => SubmitSuspendWork(oracle, c1)
    case StartResume => SubmitResumeWork(oracle, c1)
    case NoWork => c1
  }

  /** `suspendAsync`: completes at once when shut down or already suspended. */
  function SubmitSuspendWork(oracle: Oracle, c: Core): (r: Core)
    requires c.rc.m.Valid()
    ensures Sound(c, r)
    decreases |c.pl.pending|, 3
  {
    if c.down || c.suspended then OnSuspendCompleted(oracle, c)
    else c.(suspended := true, jobs := c.jobs + [SuspendJob])
  }

  /** `resumeAsync`: completes at once, as failed, when shut down or not suspended. */
  function SubmitResumeWork(oracle: Oracle, c: Core): (r: Core)
    requires c.rc.m.Valid()
    ensures Sound(c, r)
    decreases |c.pl.pending|, 3
  {
    if c.down || !c.suspended then OnResumeCompleted(oracle, c, false)
    else c.(jobs := c.jobs + [ResumeJob])
  }

  function OnSuspendCompleted(oracle: Oracle, c: Core): (r: Core)
    requires c.rc.m.Valid()
    ensures Sound(c, r)
    decreases |c.pl.pending|, 2
  {
    var (m, out) := PL.SuspendCompleted(c.pl);
    ApplyLifecycle(oracle, c.(pl := m), out)
  }

  function OnResumeCompleted(oracle: Oracle, c: Core, adapterValid: bool): (r: Core)
    requires c.rc.m.Valid()
    ensures Sound(c, r)
    decreases |c.pl.pending|, 2
  {
    var (m, out) := PL.ResumeCompleted(c.pl);
    var c1 := ApplyLifecycle(oracle, c.(pl := m), out);
    if adapterValid then c1
    else
      var (rc, js) := Seed(oracle, c1.rc, c1.Gate());
      c1.(rc := rc, jobs := c1.jobs + js)
  }

  // ---------------------------------------------------------------------
  // The executor refines a scan of the pending queue
  // ---------------------------------------------------------------------

  /** A request for the state already in force completes without the worker. */
  predicate InForce(suspended: bool, e: PL.Entry) {
    e.kind == PL.Suspend <==> suspended
  }

  /** How many leading requests complete at once. */
  function Skipped(suspended: bool, es: seq<PL.Entry>): (k: nat)
    ensures k <= |es|
    ensures forall j :: 0 <= j < k ==> InForce(suspended, es[j])
    ensures k < |es| ==> !InForce(suspended, es[k])
  {
    if es == [] || !InForce(suspended, es[0]) then 0 else 1 + Skipped(suspended, es[1..])
  }

  /** Between cycles: what holds whenever the sequencer is idle. */
  ghost predicate AtRest(c: Core) {
    && c.rc.m.Valid() && TimerAgrees(c.rc)
    && !c.down && c.pl.phase == PL.Idle && c.safety == Off
  }

  /**
   * The reference: skip the requests for the state already in force, start
   * the first one that asks for the other state, and leave the rest pending.
   */
  ghost predicate Settled(c: Core, r: Core) {
    var k := Skipped(c.suspended, c.pl.pending);
    var rest := c.pl.pending[k..];
    && r.rc.m.Valid() && TimerAgrees(r.rc) && r.rc.attempts == c.rc.attempts
    && (r.down, r.connected, r.monitored) == (c.down, c.connected, c.monitored)
    && (if rest == [] then
          r.pl.phase == PL.Idle && r.pl.pending == [] && r.suspended == c.suspended && r.jobs == c.jobs
        else
          && r.pl.Active() == Some(rest[0]) && r.pl.pending == rest[1..] && r.suspended
          && r.jobs == c.jobs + [if rest[0].kind == PL.Suspend then SuspendJob else ResumeJob]
          && (r.pl.phase == PL.Suspending ==> !r.pl.safetyFired))
    && r.locks == c.locks + (if c.monitored then PL.LocksOf(c.pl.pending[..k]) else [])
    && (r.safety != Off ==> r.pl.phase == PL.Suspending)
    && (r.rc.m.state.Attempting? <==> c.rc.m.state.Attempting? && c.pl.pending == [])
  }

  function Pump(oracle: Oracle, c: Core): Core
    requires c.rc.m.Valid()
  {
    var (m, next) := PL.Pumped(c.pl);
    ExecuteEffects(oracle, c.(pl := m), next)
  }

  /** Starting a request: its effects, up to handing work to the adapter. */
  lemma StartEffect(oracle: Oracle, c: Core)
    requires AtRest(c) && c.pl.pending != []
    ensures
      var (m, out) := PL.Pumped(c.pl);
      var p := Prepare(oracle, c.(pl := m), out);
      && p == c.(pl := m, rc := p.rc, safety := p.safety, safetyArms := p.safetyArms)
      && p.rc.m.state.Idle? && TimerAgrees(p.rc)
      && p.rc.attempts == c.rc.attempts && p.rc.abandoned == c.rc.abandoned
      && (p.safety != Off ==> m.phase == PL.Suspending)
      && p.pl.Active() == Some(c.pl.pending[0]) && p.pl.pending == c.pl.pending[1..]
      && (m.phase == PL.Suspending ==> !m.safetyFired)
      && p.safetyArms == c.safetyArms + (if m.phase == PL.Suspending then 1 else 0)
      && p.safety == (if m.phase == PL.Suspending && oracle.safety(c.safetyArms) then Armed else Off)
  {
    var (m, out) := PL.Pumped(c.pl);
    var e := if out.reconnectNotify.SystemSuspend? then AR.SystemSuspend else AR.SystemResume;
    SignalEffect(oracle, c.rc, c.Gate(), e);
    assert c.jobs + [] == c.jobs;
  }

  lemma ApplyIsPump(oracle: Oracle, c: Core, out: PL.Output)
    requires c.rc.m.Valid() && out.work.NoWork?
    ensures ApplyLifecycle(oracle, c, out) == Pump(oracle, Prepare(oracle, c, out))
  {
    assert ExecuteEffects(oracle, c, out) == Prepare(oracle, c, out);
  }

  /** `q` is `c` after its first pending request, already in force, has come and gone. */
  ghost predicate Passed(c: Core, q: Core)
    requires c.pl.pending != []
  {
    && AtRest(q) && q.rc.m.state.Idle?
    && q.rc.attempts == c.rc.attempts && q.rc.abandoned == c.rc.abandoned
    && q.pl.pending == c.pl.pending[1..]
    && (q.suspended, q.down, q.connected, q.monitored, q.jobs)
       == (c.suspended, c.down, c.connected, c.monitored, c.jobs)
    && q.locks == c.locks + (if c.monitored then PL.LockOf(c.pl.pending[0]) else [])
    && q.safetyArms == c.safetyArms + (if c.pl.pending[0].kind == PL.Suspend then 1 else 0)
  }

  /** Completing a suspend that finds the adapter already suspended. */
  lemma PassSuspend(oracle: Oracle, c: Core) returns (q: Core)
    requires AtRest(c) && c.pl.pending != [] && c.pl.pending[0].kind == PL.Suspend && c.suspended
    ensures Passed(c, q)
    ensures Pump(oracle, c) == Pump(oracle, q)
  {
    StartEffect(oracle, c);
    var (m, out) := PL.Pumped(c.pl);
    var p := Prepare(oracle, c.(pl := m), out);
    var (m1, out1) := PL.SuspendCompleted(p.pl);
    q := Prepare(oracle, p.(pl := m1), out1);
    ApplyIsPump(oracle, p.(pl := m1), out1);
    assert OnSuspendCompleted(oracle, p) == Pump(oracle, q);
    assert SubmitSuspendWork(oracle, p) == Pump(oracle, q);
  }

  /** What completing a resume does at once. */
  lemma ResumeCompletes(oracle: Oracle, c: Core)
    requires c.rc.m.Valid() && c.pl.phase == PL.Resuming && c.pl.Active().Some?
    ensures
      var (m, out) := PL.ResumeCompleted(c.pl);
      && out.work.NoWork? && m.phase == PL.Idle && m.pending == c.pl.pending
      && Prepare(oracle, c.(pl := m), out)
         == c.(pl := m, locks := c.locks + if c.monitored then PL.LockOf(c.pl.Active().value) else [])
  {
    hide AR.Machine.Valid;
    assert c.locks + [] == c.locks;
  }

  /** Completing a resume that finds the adapter awake; the seeding comes after whatever it starts. */
  lemma PassResume(oracle: Oracle, c: Core) returns (q: Core)
    requires AtRest(c) && c.pl.pending != [] && c.pl.pending[0].kind == PL.Resume && !c.suspended
    ensures Passed(c, q)
    ensures
      var r := Pump(oracle, q);
      var (rc, js) := Seed(oracle, r.rc, r.Gate());
      Pump(oracle, c) == r.(rc := rc, jobs := r.jobs + js)
  {
    hide Prepare, ApplyLifecycle, Seed, AR.Machine.Valid, TimerAgrees;
    StartEffect(oracle, c);
    var (m, out) := PL.Pumped(c.pl);
    var p := Prepare(oracle, c.(pl := m), out);
    ResumeCompletes(oracle, p);
    assert Pump(oracle, c) == SubmitResumeWork(oracle, p) == OnResumeCompleted(oracle, p, false);
    var (m1, out1) := PL.ResumeCompleted(p.pl);
    q := Prepare(oracle, p.(pl := m1), out1);
    ApplyIsPump(oracle, p.(pl := m1), out1);
    assert ApplyLifecycle(oracle, p.(pl := m1), out1) == Pump(oracle, q);
  }

  lemma SkipSlices(suspended: bool, es: seq<PL.Entry>)
    requires es != [] && InForce(suspended, es[0])
    ensures
      var k := Skipped(suspended, es[1..]);
      && Skipped(suspended, es) == k + 1
      && es[k + 1..] == es[1..][k..]
      && PL.LocksOf(es[..k + 1]) == PL.LockOf(es[0]) + PL.LocksOf(es[1..][..k])
  {
    var k := Skipped(suspended, es[1..]);
    assert es[..k + 1] == [es[0]] + es[1..][..k];
    FlatMapConcat(PL.LockOf, [es[0]], es[1..][..k]);
    FlatMapOne(PL.LockOf, [], es[0]);
  }

  lemma SkipOne(c: Core, q: Core, r: Core)
    requires c.pl.pending != [] && InForce(c.suspended, c.pl.pending[0])
    requires Passed(c, q) && Settled(q, r)
    ensures Settled(c, r)
  {
    SkipSlices(c.suspended, c.pl.pending);
  }

  lemma StartSettles(oracle: Oracle, c: Core)
    requires AtRest(c) && c.pl.pending != [] && !InForce(c.suspended, c.pl.pending[0])
    ensures Settled(c, Pump(oracle, c))
  {
    StartEffect(oracle, c);
    var (m, out) := PL.Pumped(c.pl);
    var p := Prepare(oracle, c.(pl := m), out);
    if c.suspended {
      assert Pump(oracle, c) == SubmitResumeWork(oracle, p);
    } else {
      assert Pump(oracle, c) == SubmitSuspendWork(oracle, p);
    }
    assert c.pl.pending[0..] == c.pl.pending;
  }

  /** Seeding a reconnect cycle afterwards submits nothing and starts nothing. */
  lemma SeedSettles(oracle: Oracle, c: Core, r: Core)
    requires Settled(c, r)
    ensures
      var (rc, js) := Seed(oracle, r.rc, r.Gate());
      Settled(c, r.(rc := rc, jobs := r.jobs + js))
  {
    SeedEffect(oracle, r.rc, r.Gate());
    assert r.jobs + [] == r.jobs;
  }

  lemma EmptyPump(oracle: Oracle, c: Core)
    requires c.rc.m.Valid() && c.pl.pending == []
    ensures Pump(oracle, c) == c
  {
  }

  lemma EmptySettles(oracle: Oracle, c: Core)
    requires AtRest(c) && c.pl.pending == []
    ensures Settled(c, Pump(oracle, c))
  {
    hide Settled, Pump;
    EmptyPump(oracle, c);
    NothingSettles(c);
  }

  lemma NothingSettles(c: Core)
    requires AtRest(c) && c.pl.pending == []
    ensures Settled(c, c)
  {
    hide FlatMap, AR.Machine.Valid;
    assert c.pl.pending[..0] == [] && c.pl.pending[0..] == [];
    FlatMapNothing(PL.LockOf, []);
    assert c.locks + [] == c.locks;
  }

  /**
   * The mutually recursive executor, with completions delivered inside the
   * calls that caused them, does what one scan of the pending queue says.
   */
  lemma {:induction false} PumpSettles(oracle: Oracle, c: Core)
    requires AtRest(c)
    ensures Settled(c, Pump(oracle, c))
    decreases |c.pl.pending|
  {
    if c.pl.pending == [] {
      EmptySettles(oracle, c);
    } else if !InForce(c.suspended, c.pl.pending[0]) {
      StartSettles(oracle, c);
    } else if c.suspended {
      var q := PassSuspend(oracle, c);
      PumpSettles(oracle, q);
      SkipOne(c, q, Pump(oracle, q));
    } else {
      var q := PassResume(oracle, c);
      PumpSettles(oracle, q);
      SkipOne(c, q, Pump(oracle, q));
      SeedSettles(oracle, c, Pump(oracle, q));
    }
  }

  /**
   * What the scan leaves of the reconnect machine: nothing changes when there
   * is nothing to scan, and skipping a resume while awake leaves a cycle
   * waiting, or one more abandoned when its timer cannot be armed.
   */
  ghost predicate Revived(c: Core, r: Core) {
    && r.rc.abandoned >= c.rc.abandoned
    && (c.pl.pending == [] ==> r.rc == c.rc)
    && (!c.suspended && Skipped(c.suspended, c.pl.pending) > 0 ==>
          r.rc.m.state.WaitingForRetry? || r.rc.abandoned > c.rc.abandoned)
  }

  lemma StartRevives(oracle: Oracle, c: Core)
    requires AtRest(c) && c.pl.pending != [] && !InForce(c.suspended, c.pl.pending[0])
    ensures Pump(oracle, c).rc.abandoned == c.rc.abandoned
  {
    var (m, out) := PL.Pumped(c.pl);
    var e := if out.reconnectNotify.SystemSuspend? then AR.SystemSuspend else AR.SystemResume;
    assert Signal(oracle, c.rc, c.Gate(), e).0.abandoned == c.rc.abandoned;
    var p := Prepare(oracle, c.(pl := m), out);
    if c.suspended {
      assert Pump(oracle, c) == SubmitResumeWork(oracle, p);
    } else {
      assert Pump(oracle, c) == SubmitSuspendWork(oracle, p);
    }
  }

  /** The seed that follows a skipped resume finds the machine idle or waiting. */
  lemma SeedRevives(oracle: Oracle, c: Core, q: Core, r: Core)
    requires c.pl.pending != [] && Passed(c, q) && q.rc.abandoned == c.rc.abandoned
    requires Settled(q, r) && Revived(q, r)
    ensures
      var (rc, js) := Seed(oracle, r.rc, r.Gate());
      Revived(c, r.(rc := rc, jobs := r.jobs + js))
  {
    SeedEffect(oracle, r.rc, r.Gate());
  }

  lemma {:induction false} PumpRevives(oracle: Oracle, c: Core)
    requires AtRest(c)
    ensures Revived(c, Pump(oracle, c))
    decreases |c.pl.pending|
  {
    hide Pump, Settled, Passed;
    if c.pl.pending == [] {
      EmptyPump(oracle, c);
    } else if !InForce(c.suspended, c.pl.pending[0]) {
      StartRevives(oracle, c);
    } else if c.suspended {
      var q := PassSuspend(oracle, c);
      PassedKeeps(c, q);
      PumpRevives(oracle, q);
    } else {
      var q := PassResume(oracle, c);
      PassedKeeps(c, q);
      PumpSettles(oracle, q);
      PumpRevives(oracle, q);
      SeedRevives(oracle, c, q, Pump(oracle, q));
    }
  }

  lemma PassedKeeps(c: Core, q: Core)
    requires c.pl.pending != [] && Passed(c, q)
    ensures AtRest(q) && q.suspended == c.suspended && |q.pl.pending| < |c.pl.pending|
    ensures q.rc.abandoned == c.rc.abandoned
  {
  }

  // ---------------------------------------------------------------------
  // The safety timer
  // ---------------------------------------------------------------------

  function SuspendOf(e: PL.Entry): seq<PL.Entry> {
    if e.kind == PL.Suspend then [e] else []
  }

  function SuspendsIn(es: seq<PL.Entry>): nat {
    |FlatMap(SuspendOf, es)|
  }

  /**
   * Every suspend begun arms the timer once, even one that is skipped; a
   * suspend left under way has its timer armed exactly if that arming
   * succeeded, and nothing else leaves it armed.
   */
  ghost predicate Guarded(oracle: Oracle, c: Core, r: Core) {
    && |r.pl.pending| <= |c.pl.pending|
    && r.safetyArms == c.safetyArms + SuspendsIn(c.pl.pending[..|c.pl.pending| - |r.pl.pending|])
    && (r.pl.phase == PL.Suspending ==> r.safetyArms > 0)
    && r.safety == (if r.pl.phase == PL.Suspending && oracle.safety(r.safetyArms - 1) then Armed else Off)
  }

  /** Handing the work of a request over leaves the sequencer and the safety timer alone. */
  lemma StartHandsOver(oracle: Oracle, c: Core)
    requires AtRest(c) && c.pl.pending != [] && !InForce(c.suspended, c.pl.pending[0])
    ensures
      var (m, out) := PL.Pumped(c.pl);
      var p := Prepare(oracle, c.(pl := m), out);
      var r := Pump(oracle, c);
      r.pl == m && r.safety == p.safety && r.safetyArms == p.safetyArms
  {
    hide Prepare, ApplyLifecycle;
    StartEffect(oracle, c);
    var (m, out) := PL.Pumped(c.pl);
    var p := Prepare(oracle, c.(pl := m), out);
    if c.suspended {
      assert Pump(oracle, c) == SubmitResumeWork(oracle, p);
    } else {
      assert Pump(oracle, c) == SubmitSuspendWork(oracle, p);
    }
  }

  lemma StartGuards(oracle: Oracle, c: Core)
    requires AtRest(c) && c.pl.pending != [] && !InForce(c.suspended, c.pl.pending[0])
    ensures Guarded(oracle, c, Pump(oracle, c))
  {
    hide Prepare, Pump, FlatMap, TimerAgrees, AR.Machine.Valid;
    StartEffect(oracle, c);
    StartHandsOver(oracle, c);
    assert c.pl.pending[..1] == [c.pl.pending[0]];
    FlatMapOne(SuspendOf, [], c.pl.pending[0]);
  }

  lemma PassedGuards(oracle: Oracle, c: Core, q: Core, r: Core)
    requires c.pl.pending != [] && Passed(c, q) && Guarded(oracle, q, r)
    ensures Guarded(oracle, c, r)
  {
    hide FlatMap, AtRest;
    var n := |q.pl.pending| - |r.pl.pending|;
    assert c.pl.pending[..n + 1] == [c.pl.pending[0]] + q.pl.pending[..n];
    FlatMapConcat(SuspendOf, [c.pl.pending[0]], q.pl.pending[..n]);
    FlatMapOne(SuspendOf, [], c.pl.pending[0]);
  }

  lemma EmptyGuards(oracle: Oracle, c: Core)
    requires AtRest(c) && c.pl.pending == []
    ensures Guarded(oracle, c, c)
  {
    assert c.pl.pending[..0] == [];
  }

  lemma {:induction false} PumpGuards(oracle: Oracle, c: Core)
    requires AtRest(c)
    ensures Guarded(oracle, c, Pump(oracle, c))
    decreases |c.pl.pending|
  {
    hide Pump, Guarded, Passed;
    if c.pl.pending == [] {
      EmptyPump(oracle, c);
      EmptyGuards(oracle, c);
    } else if !InForce(c.suspended, c.pl.pending[0]) {
      StartGuards(oracle, c);
    } else if c.suspended {
      var q := PassSuspend(oracle, c);
      PassedKeeps(c, q);
      PumpGuards(oracle, q);
      PassedGuards(oracle, c, q, Pump(oracle, q));
    } else {
      var q := PassResume(oracle, c);
      PassedKeeps(c, q);
      PumpGuards(oracle, q);
      PassedGuards(oracle, c, q, Pump(oracle, q));
      NotAttempting(oracle, q);
      SeedGuards(oracle, c, Pump(oracle, q));
    }
  }

  lemma SeedGuards(oracle: Oracle, c: Core, r: Core)
    requires Guarded(oracle, c, r) && r.rc.m.Valid()
    ensures
      var (rc, js) := Seed(oracle, r.rc, r.Gate());
      Guarded(oracle, c, r.(rc := rc, jobs := r.jobs + js))
  {
    hide Seed;
  }

  // ---------------------------------------------------------------------
  // Main-thread entry points
  // ---------------------------------------------------------------------

  function Requested(oracle: Oracle, c: Core, e: PL.Entry): (r: Core)
    requires c.rc.m.Valid()
    ensures r.rc.m.Valid() && r.rc.m.delays == c.rc.m.delays
  {
    ApplyLifecycle(oracle, c.(pl := PL.Requested(c.pl, e)), PL.INERT)
  }

  function OnSafetyTimerFired(oracle: Oracle, c: Core): (r: Core)
    requires c.rc.m.Valid()
    ensures r.rc.m.Valid() && r.rc.m.delays == c.rc.m.delays
  {
    var (m, out) := PL.SafetyTimerFired(c.pl);
    ApplyLifecycle(oracle, c.(pl := m, safety := Consumed(c.safety)), out)
  }

  function Recover(oracle: Oracle, c: Core, e: AR.Event): (r: Core)
    requires c.rc.m.Valid()
    ensures r.rc.m.Valid() && r.rc.m.delays == c.rc.m.delays
  {
    var (rc, js) := Signal(oracle, c.rc, c.Gate(), e);
    c.(rc := rc, jobs := c.jobs + js)
  }

  function OnRetryTimerFired(oracle: Oracle, c: Core): (r: Core)
    requires c.rc.m.Valid()
    ensures r.rc.m.Valid() && r.rc.m.delays == c.rc.m.delays
  {
    Recover(oracle, c.(rc := c.rc.(retry := Consumed(c.rc.retry))), AR.RetryTimerFired)
  }

  /** What holds of the supervisor between main-thread handlers. */
  ghost predicate Rested(c: Core) {
    && c.rc.m.Valid() && TimerAgrees(c.rc) && !c.down
    && (c.pl.phase == PL.Idle ==> c.pl.pending == [])
    && (c.safety != Off ==> c.pl.phase == PL.Suspending)
  }

  /** While a request is being carried out, another one only joins the queue. */
  lemma RequestEffect(oracle: Oracle, c: Core, e: PL.Entry)
    requires Rested(c)
    ensures
      var q := c.(pl := PL.Requested(c.pl, e));
      if c.pl.phase == PL.Idle then AtRest(q) && q.pl.pending == [e] && Settled(q, Requested(oracle, c, e))
      else Requested(oracle, c, e) == q
  {
    var q := c.(pl := PL.Requested(c.pl, e));
    ApplyIsPump(oracle, q, PL.INERT);
    assert Prepare(oracle, q, PL.INERT) == q;
    if c.pl.phase == PL.Idle {
      PumpSettles(oracle, q);
    } else {
      assert Pump(oracle, q) == q;
    }
  }

  /** A stale firing changes nothing; a live one forces the release, once. */
  lemma SafetyEffect(oracle: Oracle, c: Core)
    requires Rested(c)
    ensures
      var (m, out) := PL.SafetyTimerFired(c.pl);
      OnSafetyTimerFired(oracle, c)
      == c.(pl := m, safety := Consumed(c.safety),
            locks := c.locks + if c.monitored && out.lock.Some? then [out.lock.value] else [])
  {
    var (m, out) := PL.SafetyTimerFired(c.pl);
    var q := c.(pl := m, safety := Consumed(c.safety));
    ApplyIsPump(oracle, q, out);
    assert c.locks + [] == c.locks;
    var p := Prepare(oracle, q, out);
    assert Pump(oracle, p) == p;
  }

  /** The worker has finished the suspend: release the lock unless that was forced, then move on. */
  lemma SuspendCompletedEffect(oracle: Oracle, c: Core)
    requires Rested(c) && c.pl.phase == PL.Suspending
    ensures
      var (m, out) := PL.SuspendCompleted(c.pl);
      var q := c.(pl := m, safety := Off,
                  locks := c.locks + if c.monitored && out.lock.Some? then [out.lock.value] else []);
      AtRest(q) && Settled(q, OnSuspendCompleted(oracle, c))
  {
    var (m, out) := PL.SuspendCompleted(c.pl);
    ApplyIsPump(oracle, c.(pl := m), out);
    assert c.locks + [] == c.locks;
    PumpSettles(oracle, Prepare(oracle, c.(pl := m), out));
  }

  /** The worker has finished the resume: take the lock, move on, and start recovering a lost adapter. */
  lemma ResumeCompletedEffect(oracle: Oracle, c: Core, adapterValid: bool)
    requires Rested(c) && c.pl.phase == PL.Resuming
    ensures
      var (m, out) := PL.ResumeCompleted(c.pl);
      var q := c.(pl := m, locks := c.locks + if c.monitored && out.lock.Some? then [out.lock.value] else []);
      AtRest(q) && Settled(q, OnResumeCompleted(oracle, c, adapterValid))
    ensures
      var r := OnResumeCompleted(oracle, c, adapterValid);
      !adapterValid && !c.rc.m.state.Attempting? ==> r.rc.m.state.WaitingForRetry? || r.rc.abandoned > c.rc.abandoned
  {
    var (m, out) := PL.ResumeCompleted(c.pl);
    ApplyIsPump(oracle, c.(pl := m), out);
    assert c.locks + [] == c.locks;
    var q := Prepare(oracle, c.(pl := m), out);
    PumpSettles(oracle, q);
    SeedSettles(oracle, q, Pump(oracle, q));
    ResumeRevives(oracle, c, adapterValid);
  }

  /**
   * A resume that finds the adapter gone leaves a cycle waiting, or one more
   * abandoned when its timer cannot be armed, unless an attempt is still
   * awaited; with the adapter back and nothing else to do, recovery is left
   * as it was.
   */
  lemma ResumeRevives(oracle: Oracle, c: Core, adapterValid: bool)
    requires Rested(c) && c.pl.phase == PL.Resuming
    ensures
      var r := OnResumeCompleted(oracle, c, adapterValid);
      && r.rc.abandoned >= c.rc.abandoned
      && (!adapterValid && !c.rc.m.state.Attempting? ==>
            r.rc.m.state.WaitingForRetry? || r.rc.abandoned > c.rc.abandoned)
      && (adapterValid && c.pl.pending == [] ==> r.rc == c.rc)
      && (!c.suspended && Skipped(false, c.pl.pending) > 0 ==>
            r.rc.m.state.WaitingForRetry? || r.rc.abandoned > c.rc.abandoned)
  {
    hide Settled, Pump, Skipped;
    var (m, out) := PL.ResumeCompleted(c.pl);
    ApplyIsPump(oracle, c.(pl := m), out);
    assert c.locks + [] == c.locks;
    var q := Prepare(oracle, c.(pl := m), out);
    PumpRevives(oracle, q);
    NotAttempting(oracle, q);
    var r := Pump(oracle, q);
    SeedEffect(oracle, r.rc, r.Gate());
  }

  lemma NotAttempting(oracle: Oracle, c: Core)
    requires AtRest(c)
    ensures Pump(oracle, c).rc.m.Valid() && TimerAgrees(Pump(oracle, c).rc)
    ensures Pump(oracle, c).rc.m.state.Attempting? ==> c.rc.m.state.Attempting?
  {
    hide Pump;
    PumpSettles(oracle, c);
  }

  /** Reading the expiry makes no difference: starting the attempt disarms the timer anyway. */
  lemma RetryEffect(oracle: Oracle, c: Core)
    requires Rested(c)
    ensures OnRetryTimerFired(oracle, c) == Recover(oracle, c, AR.RetryTimerFired)
  {
    var read := c.rc.(retry := Consumed(c.rc.retry));
    if c.rc.m.state.WaitingForRetry? {
      var (m, out) := AR.Transition(c.rc.m, AR.RetryTimerFired);
      assert read.(m := m, retry := Off, attempts := read.attempts + 1)
          == c.rc.(m := m, retry := Off, attempts := c.rc.attempts + 1);
    } else {
      assert read == c.rc;
    }
  }
}
