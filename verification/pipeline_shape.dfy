/** What is in flight in each phase, and how every step keeps it so. */
module PipelineShape {
  import opened Supervisor
  import opened Pipeline
  import opened PipelineMoves
  import PL = Lifecycle
  import AR = Reconnect

  ghost predicate NoPower(f: seq<Job>) {
    forall k :: 0 <= k < |f| ==> !IsPower(f[k])
  }

  /**
   * Awake: the sequencer is idle and no suspend or resume is in flight.
   * Suspending: one suspend is in flight, behind everything else.
   * Suspended and idle: nothing is in flight at all.
   * Resuming: the resume is the only thing in flight.
   */
  ghost predicate Shape(phase: PL.Phase, suspended: bool, f: seq<Job>) {
    && (!suspended ==> phase == PL.Idle && NoPower(f))
    && (suspended ==>
          match phase
          case Idle => f == []
          case Suspending => f != [] && f[|f| - 1] == SuspendJob && NoPower(f[..|f| - 1])
          case Resuming => f == [ResumeJob])
  }

  /** Jobs that are not suspend or resume are handed over only while awake. */
  lemma ShapeGives(phase: PL.Phase, suspended: bool, f: seq<Job>, gave: seq<Job>)
    requires Shape(phase, suspended, f) && NoPower(gave) && (suspended ==> gave == [])
    ensures Shape(phase, suspended, f + gave)
  {
    assert gave == [] ==> f + gave == f;
  }

  /** Taking back the result of a job that is not suspend or resume. */
  lemma ShapeTakes(phase: PL.Phase, suspended: bool, f: seq<Job>)
    requires f != [] && Shape(phase, suspended, f) && !IsPower(f[0])
    ensures Shape(phase, suspended, f[1..])
  {
    assert |f| > 1 ==> f[1..][..|f| - 2] == f[1..|f| - 1] && f[..|f| - 1][1..] == f[1..|f| - 1];
  }

  lemma ShapeDrops(phase: PL.Phase, suspended: bool, f: seq<Job>, g: seq<Job>, k: nat)
    requires Shape(phase, suspended, f) && SilentAt(f, g, k)
    ensures Shape(phase, suspended, g)
  {
    if suspended {
      assert g[..|g| - 1] == f[..k] + f[k + 1..|f| - 1];
    }
  }

  /** The result of a suspend is taken back only while suspending, and then it was the last thing in flight. */
  lemma SuspendResultIsLast(phase: PL.Phase, suspended: bool, f: seq<Job>)
    requires f != [] && Shape(phase, suspended, f) && f[0] == SuspendJob
    ensures suspended && phase == PL.Suspending && f == [SuspendJob]
  {
    assert IsPower(f[0]);
  }

  lemma ResumeResultIsAll(phase: PL.Phase, suspended: bool, f: seq<Job>)
    requires f != [] && Shape(phase, suspended, f) && f[0] == ResumeJob
    ensures suspended && phase == PL.Resuming && f == [ResumeJob]
  {
    assert IsPower(f[0]);
  }

  /** The sequencer starts a suspend behind what is in flight, a resume only when nothing is. */
  lemma ShapeMoves(suspended: bool, f: seq<Job>, c: Core, r: Core, gave: seq<Job>)
    requires Shape(PL.Idle, suspended, f) && c.suspended == suspended && PowerMove(c, r, gave)
    ensures Shape(r.pl.phase, r.suspended, f + gave)
  {
    if gave == [SuspendJob] {
      assert (f + gave)[..|f + gave| - 1] == f;
    }
  }

  // ---------------------------------------------------------------------
  // Main-thread handlers
  // ---------------------------------------------------------------------

  ghost predicate Shaped(s: Pipe) {
    && Rested(s.core)
    && Shape(s.core.pl.phase, s.core.suspended, Flight(s))
    && (s.parked != [] ==> s.core.suspended)
  }

  lemma RequestSequences(oracle: Oracle, s: Pipe, e: PL.Entry) returns (gave: seq<Job>)
    requires Shaped(s)
    ensures
      var r := PowerRequest(oracle, s, e);
      && r == s.(core := r.core, started := r.started)
      && PowerGives(s.core, r.core, gave) && Exchanged(s, r, [], gave) && Shaped(r)
  {
    var r := PowerRequest(oracle, s, e);
    gave := RequestMoves(oracle, s.core, e);
    ExchangedBy(s, r, gave);
    if s.core.pl.phase == PL.Idle {
      ShapeMoves(s.core.suspended, Flight(s), s.core, r.core, gave);
    } else {
      assert Flight(s) + [] == Flight(s);
    }
  }

  /** The suspend has come back: nothing else was in flight, and the sequencer moves on. */
  lemma SuspendFinishes(oracle: Oracle, s: Pipe) returns (gave: seq<Job>)
    requires Rested(s.core) && s.core.suspended && s.core.pl.phase == PL.Suspending && Flight(s) == []
    ensures
      var r := SuspendFinished(oracle, s);
      && r == s.(core := r.core, started := r.started)
      && PowerMove(s.core, r.core, gave) && Exchanged(s, r, [], gave) && Shaped(r)
  {
    var r := SuspendFinished(oracle, s);
    gave := SuspendCompletionMoves(oracle, s.core);
    ExchangedBy(s, r, gave);
    ShapeMoves(true, [], s.core, r.core, gave);
  }

  lemma ResolveGives(s: Pipe, valid: bool)
    requires Flight(s) == []
    ensures
      var replays := if valid then Replays(s.parked) else [];
      Exchanged(s, Resolve(s, valid), [], replays) && NoPower(replays)
  {
    var replays := if valid then Replays(s.parked) else [];
    assert s.core.jobs + [] == s.core.jobs;
    ExchangedBy(s, Resolve(s, valid), replays);
  }

  /** The resume has come back: the parked commands are resolved and the sequencer moves on, awake. */
  lemma ResumeFinishes(oracle: Oracle, s: Pipe, valid: bool) returns (gave: seq<Job>)
    requires Rested(s.core) && s.core.pl.phase == PL.Resuming && Flight(s) == []
    ensures
      var t := Resolve(s, valid);
      var r := ResumeFinished(oracle, s, valid);
      && r == t.(core := r.core, started := r.started)
      && PowerMove(t.core, r.core, gave) && Exchanged(t, r, [], gave) && Shaped(r)
  {
    var t := Resolve(s, valid);
    var r := ResumeFinished(oracle, s, valid);
    gave := ResumeCompletionMoves(oracle, t.core, valid);
    ExchangedBy(t, r, gave);
    ResolveGives(s, valid);
    ShapeMoves(false, Flight(t), t.core, r.core, gave);
  }

  /** An event handed to the reconnect machine, with what it gave to the worker. */
  ghost predicate Signalled(c: Core, r: Core, e: AR.Event, gave: seq<Job>)
    requires c.rc.m.Valid()
  {
    var started := AR.Transition(c.rc.m, e).1.effect.StartAttempt?;
    && r == c.(rc := r.rc, jobs := r.jobs)
    && r.rc.attempts == c.rc.attempts + (if started then 1 else 0)
    && (gave == if started && c.Gate().Open? then [ReconnectJob(r.rc.attempts)] else [])
    && (r.rc.m.state.Attempting? <==>
          gave != [] || (c.rc.m.state.Attempting? && e in {AR.ConnectionLost, AR.RetryTimerFired}))
  }

  /** An event for the reconnect machine submits at most one attempt, and only while awake. */
  lemma RecoveryGives(oracle: Oracle, s: Pipe, e: AR.Event) returns (gave: seq<Job>)
    requires Shaped(s) && e != AR.TimerArmFailed
    ensures
      var r := s.(core := Recover(oracle, s.core, e));
      && Signalled(s.core, r.core, e, gave)
      && Exchanged(s, r, [], gave) && Shaped(r)
  {
    SignalEffect(oracle, s.core.rc, s.core.Gate(), e);
    gave := Signal(oracle, s.core.rc, s.core.Gate(), e).1;
    var r := s.(core := Recover(oracle, s.core, e));
    ExchangedBy(s, r, gave);
    ShapeGives(s.core.pl.phase, s.core.suspended, Flight(s), gave);
  }

  lemma SubmitGives(s: Pipe, job: Job)
    requires Shaped(s) && !s.core.suspended && !IsPower(job)
    ensures Exchanged(s, Submit(s, [job]), [], [job]) && Shaped(Submit(s, [job]))
  {
    ExchangedBy(s, Submit(s, [job]), [job]);
    ShapeGives(s.core.pl.phase, s.core.suspended, Flight(s), [job]);
  }
}
