/**
 * Who asked for what: the requests a run brings in, coalesced as they are
 * accepted, are exactly those the sequencer begins and keeps waiting; each
 * suspend begun arms the safety timer once.
 */
module PipelineBook {
  import opened Seqs
  import opened Wire
  import opened Timers
  import opened Supervisor
  import opened Pipeline
  import opened PipelineShape
  import opened PipelineInvariant
  import opened PipelineRuns
  import opened PipelineLocks
  import opened PipelineTheorems
  import opened PipelineRequests
  import PL = Lifecycle
  import AR = Reconnect

  /** The request a step brings to the sequencer: from the wire by command, from D-Bus by signal. */
  function BroughtIn(s: Pipe, step: Step): seq<PL.Entry> {
    match step
    case WireCommand(msg) =>
      if msg.ty == CMD_SUSPEND then [PL.Entry(PL.Suspend, PL.Wire)]
      else if msg.ty == CMD_RESUME then [PL.Entry(PL.Resume, PL.Wire)]
      else []
    case DrainOne =>
      if s.posts != [] && s.posts[0].PowerSignal? then [PL.Entry(s.posts[0].kind, PL.DBus)] else []
    case _ => []
  }

  /** A request is dropped only when it repeats the last one accepted and that one is unfinished. */
  function Coalesced(accepted: seq<PL.Entry>, idle: bool, e: PL.Entry): seq<PL.Entry> {
    if !idle && accepted != [] && accepted[|accepted| - 1] == e then accepted else accepted + [e]
  }

  /** The requests accepted in the course of a run, from both sources, in order. */
  function Accepted(oracle: Oracle, s0: Pipe, steps: seq<Step>): seq<PL.Entry>
    requires s0.core.rc.m.Valid()
  {
    if steps == [] then []
    else
      var before := steps[..|steps| - 1];
      var s := After(oracle, s0, before);
      var brought := BroughtIn(s, steps[|steps| - 1]);
      if brought == [] then Accepted(oracle, s0, before)
      else Coalesced(Accepted(oracle, s0, before), s.core.pl.phase == PL.Idle, brought[0])
  }

  /** What is begun and what waits make up what was accepted; the last one begun is the one under way. */
  ghost predicate Traced(accepted: seq<PL.Entry>, started: seq<PL.Entry>, m: PL.Machine) {
    && started + m.pending == accepted
    && (m.phase != PL.Idle ==> started != [] && m.Active() == Some(started[|started| - 1]))
    && (m.phase == PL.Idle ==> m.pending == [])
  }

  /** While a suspend is under way and not forced, its timer is on exactly if its arming succeeded. */
  ghost predicate Timed(oracle: Oracle, arms: nat, started: seq<PL.Entry>, c: Core) {
    && c.safetyArms == arms + SuspendsIn(started)
    && (c.pl.phase == PL.Suspending && !c.pl.safetyFired ==>
          c.safetyArms > 0 && (c.safety != Off <==> oracle.safety(c.safetyArms - 1)))
  }

  // ---------------------------------------------------------------------
  // The sequencer moves
  // ---------------------------------------------------------------------

  lemma BegunAndRest(pending: seq<PL.Entry>, k: nat)
    requires k <= |pending|
    ensures Begun(pending, pending[k..]) + pending[k..] == pending
    ensures Begun(pending, pending[k..]) == pending[..|pending| - |pending[k..]|]
  {
  }

  /** What is left waiting is a tail of what waited; the request under way comes right before it. */
  lemma SettledRest(c: Core, r: Core) returns (k: nat)
    requires AtRest(c) && Settled(c, r)
    ensures k <= |c.pl.pending| && r.pl.pending == c.pl.pending[k..]
    ensures r.pl.phase != PL.Idle ==> k > 0 && r.pl.Active() == Some(c.pl.pending[k - 1])
    ensures r.pl.phase == PL.Idle ==> r.pl.pending == []
  {
    hide FlatMap, PL.LocksOf, TimerAgrees, AR.Machine.Valid;
    k := Skipped(c.suspended, c.pl.pending);
    if k < |c.pl.pending| {
      assert c.pl.pending[k..][0] == c.pl.pending[k];
      assert c.pl.pending[k..][1..] == c.pl.pending[k + 1..];
      k := k + 1;
    }
  }

  lemma SettledTraces(started: seq<PL.Entry>, c: Core, r: Core)
    requires AtRest(c) && Settled(c, r)
    ensures Traced(started + c.pl.pending, started + Begun(c.pl.pending, r.pl.pending), r.pl)
  {
    hide Settled, AtRest, Begun;
    var k := SettledRest(c, r);
    BegunAndRest(c.pl.pending, k);
    var begun := Begun(c.pl.pending, r.pl.pending);
    assert (started + begun) + r.pl.pending == started + (begun + r.pl.pending);
  }

  lemma GuardedTimes(oracle: Oracle, arms: nat, started: seq<PL.Entry>, c: Core, r: Core)
    requires Guarded(oracle, c, r) && c.safetyArms == arms + SuspendsIn(started)
    ensures Timed(oracle, arms, started + Begun(c.pl.pending, r.pl.pending), r)
  {
    hide FlatMap;
    FlatMapConcat(SuspendOf, started, Begun(c.pl.pending, r.pl.pending));
    NothingBegun(c.pl.pending, r.pl.pending);
  }

  lemma NothingBegun(before: seq<PL.Entry>, after: seq<PL.Entry>)
    requires |after| <= |before|
    ensures Begun(before, after) == before[..|before| - |after|]
  {
  }

  /** The scan from a core at rest keeps both books. */
  lemma PumpBooks(oracle: Oracle, arms: nat, started: seq<PL.Entry>, q: Core)
    requires AtRest(q) && q.safetyArms == arms + SuspendsIn(started)
    ensures
      var r := Pump(oracle, q);
      var begun := started + Begun(q.pl.pending, r.pl.pending);
      Traced(started + q.pl.pending, begun, r.pl) && Timed(oracle, arms, begun, r)
  {
    hide Settled, Guarded, Begun, Traced, Timed, Pump, SuspendsIn;
    PumpSettles(oracle, q);
    PumpGuards(oracle, q);
    SettledTraces(started, q, Pump(oracle, q));
    GuardedTimes(oracle, arms, started, q, Pump(oracle, q));
  }

  ghost predicate Agrees(oracle: Oracle, arms: nat, accepted: seq<PL.Entry>, s: Pipe) {
    Traced(accepted, s.started, s.core.pl) && Timed(oracle, arms, s.started, s.core)
  }

  lemma RequestBooks(oracle: Oracle, arms: nat, accepted: seq<PL.Entry>, s: Pipe, e: PL.Entry)
    requires Rested(s.core) && Agrees(oracle, arms, accepted, s)
    ensures Agrees(oracle, arms, Coalesced(accepted, s.core.pl.phase == PL.Idle, e), PowerRequest(oracle, s, e))
  {
    hide Agrees, Requested, PowerRequest, AR.Machine.Valid;
    if s.core.pl.phase == PL.Idle {
      IdleRequestBooks(oracle, arms, accepted, s, e);
    } else {
      BusyRequestBooks(oracle, arms, accepted, s, e);
    }
  }

  lemma IdleRequestBooks(oracle: Oracle, arms: nat, accepted: seq<PL.Entry>, s: Pipe, e: PL.Entry)
    requires Rested(s.core) && s.core.pl.phase == PL.Idle && Agrees(oracle, arms, accepted, s)
    ensures Agrees(oracle, arms, accepted + [e], PowerRequest(oracle, s, e))
  {
    hide Pump, Requested, SuspendsIn, Begun, AR.Machine.Valid;
    assert PL.Requested(s.core.pl, e).pending == [e];
    RequestIsPump(oracle, s.core, e);
    assert s.started + [] == s.started;
    PumpBooks(oracle, arms, s.started, s.core.(pl := PL.Requested(s.core.pl, e)));
  }

  lemma BusyRequestBooks(oracle: Oracle, arms: nat, accepted: seq<PL.Entry>, s: Pipe, e: PL.Entry)
    requires Rested(s.core) && s.core.pl.phase != PL.Idle && Agrees(oracle, arms, accepted, s)
    ensures Agrees(oracle, arms, Coalesced(accepted, false, e), PowerRequest(oracle, s, e))
  {
    hide Requested, SuspendsIn, Traced, Coalesced, AR.Machine.Valid, PL.Requested;
    RequestJoins(oracle, s, e);
    BusyTraces(accepted, s.started, s.core.pl, e);
  }

  lemma RequestJoins(oracle: Oracle, s: Pipe, e: PL.Entry)
    requires Rested(s.core) && s.core.pl.phase != PL.Idle
    ensures PowerRequest(oracle, s, e) == s.(core := s.core.(pl := PL.Requested(s.core.pl, e)))
    ensures PL.Requested(s.core.pl, e) == s.core.pl.(pending := PL.Requested(s.core.pl, e).pending)
  {
    hide Settled, Requested;
    RequestEffect(oracle, s.core, e);
    assert s.started + [] == s.started;
  }

  lemma BusyTraces(accepted: seq<PL.Entry>, started: seq<PL.Entry>, m: PL.Machine, e: PL.Entry)
    requires Traced(accepted, started, m) && m.phase != PL.Idle
    ensures Traced(Coalesced(accepted, false, e), started, PL.Requested(m, e))
  {
    TailIsLast(accepted, started, m);
    assert started + (m.pending + [e]) == (started + m.pending) + [e];
  }

  lemma TailIsLast(accepted: seq<PL.Entry>, started: seq<PL.Entry>, m: PL.Machine)
    requires Traced(accepted, started, m)
    ensures m.phase != PL.Idle ==> accepted != [] && m.EffectiveTail() == Some(accepted[|accepted| - 1])
    ensures m.phase == PL.Idle ==> m.EffectiveTail() == None
  {
  }

  lemma RequestIsPump(oracle: Oracle, c: Core, e: PL.Entry)
    requires Rested(c) && c.pl.phase == PL.Idle
    ensures Requested(oracle, c, e) == Pump(oracle, c.(pl := PL.Requested(c.pl, e)))
  {
    hide Pump;
    var q := c.(pl := PL.Requested(c.pl, e));
    ApplyIsPump(oracle, q, PL.INERT);
    assert Prepare(oracle, q, PL.INERT) == q;
  }

  lemma SuspendRests(oracle: Oracle, c: Core)
    requires Rested(c) && c.pl.phase == PL.Suspending
    ensures
      var (m, out) := PL.SuspendCompleted(c.pl);
      var q := Prepare(oracle, c.(pl := m), out);
      && AtRest(q) && q.pl.pending == c.pl.pending && q.safetyArms == c.safetyArms
      && OnSuspendCompleted(oracle, c) == Pump(oracle, q)
  {
    hide Pump;
    var (m, out) := PL.SuspendCompleted(c.pl);
    ApplyIsPump(oracle, c.(pl := m), out);
  }

  lemma ResumeRests(oracle: Oracle, c: Core, valid: bool)
    requires Rested(c) && c.pl.phase == PL.Resuming
    ensures
      var (m, out) := PL.ResumeCompleted(c.pl);
      var q := Prepare(oracle, c.(pl := m), out);
      var r := OnResumeCompleted(oracle, c, valid);
      && AtRest(q) && q.pl.pending == c.pl.pending && q.safetyArms == c.safetyArms
      && r == Pump(oracle, q).(rc := r.rc, jobs := r.jobs)
  {
    hide Pump, Seed;
    var (m, out) := PL.ResumeCompleted(c.pl);
    ApplyIsPump(oracle, c.(pl := m), out);
  }

  lemma SuspendBooks(oracle: Oracle, arms: nat, accepted: seq<PL.Entry>, s: Pipe)
    requires Rested(s.core) && s.core.pl.phase == PL.Suspending && Agrees(oracle, arms, accepted, s)
    ensures Agrees(oracle, arms, accepted, SuspendFinished(oracle, s))
  {
    hide Pump, Prepare, OnSuspendCompleted, AtRest, SuspendsIn, Begun, Rested, AR.Machine.Valid;
    SuspendRests(oracle, s.core);
    var (m, out) := PL.SuspendCompleted(s.core.pl);
    RestedSound(s.core);
    PumpBooks(oracle, arms, s.started, Prepare(oracle, s.core.(pl := m), out));
  }

  lemma ResumeBooks(oracle: Oracle, arms: nat, accepted: seq<PL.Entry>, s: Pipe, valid: bool)
    requires Rested(s.core) && s.core.pl.phase == PL.Resuming && Agrees(oracle, arms, accepted, s)
    ensures s.core.rc.m.Valid()
    ensures Agrees(oracle, arms, accepted, WithCore(s, s.core, OnResumeCompleted(oracle, s.core, valid)))
  {
    hide Pump, Prepare, OnResumeCompleted, AtRest, SuspendsIn, Begun, Rested, AR.Machine.Valid;
    RestedSound(s.core);
    ResumeRests(oracle, s.core, valid);
    var (m, out) := PL.ResumeCompleted(s.core.pl);
    PumpBooks(oracle, arms, s.started, Prepare(oracle, s.core.(pl := m), out));
  }

  // ---------------------------------------------------------------------
  // Steps
  // ---------------------------------------------------------------------

  /** Nothing that the books speak of changes. */
  ghost predicate Unmoved(s: Pipe, r: Pipe) {
    && r.started == s.started && r.core.pl == s.core.pl && r.core.safetyArms == s.core.safetyArms
    && (r.core.safety != Off <==> s.core.safety != Off)
  }

  lemma UnmovedAgrees(oracle: Oracle, arms: nat, accepted: seq<PL.Entry>, s: Pipe, r: Pipe)
    requires Agrees(oracle, arms, accepted, s) && Unmoved(s, r)
    ensures Agrees(oracle, arms, accepted, r)
  {
  }

  /** A live firing marks the suspend as forced; a stale one changes nothing. */
  lemma SafetyAgrees(oracle: Oracle, arms: nat, accepted: seq<PL.Entry>, s: Pipe)
    requires Rested(s.core) && Agrees(oracle, arms, accepted, s)
    ensures Agrees(oracle, arms, accepted, s.(core := OnSafetyTimerFired(oracle, s.core)))
  {
    hide OnSafetyTimerFired, SuspendsIn;
    SafetyEffect(oracle, s.core);
  }

  lemma WorkerUnmoved(oracle: Oracle, s: Pipe, step: Step)
    requires s.core.rc.m.Valid() && Enabled(s, step)
    requires step.Dequeue? || step.Reopening? || step.Perform? || step.Probe? || step.Finish?
    ensures Unmoved(s, Next(oracle, s, step))
  {
    hide AdapterCalls, Completion, Reopens, AR.Machine.Valid;
  }

  lemma OutsideUnmoved(oracle: Oracle, s: Pipe, step: Step)
    requires s.core.rc.m.Valid() && Enabled(s, step)
    requires step.SafetyExpires? || step.RetryExpires? || step.Alert? || step.Observed? || step.BusSignal?
             || step.RetryTimer?
    ensures Unmoved(s, Next(oracle, s, step))
  {
    hide Signal, AR.Machine.Valid;
  }

  lemma ClosureUnmoved(oracle: Oracle, s: Pipe)
    requires s.core.rc.m.Valid() && s.posts != []
    requires !s.posts[0].SuspendDone? && !s.posts[0].ResumeDone? && !s.posts[0].PowerSignal?
    ensures Unmoved(s, RunPost(oracle, Popped(s), s.posts[0]))
  {
    hide Recover, Unmoved, PowerRequest, SuspendFinished, ResumeFinished, AR.Machine.Valid;
    var t := Popped(s);
    if s.posts[0].ConnectionLost? {
      RecoverUnmoved(oracle, s, t, AR.ConnectionLost);
    } else if s.posts[0].ReconnectDone? {
      RecoverUnmoved(oracle, s, t, if s.posts[0].ok then AR.AttemptSucceeded else AR.AttemptFailed);
    } else {
      QuietUnmoved(oracle, s);
    }
  }

  lemma RecoverUnmoved(oracle: Oracle, s: Pipe, t: Pipe, e: AR.Event)
    requires s.core.rc.m.Valid() && t == s.(posts := t.posts)
    ensures Unmoved(s, t.(core := Recover(oracle, t.core, e)))
  {
    hide Signal, AR.Machine.Valid;
  }

  lemma QuietUnmoved(oracle: Oracle, s: Pipe)
    requires s.core.rc.m.Valid() && s.posts != []
    requires s.posts[0].Answer? || s.posts[0].Observation? || s.posts[0].ArmStandby? || s.posts[0].SuspendSystem?
    ensures Unmoved(s, RunPost(oracle, Popped(s), s.posts[0]))
  {
    hide AR.Machine.Valid;
  }

  lemma ResumedBooks(oracle: Oracle, arms: nat, accepted: seq<PL.Entry>, s: Pipe, valid: bool)
    requires Rested(s.core) && s.core.pl.phase == PL.Resuming && Agrees(oracle, arms, accepted, s)
    ensures s.core.rc.m.Valid()
    ensures Agrees(oracle, arms, accepted, ResumeFinished(oracle, s, valid))
  {
    hide OnResumeCompleted, Agrees, Replays, Fates, Begun, AR.Machine.Valid;
    var t := Resolve(s, valid);
    ResolveUnmoved(s, valid);
    UnmovedAgrees(oracle, arms, accepted, s, t);
    ResumeBooks(oracle, arms, accepted, t, valid);
  }

  lemma ResolveUnmoved(s: Pipe, valid: bool)
    ensures Unmoved(s, Resolve(s, valid)) && Resolve(s, valid).core.rc == s.core.rc
    ensures Rested(s.core) ==> Rested(Resolve(s, valid).core)
  {
  }

  lemma DrainAgrees(oracle: Oracle, arms: nat, accepted: seq<PL.Entry>, s: Pipe)
    requires Inv(s) && s.posts != [] && Agrees(oracle, arms, accepted, s)
    ensures s.core.rc.m.Valid()
    ensures
      var brought := BroughtIn(s, DrainOne);
      Agrees(oracle, arms,
             if brought == [] then accepted else Coalesced(accepted, s.core.pl.phase == PL.Idle, brought[0]),
             RunPost(oracle, Popped(s), s.posts[0]))
  {
    hide Inv, Agrees, Rested, SuspendFinished, ResumeFinished, PowerRequest, Recover, Coalesced;
    ShapedRested(s);
    RestedSound(s.core);
    PowerPostPhase(s);
    var t := Popped(s);
    UnmovedAgrees(oracle, arms, accepted, s, t);
    if s.posts[0].SuspendDone? {
      SuspendBooks(oracle, arms, accepted, t);
    } else if s.posts[0].ResumeDone? {
      ResumedBooks(oracle, arms, accepted, t, s.posts[0].valid);
    } else if s.posts[0].PowerSignal? {
      RequestBooks(oracle, arms, accepted, t, PL.Entry(s.posts[0].kind, PL.DBus));
    } else {
      ClosureUnmoved(oracle, s);
      UnmovedAgrees(oracle, arms, accepted, s, RunPost(oracle, t, s.posts[0]));
    }
  }

  lemma CommandAgrees(oracle: Oracle, arms: nat, accepted: seq<PL.Entry>, s: Pipe, msg: Message)
    requires Inv(s) && Agrees(oracle, arms, accepted, s)
    ensures s.core.rc.m.Valid()
    ensures
      var brought := BroughtIn(s, WireCommand(msg));
      Agrees(oracle, arms,
             if brought == [] then accepted else Coalesced(accepted, s.core.pl.phase == PL.Idle, brought[0]),
             HandleCommand(oracle, s, msg))
  {
    hide Inv, Agrees, Rested, HandleCommand, PowerRequest, Coalesced, OutcomeOf, StandbyAfter;
    ShapedRested(s);
    RestedSound(s.core);
    var r := HandleCommand(oracle, s, msg);
    if msg.ty in {CMD_SUSPEND, CMD_RESUME} {
      var e := PL.Entry(if msg.ty == CMD_SUSPEND then PL.Suspend else PL.Resume, PL.Wire);
      PowerCommandOutcome(oracle, s, msg);
      RequestBooks(oracle, arms, accepted, s, e);
      UnmovedAgrees(oracle, arms, Coalesced(accepted, s.core.pl.phase == PL.Idle, e), PowerRequest(oracle, s, e), r);
    } else {
      CommandOutcome(oracle, s, msg);
      UnmovedAgrees(oracle, arms, accepted, s, r);
    }
  }

  lemma NextAgrees(oracle: Oracle, arms: nat, accepted: seq<PL.Entry>, s: Pipe, step: Step)
    requires Inv(s) && Enabled(s, step) && Agrees(oracle, arms, accepted, s)
    ensures s.core.rc.m.Valid()
    ensures
      var brought := BroughtIn(s, step);
      Agrees(oracle, arms,
             if brought == [] then accepted else Coalesced(accepted, s.core.pl.phase == PL.Idle, brought[0]),
             Next(oracle, s, step))
  {
    hide Inv, Agrees, Rested, HandleCommand, RunPost, OnSafetyTimerFired, OnRetryTimerFired, RunJob, FinishJob;
    hide Enabled, Coalesced, Unmoved;
    ShapedRested(s);
    RestedSound(s.core);
    if step.WireCommand? {
      CommandAgrees(oracle, arms, accepted, s, step.msg);
    } else if step.DrainOne? {
      DrainIsEnabled(s);
      DrainAgrees(oracle, arms, accepted, s);
    } else if step.SafetyTimer? {
      SafetyAgrees(oracle, arms, accepted, s);
    } else {
      if step.Dequeue? || step.Reopening? || step.Perform? || step.Probe? || step.Finish? {
        WorkerUnmoved(oracle, s, step);
      } else {
        OutsideUnmoved(oracle, s, step);
      }
      UnmovedAgrees(oracle, arms, accepted, s, Next(oracle, s, step));
    }
  }

  // ---------------------------------------------------------------------
  // Runs
  // ---------------------------------------------------------------------

  lemma NothingAccepted(oracle: Oracle, s: Pipe)
    requires Initial(s)
    ensures s.core.rc.m.Valid() && Agrees(oracle, s.core.safetyArms, [], s)
  {
  }

  /**
   * In every run, whatever the interleaving: the requests begun followed by
   * those waiting are exactly the requests brought in, D-Bus signals as such
   * and commands from the wire, coalesced as they came; each suspend among
   * those begun has armed the safety timer once; and while a suspend is under
   * way and has not been forced, the timer is armed or expired unread exactly
   * if that arming succeeded.
   */
  lemma {:induction false} RequestsAreBegunInOrder(oracle: Oracle, s0: Pipe, steps: seq<Step>)
    requires Initial(s0)
    ensures s0.core.rc.m.Valid()
    ensures Agrees(oracle, s0.core.safetyArms, Accepted(oracle, s0, steps), After(oracle, s0, steps))
  {
    hide Initial, Inv, Agrees, Next, BroughtIn, Coalesced;
    if steps == [] {
      NothingAccepted(oracle, s0);
    } else {
      var before, step := steps[..|steps| - 1], steps[|steps| - 1];
      RequestsAreBegunInOrder(oracle, s0, before);
      AlwaysInv(oracle, s0, before);
      var s := After(oracle, s0, before);
      if Enabled(s, step) {
        NextAgrees(oracle, s0.core.safetyArms, Accepted(oracle, s0, before), s, step);
      } else {
        DisabledBringsNothing(s, step);
      }
    }
  }

  lemma DisabledBringsNothing(s: Pipe, step: Step)
    requires !Enabled(s, step)
    ensures BroughtIn(s, step) == []
  {
  }

  // ---------------------------------------------------------------------
  // The inhibit lock
  // ---------------------------------------------------------------------

  /** How many of the requests accepted have finished: all but those waiting and the one under way. */
  function Done(accepted: seq<PL.Entry>, m: PL.Machine): nat {
    var open := |m.pending| + if m.phase == PL.Idle then 0 else 1;
    if open <= |accepted| then |accepted| - open else 0
  }

  /**
   * In every run the calls made to the D-Bus monitor are one Release for each
   * bus suspend among the requests brought in and finished, one Take for each
   * bus resume, in order, and a Release for the bus suspend under way if it
   * has been forced; requests from the wire cause none.
   */
  lemma BusRequestsMoveTheLock(oracle: Oracle, s0: Pipe, steps: seq<Step>)
    requires Initial(s0)
    ensures
      var s := After(oracle, s0, steps);
      var accepted := Accepted(oracle, s0, steps);
      s.core.locks
      == if !s.core.monitored then []
         else PL.LocksOf(accepted[..Done(accepted, s.core.pl)]) + (if Forced(s.core.pl) then [PL.Release] else [])
  {
    hide Initial, After, Accepted, PL.LocksOf, SuspendsIn;
    MonitorCallsFollowRequests(oracle, s0, steps);
    RequestsAreBegunInOrder(oracle, s0, steps);
    var s := After(oracle, s0, steps);
    var accepted := Accepted(oracle, s0, steps);
    assert accepted[..Done(accepted, s.core.pl)] == Finished(s.started, s.core);
  }

  /**
   * A bus suspend whose timer was armed: when it expires and its handler
   * runs, the lock is released once and the suspend marked as forced.
   */
  lemma SafetyForcesRelease(oracle: Oracle, s: Pipe)
    requires Inv(s) && s.core.pl.phase == PL.Suspending && !s.core.pl.safetyFired
    requires s.core.monitored && s.core.safety == Armed
    ensures s.core.rc.m.Valid() && Enabled(s, SafetyExpires)
    ensures
      var t := Next(oracle, s, SafetyExpires);
      var u := Next(oracle, t, SafetyTimer);
      && u.core.locks == s.core.locks + (if s.core.pl.source == PL.DBus then [PL.Release] else [])
      && u.core.pl == s.core.pl.(safetyFired := true) && u.core.safety == Off
  {
    hide Books, Shape, OnSafetyTimerFired;
    ShapedRested(s);
    SafetyEffect(oracle, Next(oracle, s, SafetyExpires).core);
  }

  /** What finishing one request does to the lock before the next ones are looked at. */
  function LockOwed(m: PL.Machine): seq<PL.Lock> {
    if m.source == PL.Wire || m.phase == PL.Idle then []
    else if m.phase == PL.Resuming then [PL.Take]
    else if m.safetyFired then []
    else [PL.Release]
  }

  lemma SettledLock(c: Core, r: Core)
    requires Settled(c, r) && c.monitored
    ensures c.locks <= r.locks && (c.pl.pending == [] ==> r.locks == c.locks)
  {
    hide PL.LocksOf, TimerAgrees, AR.Machine.Valid;
    if c.pl.pending == [] {
      assert c.pl.pending[..0] == [];
      NoLocks();
    }
  }

  lemma NoLocks()
    ensures PL.LocksOf([]) == []
  {
  }

  lemma SuspendMovesTheLock(oracle: Oracle, c: Core)
    requires Rested(c) && c.pl.phase == PL.Suspending && c.monitored
    ensures
      var r := OnSuspendCompleted(oracle, c);
      && c.locks + LockOwed(c.pl) <= r.locks
      && (c.pl.pending == [] ==> r.locks == c.locks + LockOwed(c.pl))
  {
    hide Settled, OnSuspendCompleted, AR.Machine.Valid;
    assert c.locks + [] == c.locks;
    SuspendCompletedEffect(oracle, c);
    var (m, out) := PL.SuspendCompleted(c.pl);
    SettledLock(c.(pl := m, safety := Off, locks := c.locks + LockOwed(c.pl)), OnSuspendCompleted(oracle, c));
  }

  lemma ResumeMovesTheLock(oracle: Oracle, c: Core, valid: bool)
    requires Rested(c) && c.pl.phase == PL.Resuming && c.monitored
    ensures
      var r := OnResumeCompleted(oracle, c, valid);
      && c.locks + LockOwed(c.pl) <= r.locks
      && (c.pl.pending == [] ==> r.locks == c.locks + LockOwed(c.pl))
  {
    hide Settled, OnResumeCompleted, AR.Machine.Valid;
    assert c.locks + [] == c.locks;
    ResumeCompletedEffect(oracle, c, valid);
    var (m, out) := PL.ResumeCompleted(c.pl);
    SettledLock(c.(pl := m, locks := c.locks + LockOwed(c.pl)), OnResumeCompleted(oracle, c, valid));
  }

  /**
   * When a suspend or resume comes back, a bus suspend that was not forced
   * adds exactly one Release, a bus resume exactly one Take, and any other
   * request nothing; with nothing else waiting, that is all.
   */
  lemma CompletionMovesTheLock(oracle: Oracle, s: Pipe)
    requires Inv(s) && s.posts != [] && (s.posts[0].SuspendDone? || s.posts[0].ResumeDone?) && s.core.monitored
    ensures s.core.rc.m.Valid()
    ensures
      var r := Next(oracle, s, DrainOne);
      && s.core.locks + LockOwed(s.core.pl) <= r.core.locks
      && (s.core.pl.pending == [] ==> r.core.locks == s.core.locks + LockOwed(s.core.pl))
  {
    hide Inv, Rested, OnSuspendCompleted, OnResumeCompleted, Resolve, Begun, LockOwed, AR.Machine.Valid;
    ShapedRested(s);
    RestedSound(s.core);
    PowerPostPhase(s);
    if s.posts[0].SuspendDone? {
      SuspendMovesTheLock(oracle, s.core);
    } else {
      var t := Resolve(Popped(s), s.posts[0].valid);
      ResolveUnmoved(Popped(s), s.posts[0].valid);
      ResolveKeepsLock(Popped(s), s.posts[0].valid);
      ResumeMovesTheLock(oracle, t.core, s.posts[0].valid);
    }
  }

  lemma ResolveKeepsLock(s: Pipe, valid: bool)
    ensures
      var t := Resolve(s, valid);
      t.core.locks == s.core.locks && t.core.monitored == s.core.monitored && t.core.pl == s.core.pl
  {
  }
}
