/**
 * The daemon with its retry timer: left to itself it comes to an end, within
 * a bound on steps and on reconnect attempts.
 */
module PipelineTimed {
  import opened Supervisor
  import opened Timers
  import opened Pipeline
  import opened PipelineRuns
  import opened PipelineDrain
  import PL = Lifecycle
  import AR = Reconnect

  /** What the daemon does by itself, the retry timer included. */
  predicate Own(s: Pipe, step: Step) {
    Internal(step) || step.RetryExpires? || (step.RetryTimer? && s.core.rc.m.state.WaitingForRetry?)
  }

  /** The attempts the current cycle may still start. */
  function Left(m: AR.Machine): nat
    requires m.Valid()
  {
    match m.state
    case Idle => 0
    case WaitingForRetry => |m.delays| + 1 - m.position
    case Attempting => |m.delays| - m.position
  }

  /** The fresh cycles that the sequencer's requests may still start: a resume each, once begun. */
  function CoreCycles(c: Core): nat {
    2 * |c.pl.pending| + if c.pl.phase == PL.Resuming then 1 else 0
  }

  function PostCycles(p: Post): nat {
    match p
    case ConnectionLost => 1
    case PowerSignal(_) => 2
    case _ => 0
  }

  function PostsCycles(ps: seq<Post>): nat {
    if ps == [] then 0 else PostsCycles(ps[..|ps| - 1]) + PostCycles(ps[|ps| - 1])
  }

  function Cycles(s: Pipe): nat {
    CoreCycles(s.core) + PostsCycles(s.posts)
  }

  /** Starting `n` fresh cycles takes at most so many attempts. */
  function Fresh(m: AR.Machine, n: nat): nat {
    m.Total() * n
  }

  /** The attempts that may still be started without new input. */
  function Claim(s: Pipe): nat
    requires s.core.rc.m.Valid()
  {
    Left(s.core.rc.m) + Fresh(s.core.rc.m, Cycles(s))
  }

  /** Eight steps pay for an attempt: expiry, firing, and the six of its job. */
  function Fuel(s: Pipe): nat
    requires s.core.rc.m.Valid()
  {
    Measure(s) + 8 * Claim(s) + if s.core.rc.retry == Expired then 0 else 1
  }

  // ---------------------------------------------------------------------
  // Counting
  // ---------------------------------------------------------------------

  lemma {:induction false} PostsCyclesConcat(ps: seq<Post>, qs: seq<Post>)
    ensures PostsCycles(ps + qs) == PostsCycles(ps) + PostsCycles(qs)
  {
    if qs == [] {
      assert ps + qs == ps;
    } else {
      var last := |qs| - 1;
      assert (ps + qs)[..|ps| + last] == ps + qs[..last];
      PostsCyclesConcat(ps, qs[..last]);
    }
  }

  lemma PopCycles(ps: seq<Post>)
    requires ps != []
    ensures PostsCycles(ps) == PostCycles(ps[0]) + PostsCycles(ps[1..])
  {
    assert ps == [ps[0]] + ps[1..];
    PostsCyclesConcat([ps[0]], ps[1..]);
    assert [ps[0]][..0] == [];
  }

  lemma OneMoreCycles(ps: seq<Post>, p: Post)
    ensures PostsCycles(ps + [p]) == PostsCycles(ps) + PostCycles(p)
  {
    PostsCyclesConcat(ps, [p]);
    assert [p][..0] == [];
  }

  lemma FreshAdds(m: AR.Machine, a: nat, b: nat)
    ensures Fresh(m, a + b) == Fresh(m, a) + Fresh(m, b)
    ensures Fresh(m, 1) == m.Total() && Fresh(m, 2) == 2 * m.Total() && Fresh(m, 0) == 0
  {
    assert m.Total() * (a + b) == m.Total() * a + m.Total() * b;
  }

  lemma FreshMonotone(m: AR.Machine, a: nat, b: nat)
    requires a <= b
    ensures Fresh(m, a) <= Fresh(m, b)
  {
    FreshAdds(m, a, b - a);
  }

  lemma SameSchedule(m: AR.Machine, n: AR.Machine, a: nat)
    requires m.delays == n.delays
    ensures Fresh(m, a) == Fresh(n, a)
  {
  }

  lemma LeftIsBounded(m: AR.Machine)
    requires m.Valid()
    ensures Left(m) <= m.Total()
    ensures m.state.WaitingForRetry? ==> Left(m) >= 1
  {
  }

  // ---------------------------------------------------------------------
  // What a step claims
  // ---------------------------------------------------------------------

  /**
   * The attempts started and those still claimed do not grow together; doing
   * away with an expired timer gives up a claim.
   */
  ghost predicate Frugal(s: Pipe, r: Pipe)
    requires s.core.rc.m.Valid() && r.core.rc.m.Valid()
  {
    && r.core.rc.attempts >= s.core.rc.attempts
    && r.core.rc.attempts + Claim(r) <= s.core.rc.attempts + Claim(s)
    && (s.core.rc.retry == Expired ==> r.core.rc.retry == Expired || Claim(r) < Claim(s))
  }

  lemma SameClaim(s: Pipe, r: Pipe)
    requires s.core.rc.m.Valid() && r.core.rc == s.core.rc && Cycles(r) <= Cycles(s)
    ensures Frugal(s, r)
  {
    hide Fresh, Left, Cycles, AR.Machine.Valid;
    FreshMonotone(s.core.rc.m, Cycles(r), Cycles(s));
  }

  /** A start given up pays for whatever cycle comes of it. */
  lemma CyclePays(s: Pipe, r: Pipe)
    requires s.core.rc.m.Valid() && r.core.rc.m.Valid() && r.core.rc.m.delays == s.core.rc.m.delays
    requires TimerAgrees(s.core.rc) && Cycles(r) < Cycles(s) && r.core.rc.attempts >= s.core.rc.attempts
    requires r.core.rc.attempts + Left(r.core.rc.m) <= s.core.rc.attempts + s.core.rc.m.Total()
    ensures Frugal(s, r)
  {
    hide Fresh, Left, Cycles, AR.Machine.Valid;
    LeftIsBounded(s.core.rc.m);
    SameSchedule(r.core.rc.m, s.core.rc.m, Cycles(r));
    FreshAdds(s.core.rc.m, Cycles(r), 1);
    FreshMonotone(s.core.rc.m, Cycles(r) + 1, Cycles(s));
  }

  /** The current cycle goes on. */
  lemma CycleGoesOn(s: Pipe, r: Pipe)
    requires s.core.rc.m.Valid() && r.core.rc.m.Valid() && r.core.rc.m.delays == s.core.rc.m.delays
    requires Cycles(r) <= Cycles(s) && r.core.rc.attempts >= s.core.rc.attempts
    requires r.core.rc.attempts + Left(r.core.rc.m) <= s.core.rc.attempts + Left(s.core.rc.m)
    ensures r.core.rc.attempts + Claim(r) <= s.core.rc.attempts + Claim(s)
  {
    hide Fresh, Left, Cycles, AR.Machine.Valid;
    SameSchedule(r.core.rc.m, s.core.rc.m, Cycles(r));
    FreshMonotone(s.core.rc.m, Cycles(r), Cycles(s));
  }

  // ---------------------------------------------------------------------
  // The sequencer
  // ---------------------------------------------------------------------

  /** Either recovery is untouched, or a start is given up; no attempt is started. */
  ghost predicate Advances(c: Core, r: Core, cycles: nat) {
    && r.rc.m.Valid() && r.rc.m.delays == c.rc.m.delays && r.rc.attempts == c.rc.attempts
    && (CoreCycles(r) < cycles || (CoreCycles(r) == cycles && r.rc == c.rc))
  }

  lemma SettledCycles(c: Core, r: Core)
    requires AtRest(c) && Settled(c, r) && c.pl.pending != []
    ensures CoreCycles(r) < CoreCycles(c) && r.rc.attempts == c.rc.attempts && r.rc.m.Valid()
  {
    hide TimerAgrees, AR.Machine.Valid;
  }

  lemma PumpAdvances(oracle: Oracle, c: Core)
    requires AtRest(c)
    ensures Advances(c, Pump(oracle, c), CoreCycles(c))
  {
    hide Settled, CoreCycles, AR.Machine.Valid;
    if c.pl.pending == [] {
      EmptyPump(oracle, c);
    } else {
      PumpSettles(oracle, c);
      SettledCycles(c, Pump(oracle, c));
    }
  }

  lemma SuspendAdvances(oracle: Oracle, c: Core)
    requires Rested(c) && c.pl.phase == PL.Suspending
    ensures Advances(c, OnSuspendCompleted(oracle, c), CoreCycles(c))
  {
    hide Pump;
    var (m, out) := PL.SuspendCompleted(c.pl);
    ApplyIsPump(oracle, c.(pl := m), out);
    PumpAdvances(oracle, Prepare(oracle, c.(pl := m), out));
  }

  lemma ResumeAdvances(oracle: Oracle, c: Core, valid: bool)
    requires Rested(c) && c.pl.phase == PL.Resuming
    ensures
      var r := OnResumeCompleted(oracle, c, valid);
      && r.rc.m.Valid() && r.rc.m.delays == c.rc.m.delays && r.rc.attempts == c.rc.attempts
      && CoreCycles(r) < CoreCycles(c)
  {
    hide Pump;
    var (m, out) := PL.ResumeCompleted(c.pl);
    ApplyIsPump(oracle, c.(pl := m), out);
    var q := Prepare(oracle, c.(pl := m), out);
    PumpAdvances(oracle, q);
    PumpedTimer(oracle, q);
    var r := Pump(oracle, q);
    SeedEffect(oracle, r.rc, r.Gate());
  }

  lemma PumpedTimer(oracle: Oracle, c: Core)
    requires AtRest(c)
    ensures TimerAgrees(Pump(oracle, c).rc)
  {
    hide Pump;
    PumpSettles(oracle, c);
  }

  lemma RequestAdvances(oracle: Oracle, c: Core, e: PL.Entry)
    requires Rested(c)
    ensures Advances(c, Requested(oracle, c, e), CoreCycles(c) + 2) || Requested(oracle, c, e) == c
  {
    hide Settled, Pump, Requested;
    RequestEffect(oracle, c, e);
    var q := c.(pl := PL.Requested(c.pl, e));
    if c.pl.phase == PL.Idle {
      SettledCycles(q, Requested(oracle, c, e));
    }
  }

  // ---------------------------------------------------------------------
  // The reconnect machine
  // ---------------------------------------------------------------------

  lemma ScheduleLeft(oracle: Oracle, c: Recovery, gate: Gate, out: AR.Output)
    requires c.m.Valid() && c.m.state.WaitingForRetry? && out.effect.ScheduleRetry?
    ensures
      var c' := Execute(oracle, c, gate, out).0;
      c'.m.Valid() && c'.attempts == c.attempts && Left(c'.m) <= Left(c.m)
  {
    var (m, out1) := AR.Transition(c.m, AR.TimerArmFailed);
    var c1 := c.(arms := c.arms + 1, retry := Rearmed(c.retry, out.delay, oracle.retry(c.arms)), m := m);
    assert Execute(oracle, c1, gate, out1) == (c1.(abandoned := c1.abandoned + 1), []);
  }

  /** A result starts nothing; a failure uses up its attempt. */
  lemma ResultLeft(oracle: Oracle, c: Recovery, gate: Gate, ok: bool)
    requires c.m.Valid() && TimerAgrees(c)
    ensures
      var c' := OnReconnectResult(oracle, c, gate, ok).0;
      && c'.m.Valid() && c'.attempts == c.attempts && Left(c'.m) <= Left(c.m)
      && (c.retry != Off ==> c' == c)
  {
    var (m, out) := AR.Transition(c.m, if ok then AR.AttemptSucceeded else AR.AttemptFailed);
    if out.effect.ScheduleRetry? {
      ScheduleLeft(oracle, c.(m := m), gate, out);
    }
  }

  /** Starting an attempt takes one from those left, whatever the gate makes of it. */
  lemma StartLeft(oracle: Oracle, c: Recovery, gate: Gate, e: AR.Event)
    requires c.m.Valid() && AR.Transition(c.m, e).1.effect.StartAttempt?
    ensures
      var c' := Signal(oracle, c, gate, e).0;
      && c'.m.Valid() && c'.attempts == c.attempts + 1
      && Left(c'.m) <= Left(AR.Transition(c.m, e).0)
  {
    var (m, out) := AR.Transition(c.m, e);
    var started := c.(m := m, retry := Off, attempts := c.attempts + 1);
    assert Signal(oracle, c, gate, e) == SubmitReconnectAttempt(oracle, started, gate);
    ResultLeft(oracle, started, gate, gate.Connected?);
  }

  /** A loss is absorbed, or begins a cycle. */
  lemma LossLeft(oracle: Oracle, c: Recovery, gate: Gate)
    requires c.m.Valid() && TimerAgrees(c)
    ensures
      var c' := Signal(oracle, c, gate, AR.ConnectionLost).0;
      && c'.m.Valid() && c'.attempts >= c.attempts
      && c'.attempts + Left(c'.m) <= c.attempts + if c' == c then Left(c.m) else c.m.Total()
  {
    var (m, out) := AR.Transition(c.m, AR.ConnectionLost);
    if out.effect.StartAttempt? {
      StartLeft(oracle, c, gate, AR.ConnectionLost);
    } else if out.effect.ScheduleRetry? {
      ScheduleLeft(oracle, c.(m := m), gate, out);
    }
  }

  lemma RetryLeft(oracle: Oracle, c: Recovery, gate: Gate)
    requires c.m.Valid() && c.m.state.WaitingForRetry?
    ensures
      var c' := Signal(oracle, c, gate, AR.RetryTimerFired).0;
      c'.m.Valid() && c'.attempts == c.attempts + 1 && Left(c'.m) < Left(c.m)
  {
    StartLeft(oracle, c, gate, AR.RetryTimerFired);
  }

  // ---------------------------------------------------------------------
  // Steps
  // ---------------------------------------------------------------------

  lemma SignalFrugal(oracle: Oracle, s: Pipe, p: Post)
    requires Rested(s.core) && (p.ConnectionLost? || p.ReconnectDone?)
    requires s.posts != [] && s.posts[0] == p
    ensures
      var e := if p.ConnectionLost? then AR.ConnectionLost else if p.ok then AR.AttemptSucceeded else AR.AttemptFailed;
      Frugal(s, Popped(s).(core := Recover(oracle, s.core, e)))
  {
    hide Frugal, Left, Signal, Claim, PostsCycles;
    var e := if p.ConnectionLost? then AR.ConnectionLost else if p.ok then AR.AttemptSucceeded else AR.AttemptFailed;
    var r := Popped(s).(core := Recover(oracle, s.core, e));
    PopCycles(s.posts);
    if p.ConnectionLost? {
      LossLeft(oracle, s.core.rc, s.core.Gate());
      if r.core.rc == s.core.rc {
        SameClaim(s, r);
      } else {
        CyclePays(s, r);
      }
    } else {
      ResultIsSignal(oracle, s.core.rc, s.core.Gate(), p.ok);
      ResultLeft(oracle, s.core.rc, s.core.Gate(), p.ok);
      ResultFrugal(s, r);
    }
  }

  lemma ResultIsSignal(oracle: Oracle, c: Recovery, gate: Gate, ok: bool)
    requires c.m.Valid()
    ensures Signal(oracle, c, gate, if ok then AR.AttemptSucceeded else AR.AttemptFailed)
         == OnReconnectResult(oracle, c, gate, ok)
  {
  }

  lemma ResultFrugal(s: Pipe, r: Pipe)
    requires s.core.rc.m.Valid() && r.core.rc.m.Valid() && r.core.rc.m.delays == s.core.rc.m.delays
    requires Cycles(r) <= Cycles(s) && r.core.rc.attempts == s.core.rc.attempts
    requires Left(r.core.rc.m) <= Left(s.core.rc.m) && (s.core.rc.retry != Off ==> r.core.rc == s.core.rc)
    ensures Frugal(s, r)
  {
    hide Left, Cycles, Claim;
    CycleGoesOn(s, r);
  }

  /** A completion or a request, handled by the sequencer. */
  lemma SequencerFrugal(s: Pipe, r: Pipe, cycles: nat)
    requires s.core.rc.m.Valid() && TimerAgrees(s.core.rc) && Advances(s.core, r.core, cycles)
    requires cycles + PostsCycles(r.posts) <= Cycles(s)
    ensures Frugal(s, r)
  {
    hide CoreCycles, PostsCycles, Frugal, Left, AR.Machine.Valid;
    if r.core.rc == s.core.rc {
      SameClaim(s, r);
    } else {
      LeftIsBounded(r.core.rc.m);
      CyclePays(s, r);
    }
  }
}
