/** The calls made to the D-Bus monitor, over every run. */
module PipelineLocks {
  import opened Seqs
  import opened Wire
  import opened Supervisor
  import opened Timers
  import opened Pipeline
  import opened PipelineMoves
  import opened PipelineShape
  import opened PipelineInvariant
  import opened PipelineRuns
  import PL = Lifecycle
  import AR = Reconnect

  /** The requests begun and since finished. */
  function Finished(started: seq<PL.Entry>, c: Core): seq<PL.Entry>
    requires c.pl.phase == PL.Idle || started != []
  {
    if c.pl.phase == PL.Idle then started else started[..|started| - 1]
  }

  ghost predicate Forced(m: PL.Machine) {
    m.phase == PL.Suspending && m.safetyFired && m.source == PL.DBus
  }

  /** The last request begun is the active one; the locks are those of the finished ones, and a forced release. */
  ghost predicate LocksFollow(started: seq<PL.Entry>, c: Core) {
    && (c.pl.phase != PL.Idle ==> started != [] && c.pl.Active() == Some(started[|started| - 1]))
    && c.locks == if !c.monitored then []
                  else PL.LocksOf(Finished(started, c)) + (if Forced(c.pl) then [PL.Release] else [])
  }

  lemma BegunSplits(started: seq<PL.Entry>, pending: seq<PL.Entry>, k: nat)
    requires k < |pending|
    ensures Begun(pending, pending[k..][1..]) == pending[..k] + [pending[k]]
    ensures
      var begun := started + Begun(pending, pending[k..][1..]);
      begun[..|begun| - 1] == started + pending[..k] && begun[|begun| - 1] == pending[k]
  {
  }

  lemma BegunAll(pending: seq<PL.Entry>)
    ensures Begun(pending, []) == pending == pending[..|pending|]
  {
  }

  lemma SettledLocks(started: seq<PL.Entry>, c: Core, r: Core)
    requires AtRest(c) && Settled(c, r) && LocksFollow(started, c)
    ensures LocksFollow(started + Begun(c.pl.pending, r.pl.pending), r)
  {
    hide FlatMap, PL.LocksOf, TimerAgrees, AR.Machine.Valid, Begun;
    var k := Skipped(c.suspended, c.pl.pending);
    PL.LocksOfConcat(started, c.pl.pending[..k]);
    var begun := started + Begun(c.pl.pending, r.pl.pending);
    if k < |c.pl.pending| {
      BegunSplits(started, c.pl.pending, k);
      assert Finished(begun, r) == started + c.pl.pending[..k];
    } else {
      BegunAll(c.pl.pending);
    }
  }

  /** Finishing the active request adds its lock call, unless it was forced already. */
  lemma CompletionLocks(started: seq<PL.Entry>, c: Core, q: Core)
    requires LocksFollow(started, c) && c.pl.phase != PL.Idle
    requires
      var (m, out) := if c.pl.phase == PL.Suspending then PL.SuspendCompleted(c.pl) else PL.ResumeCompleted(c.pl);
      && q.pl == m && q.monitored == c.monitored
      && q.locks == c.locks + if c.monitored && out.lock.Some? then [out.lock.value] else []
    ensures LocksFollow(started, q)
  {
    var last := |started| - 1;
    FlatMapOne(PL.LockOf, started[..last], started[last]);
    assert started == started[..last] + [started[last]];
  }

  lemma RequestedLocks(oracle: Oracle, started: seq<PL.Entry>, c: Core, e: PL.Entry)
    requires Rested(c) && LocksFollow(started, c)
    ensures
      var r := Requested(oracle, c, e);
      LocksFollow(started + Begun(PL.Requested(c.pl, e).pending, r.pl.pending), r)
  {
    hide Settled, ApplyLifecycle;
    RequestEffect(oracle, c, e);
    if c.pl.phase == PL.Idle {
      SettledLocks(started, c.(pl := PL.Requested(c.pl, e)), Requested(oracle, c, e));
    } else {
      assert started + [] == started;
    }
  }

  lemma SuspendCompletedLocks(oracle: Oracle, started: seq<PL.Entry>, c: Core)
    requires Rested(c) && c.pl.phase == PL.Suspending && LocksFollow(started, c)
    ensures
      var r := OnSuspendCompleted(oracle, c);
      LocksFollow(started + Begun(c.pl.pending, r.pl.pending), r)
  {
    hide Settled, OnSuspendCompleted;
    SuspendCompletedEffect(oracle, c);
    var (m, out) := PL.SuspendCompleted(c.pl);
    var q := c.(pl := m, safety := Off,
                locks := c.locks + if c.monitored && out.lock.Some? then [out.lock.value] else []);
    CompletionLocks(started, c, q);
    SettledLocks(started, q, OnSuspendCompleted(oracle, c));
  }

  lemma ResumeCompletedLocks(oracle: Oracle, started: seq<PL.Entry>, c: Core, valid: bool)
    requires Rested(c) && c.pl.phase == PL.Resuming && LocksFollow(started, c)
    ensures
      var r := OnResumeCompleted(oracle, c, valid);
      LocksFollow(started + Begun(c.pl.pending, r.pl.pending), r)
  {
    hide Settled, OnResumeCompleted;
    ResumeCompletedEffect(oracle, c, valid);
    var (m, out) := PL.ResumeCompleted(c.pl);
    var q := c.(pl := m, locks := c.locks + if c.monitored && out.lock.Some? then [out.lock.value] else []);
    CompletionLocks(started, c, q);
    SettledLocks(started, q, OnResumeCompleted(oracle, c, valid));
  }

  /** A post, a command or a firing: the lock calls keep following the requests. */
  ghost predicate Follows(s: Pipe) {
    LocksFollow(s.started, s.core)
  }

  lemma RequestLocks(oracle: Oracle, s: Pipe, e: PL.Entry)
    requires Rested(s.core) && Follows(s)
    ensures Follows(PowerRequest(oracle, s, e))
  {
    hide LocksFollow, Requested;
    RequestedLocks(oracle, s.started, s.core, e);
  }

  lemma SuspendFinishedLocks(oracle: Oracle, s: Pipe)
    requires Rested(s.core) && s.core.pl.phase == PL.Suspending && Follows(s)
    ensures Follows(SuspendFinished(oracle, s))
  {
    hide LocksFollow, OnSuspendCompleted;
    SuspendCompletedLocks(oracle, s.started, s.core);
  }

  lemma ResumeFinishedLocks(oracle: Oracle, s: Pipe, valid: bool)
    requires Rested(s.core) && s.core.pl.phase == PL.Resuming && Follows(s)
    ensures Follows(ResumeFinished(oracle, s, valid))
  {
    hide OnResumeCompleted;
    ResumeCompletedLocks(oracle, s.started, Resolve(s, valid).core, valid);
  }

  /** Steps that leave the sequencer and the monitor alone. */
  ghost predicate SameSequencer(s: Pipe, r: Pipe) {
    && r.started == s.started
    && r.core.pl == s.core.pl && r.core.locks == s.core.locks && r.core.monitored == s.core.monitored
  }

  lemma SameLocks(s: Pipe, r: Pipe)
    requires Follows(s) && SameSequencer(s, r)
    ensures Follows(r)
  {
  }

  lemma PostLocks(oracle: Oracle, s: Pipe)
    requires Inv(s) && s.posts != [] && Follows(s)
    ensures Follows(RunPost(oracle, Popped(s), s.posts[0]))
  {
    hide Books, Follows, Shape, Flight, SuspendFinished, ResumeFinished, PowerRequest, Signal;
    PowerPostPhase(s);
    SameLocks(s, Popped(s));
    match s.posts[0] {
      case SuspendDone => SuspendFinishedLocks(oracle, Popped(s));
      case ResumeDone(valid) => ResumeFinishedLocks(oracle, Popped(s), valid);
      case PowerSignal(kind) => RequestLocks(oracle, Popped(s), PL.Entry(kind, PL.DBus));
      case _ => SameLocks(s, RunPost(oracle, Popped(s), s.posts[0]));
    }
  }

  lemma CommandLocks(oracle: Oracle, s: Pipe, msg: Message)
    requires Rested(s.core) && Follows(s)
    ensures Follows(HandleCommand(oracle, s, msg))
  {
    hide Follows, PowerRequest, DispatchOf;
    var t := s.(nextId := s.nextId + 1);
    SameLocks(s, t);
    SameLocks(s, Dispatch(t, Request(s.nextId, msg)));
    SameLocks(s, Respond(t, Request(s.nextId, msg), Error));
    forall kind
      ensures Follows(Respond(PowerRequest(oracle, t, PL.Entry(kind, PL.Wire)), Request(s.nextId, msg), Success))
    {
      RequestLocks(oracle, t, PL.Entry(kind, PL.Wire));
      var u := PowerRequest(oracle, t, PL.Entry(kind, PL.Wire));
      SameLocks(u, Respond(u, Request(s.nextId, msg), Success));
    }
  }

  lemma SafetyLocks(oracle: Oracle, s: Pipe)
    requires Rested(s.core) && Follows(s)
    ensures Follows(s.(core := OnSafetyTimerFired(oracle, s.core)))
  {
    SafetyEffect(oracle, s.core);
  }

  lemma InvRested(s: Pipe)
    requires Inv(s)
    ensures s.core.rc.m.Valid() && Rested(s.core)
  {
    hide Books, Shape;
  }

  lemma RecoverySequencer(oracle: Oracle, s: Pipe)
    requires s.core.rc.m.Valid()
    ensures SameSequencer(s, s.(core := OnRetryTimerFired(oracle, s.core)))
  {
    hide Signal, AR.Machine.Valid;
  }

  lemma WorkerSequencer(s: Pipe, ok: bool)
    ensures s.stage.Fetched? ==> SameSequencer(s, RunJob(s, ok))
    ensures s.stage.Ran? ==> SameSequencer(s, FinishJob(s))
  {
    hide AdapterCalls, Completion;
  }

  /** The steps of the worker. */
  lemma WorkerStays(oracle: Oracle, s: Pipe, step: Step)
    requires s.core.rc.m.Valid() && Enabled(s, step)
    requires step.Dequeue? || step.Reopening? || step.Perform? || step.Probe? || step.Finish?
    ensures SameSequencer(s, Next(oracle, s, step))
  {
    hide RunJob, FinishJob, Reopens, AR.Machine.Valid;
    if step.Perform? {
      WorkerSequencer(s, step.ok);
    } else if step.Finish? {
      WorkerSequencer(s, false);
    }
  }

  lemma SequencerStays(oracle: Oracle, s: Pipe, step: Step)
    requires s.core.rc.m.Valid() && Enabled(s, step)
    requires !step.WireCommand? && !step.DrainOne? && !step.SafetyTimer?
    ensures SameSequencer(s, Next(oracle, s, step))
  {
    hide HandleCommand, RunPost, OnSafetyTimerFired, OnRetryTimerFired, RunJob, FinishJob, Enabled, AR.Machine.Valid;
    if step.RetryTimer? {
      RecoverySequencer(oracle, s);
    } else if step.Dequeue? || step.Reopening? || step.Perform? || step.Probe? || step.Finish? {
      WorkerStays(oracle, s, step);
    }
  }

  lemma NextLocks(oracle: Oracle, s: Pipe, step: Step)
    requires Inv(s) && Enabled(s, step) && Follows(s)
    ensures Follows(Next(oracle, s, step))
  {
    hide Inv, Rested, Follows, HandleCommand, RunPost, OnSafetyTimerFired, AdapterCalls, Completion, Reopens;
    InvRested(s);
    if step.WireCommand? {
      CommandLocks(oracle, s, step.msg);
    } else if step.DrainOne? {
      PostLocks(oracle, s);
    } else if step.SafetyTimer? {
      SafetyLocks(oracle, s);
    } else {
      SequencerStays(oracle, s, step);
      SameLocks(s, Next(oracle, s, step));
    }
  }
}
