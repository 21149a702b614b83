/**
 * What comes in from the adapter and the bus is handled, all of it and in
 * order; the standby policy asks for exactly the suspends it should; parked
 * commands meet the fate that the resume's verdict on the adapter gives them.
 */
module PipelineArrivals {
  import opened Seqs
  import opened Wire
  import opened Supervisor
  import opened Pipeline
  import opened PipelineRuns
  import opened PipelineTruth
  import opened PipelineRequests
  import PL = Lifecycle
  import AR = Reconnect

  /** Closures that bring something from outside, and the one that arms the standby policy. */
  function External(p: Post): seq<Post> {
    if p.ConnectionLost? || p.PowerSignal? || p.Observation? || p.ArmStandby? then [p] else []
  }

  /** Requests of the standby policy to suspend the system. */
  function SystemOf(p: Post): seq<Post> {
    if p.SuspendSystem? then [p] else []
  }

  /** The verdict of a finished resume: whether it found the adapter open. */
  function VerdictOf(p: Post): seq<bool> {
    if p.ResumeDone? then [p.valid] else []
  }

  /** What a step brings in. */
  function Arriving(step: Step): seq<Post> {
    match step
    case Alert => [ConnectionLost]
    case Observed(tvStandby) => [Observation(tvStandby)]
    case BusSignal(kind) => [PowerSignal(kind)]
    case _ => []
  }

  function Arrivals(steps: seq<Step>): seq<Post> {
    FlatMap(Arriving, steps)
  }

  /** The closure a step runs. */
  function Head(s: Pipe, step: Step): seq<Post> {
    if step.DrainOne? && s.posts != [] then [s.posts[0]] else []
  }

  /** The closures run so far, in order. */
  function Handled(oracle: Oracle, s0: Pipe, steps: seq<Step>): seq<Post>
    requires s0.core.rc.m.Valid()
  {
    if steps == [] then []
    else
      var before := steps[..|steps| - 1];
      Handled(oracle, s0, before) + Head(After(oracle, s0, before), steps[|steps| - 1])
  }

  /** The step runs a TV standby seen after the arming, with the switch on. */
  predicate Triggers(s: Pipe, step: Step, handled: seq<Post>, cases: seq<Case>, configured: bool) {
    Head(s, step) == [Observation(true)] && ArmStandby in handled && StandbyAfter(cases, configured)
  }

  /** The suspends the standby policy should have asked for. */
  function Triggered(oracle: Oracle, s0: Pipe, steps: seq<Step>): nat
    requires s0.core.rc.m.Valid()
  {
    if steps == [] then 0
    else
      var before := steps[..|steps| - 1];
      Triggered(oracle, s0, before)
      + if Triggers(After(oracle, s0, before), steps[|steps| - 1], Handled(oracle, s0, before),
                    Ledger(oracle, s0, before), s0.standbyEnabled) then 1 else 0
  }

  /** The adapter as each resume found it when it looked again. */
  function Probed(oracle: Oracle, s0: Pipe, steps: seq<Step>): seq<bool>
    requires s0.core.rc.m.Valid()
  {
    if steps == [] then []
    else
      var before := steps[..|steps| - 1];
      var s := After(oracle, s0, before);
      Probed(oracle, s0, before) + if steps[|steps| - 1].Probe? && s.stage == Reopened then [s.core.connected] else []
  }

  /** The fates handed out: all that was parked, by the verdict of the resume. */
  function Decided(oracle: Oracle, s0: Pipe, steps: seq<Step>): seq<Fate>
    requires s0.core.rc.m.Valid()
  {
    if steps == [] then []
    else
      var before := steps[..|steps| - 1];
      var s := After(oracle, s0, before);
      Decided(oracle, s0, before) + Verdict(s, steps[|steps| - 1])
  }

  function Verdict(s: Pipe, step: Step): seq<Fate> {
    if step.DrainOne? && s.posts != [] && s.posts[0].ResumeDone? then
      seq(|s.parked|, i requires 0 <= i < |s.parked| =>
        if s.posts[0].valid then Replayed(s.parked[i]) else Discarded(s.parked[i]))
    else []
  }

  /** The verdict of a resume that has looked and not yet reported. */
  function Pending(stage: Stage): seq<bool> {
    if stage.Ran? && stage.job.ResumeJob? then [stage.ok] else []
  }

  // ---------------------------------------------------------------------
  // One step
  // ---------------------------------------------------------------------

  /** What one step does to the queue of closures, the standby policy and the parked commands. */
  ghost predicate Handles(s: Pipe, r: Pipe, step: Step) {
    && (exists more :: Head(s, step) + r.posts == s.posts + more && Posted(s, step, more))
    && (r.standbyArmed <==> s.standbyArmed || Head(s, step) == [ArmStandby])
    && r.autoSuspends == s.autoSuspends + (if Head(s, step) == [SuspendSystem] then 1 else 0)
    && r.fates == s.fates + Verdict(s, step)
  }

  /** What a step may post. */
  ghost predicate Posted(s: Pipe, step: Step, more: seq<Post>) {
    more ==
      if step.Finish? && s.stage.Ran? then Completion(s.stage.job, s.stage.ok)
      else if Head(s, step) == [Observation(true)] && s.standbyArmed && s.standbyEnabled then [SuspendSystem]
      else Arriving(step)
  }

  lemma HandlesWith(s: Pipe, r: Pipe, step: Step, more: seq<Post>)
    requires Head(s, step) + r.posts == s.posts + more && Posted(s, step, more)
    requires r.standbyArmed <==> s.standbyArmed || Head(s, step) == [ArmStandby]
    requires r.autoSuspends == s.autoSuspends + (if Head(s, step) == [SuspendSystem] then 1 else 0)
    requires r.fates == s.fates + Verdict(s, step)
    ensures Handles(s, r, step)
  {
  }

  /** A step that neither posts nor runs a closure. */
  lemma HandlesNothing(s: Pipe, r: Pipe, step: Step)
    requires !step.DrainOne? && !step.Finish? && Arriving(step) == []
    requires r.posts == s.posts && r.standbyArmed == s.standbyArmed
    requires r.autoSuspends == s.autoSuspends && r.fates == s.fates
    ensures Handles(s, r, step)
  {
    assert s.posts + [] == s.posts && s.fates + [] == s.fates;
    HandlesWith(s, r, step, []);
  }

  lemma CommandHandles(oracle: Oracle, s: Pipe, msg: Message)
    requires s.core.rc.m.Valid()
    ensures Handles(s, HandleCommand(oracle, s, msg), WireCommand(msg))
  {
    hide HandleCommand, PowerRequest, OutcomeOf, StandbyAfter, Handles, AR.Machine.Valid;
    if msg.ty in {CMD_SUSPEND, CMD_RESUME} {
      PowerCommandOutcome(oracle, s, msg);
      PowerSpeaks(oracle, s, PL.Entry(if msg.ty == CMD_SUSPEND then PL.Suspend else PL.Resume, PL.Wire));
    } else {
      CommandOutcome(oracle, s, msg);
    }
    HandlesNothing(s, HandleCommand(oracle, s, msg), WireCommand(msg));
  }

  lemma WorkerHandles(oracle: Oracle, s: Pipe, step: Step)
    requires s.core.rc.m.Valid() && Enabled(s, step)
    requires step.Dequeue? || step.Reopening? || step.Perform? || step.Probe? || step.Finish?
    ensures Handles(s, Next(oracle, s, step), step)
  {
    hide AdapterCalls, Completion, Reopens, Handles, AR.Machine.Valid;
    var r := Next(oracle, s, step);
    if step.Finish? {
      assert s.fates + [] == s.fates && [] + r.posts == r.posts;
      HandlesWith(s, r, step, Completion(s.stage.job, s.stage.ok));
    } else {
      HandlesNothing(s, r, step);
    }
  }

  lemma OutsideHandles(oracle: Oracle, s: Pipe, step: Step)
    requires s.core.rc.m.Valid() && Enabled(s, step)
    requires step.SafetyExpires? || step.RetryExpires? || step.SafetyTimer? || step.RetryTimer?
             || step.Alert? || step.Observed? || step.BusSignal?
    ensures Handles(s, Next(oracle, s, step), step)
  {
    hide OnSafetyTimerFired, OnRetryTimerFired, Handles, AR.Machine.Valid;
    var r := Next(oracle, s, step);
    assert s.fates + [] == s.fates && [] + r.posts == r.posts;
    if Arriving(step) == [] {
      HandlesNothing(s, r, step);
    } else {
      HandlesWith(s, r, step, Arriving(step));
    }
  }

  /** What running a closure changes besides the sequencer and recovery. */
  lemma ClosureDoes(oracle: Oracle, s: Pipe, p: Post)
    requires s.core.rc.m.Valid()
    ensures
      var r := RunPost(oracle, s, p);
      && r.posts == s.posts
                    + (if p == Observation(true) && s.standbyArmed && s.standbyEnabled then [SuspendSystem] else [])
      && (r.standbyArmed <==> s.standbyArmed || p == ArmStandby)
      && r.autoSuspends == s.autoSuspends + (if p == SuspendSystem then 1 else 0)
      && (!p.ResumeDone? ==> r.fates == s.fates)
      && (p.ResumeDone? ==> r.fates == s.fates + Fates(s.parked, p.valid))
  {
    hide PowerRequest, SuspendFinished, ResumeFinished, Recover, Fates, AR.Machine.Valid;
    assert s.posts + [] == s.posts;
    if p.PowerSignal? {
      QuietPower(oracle, s, PL.Entry(p.kind, PL.DBus));
    } else if p.SuspendDone? {
      QuietCompletion(oracle, s);
    } else if p.ResumeDone? {
      ResumeDecides(oracle, s, p.valid);
    }
  }

  lemma ResumeDecides(oracle: Oracle, s: Pipe, valid: bool)
    requires s.core.rc.m.Valid()
    ensures
      var r := ResumeFinished(oracle, s, valid);
      && r.fates == s.fates + Fates(s.parked, valid) && r.posts == s.posts
      && r.standbyArmed == s.standbyArmed && r.autoSuspends == s.autoSuspends
  {
    hide OnResumeCompleted, Replays, Fates, AR.Machine.Valid;
  }

  lemma DrainHandles(oracle: Oracle, s: Pipe)
    requires s.core.rc.m.Valid() && s.posts != []
    ensures Handles(s, RunPost(oracle, Popped(s), s.posts[0]), DrainOne)
  {
    hide RunPost, Handles, AR.Machine.Valid;
    var p := s.posts[0];
    var r := RunPost(oracle, Popped(s), p);
    ClosureDoes(oracle, Popped(s), p);
    assert s.fates + [] == s.fates;
    var more := if p == Observation(true) && s.standbyArmed && s.standbyEnabled then [SuspendSystem] else [];
    assert [p] + (s.posts[1..] + more) == s.posts + more;
    HandlesWith(s, r, DrainOne, more);
  }

  lemma NextHandles(oracle: Oracle, s: Pipe, step: Step)
    requires s.core.rc.m.Valid() && Enabled(s, step)
    ensures Handles(s, Next(oracle, s, step), step)
  {
    hide Handles, Enabled, HandleCommand, RunPost, OnSafetyTimerFired, OnRetryTimerFired, RunJob, FinishJob;
    hide AR.Machine.Valid;
    if step.WireCommand? {
      CommandHandles(oracle, s, step.msg);
    } else if step.DrainOne? {
      DrainIsEnabled(s);
      DrainHandles(oracle, s);
    } else if step.Dequeue? || step.Reopening? || step.Perform? || step.Probe? || step.Finish? {
      WorkerHandles(oracle, s, step);
    } else {
      OutsideHandles(oracle, s, step);
    }
  }

  // ---------------------------------------------------------------------
  // The verdicts of resumes
  // ---------------------------------------------------------------------

  lemma CommandStage(oracle: Oracle, s: Pipe, msg: Message)
    requires s.core.rc.m.Valid()
    ensures HandleCommand(oracle, s, msg).stage == s.stage
  {
    hide HandleCommand, PowerRequest, OutcomeOf, StandbyAfter, AR.Machine.Valid;
    if msg.ty in {CMD_SUSPEND, CMD_RESUME} {
      PowerCommandOutcome(oracle, s, msg);
      PowerSpeaks(oracle, s, PL.Entry(if msg.ty == CMD_SUSPEND then PL.Suspend else PL.Resume, PL.Wire));
    } else {
      CommandOutcome(oracle, s, msg);
    }
  }

  lemma ClosureStage(oracle: Oracle, s: Pipe, p: Post)
    requires s.core.rc.m.Valid()
    ensures RunPost(oracle, s, p).stage == s.stage
  {
    hide RunPost, AR.Machine.Valid;
    if p.Answer? {
      AnswerIsRespond(oracle, s, p);
    } else {
      QuietPost(oracle, s, p);
    }
  }

  lemma PerformHoldsNoVerdict(s: Pipe, ok: bool)
    requires s.stage.Fetched?
    ensures Pending(RunJob(s, ok).stage) == []
  {
    hide AdapterCalls;
  }

  /** How the worker's stage changes the verdict it holds. */
  lemma StageVerdicts(oracle: Oracle, s: Pipe, step: Step)
    requires s.core.rc.m.Valid() && Enabled(s, step)
    ensures
      Pending(Next(oracle, s, step).stage)
      == if step.Probe? then [s.core.connected] else if step.Finish? then [] else Pending(s.stage)
  {
    hide HandleCommand, RunPost, RunJob, Completion, OnSafetyTimerFired, OnRetryTimerFired, AR.Machine.Valid, Reopens;
    if step.WireCommand? {
      CommandStage(oracle, s, step.msg);
    } else if step.DrainOne? {
      ClosureStage(oracle, Popped(s), s.posts[0]);
    } else if step.Perform? {
      PerformHoldsNoVerdict(s, step.ok);
    } else if step.Probe? {
      assert Pending(Next(oracle, s, step).stage) == [s.core.connected];
    } else if step.Finish? || step.Dequeue? || step.Reopening? {
      assert Pending(Next(oracle, s, step).stage) == [];
    } else {
      assert Next(oracle, s, step).stage == s.stage;
    }
  }

  // ---------------------------------------------------------------------
  // Runs
  // ---------------------------------------------------------------------

  /** The books of a run so far. */
  ghost predicate Accounted(arrived: seq<Post>, handled: seq<Post>, triggered: nat, probed: seq<bool>,
                            fates: seq<Fate>, s: Pipe) {
    && arrived == FlatMap(External, handled) + FlatMap(External, s.posts)
    && (s.standbyArmed <==> ArmStandby in handled)
    && |FlatMap(SystemOf, handled)| == s.autoSuspends
    && triggered == s.autoSuspends + |FlatMap(SystemOf, s.posts)|
    && probed == FlatMap(VerdictOf, handled) + FlatMap(VerdictOf, s.posts) + Pending(s.stage)
    && s.fates == fates
  }

  lemma QueueMoves<B>(f: Post -> seq<B>, handled: seq<Post>, head: seq<Post>, before: seq<Post>, after: seq<Post>,
                      more: seq<Post>)
    requires head + after == before + more
    ensures FlatMap(f, handled + head) + FlatMap(f, after)
         == FlatMap(f, handled) + FlatMap(f, before) + FlatMap(f, more)
  {
    hide FlatMap;
    FlatMapConcat(f, handled, head);
    FlatMapConcat(f, head, after);
    FlatMapConcat(f, before, more);
    Reassociated(FlatMap(f, handled), FlatMap(f, head), FlatMap(f, after), FlatMap(f, before), FlatMap(f, more));
  }

  lemma Reassociated<B>(a: seq<B>, b: seq<B>, c: seq<B>, d: seq<B>, e: seq<B>)
    requires b + c == d + e
    ensures (a + b) + c == (a + d) + e
  {
    assert (a + b) + c == a + (b + c);
    assert (a + d) + e == a + (d + e);
  }

  lemma OneMaps(more: seq<Post>)
    requires |more| <= 1
    ensures FlatMap(External, more) == if more == [] then [] else External(more[0])
    ensures FlatMap(SystemOf, more) == if more == [] then [] else SystemOf(more[0])
    ensures FlatMap(VerdictOf, more) == if more == [] then [] else VerdictOf(more[0])
  {
    if more != [] {
      assert more == [more[0]];
      FlatMapOne(External, [], more[0]);
      FlatMapOne(SystemOf, [], more[0]);
      FlatMapOne(VerdictOf, [], more[0]);
    }
  }

  /** What a step posts, seen by each of the three projections. */
  lemma PostedMaps(s: Pipe, step: Step, more: seq<Post>)
    requires Posted(s, step, more) && Enabled(s, step)
    ensures FlatMap(External, more) == Arriving(step)
    ensures |FlatMap(SystemOf, more)|
         == if Head(s, step) == [Observation(true)] && s.standbyArmed && s.standbyEnabled then 1 else 0
    ensures FlatMap(VerdictOf, more) == if step.Finish? then Pending(s.stage) else []
  {
    hide Enabled, FlatMap;
    FinishEnabled(s);
    OneMaps(more);
  }

  lemma FinishEnabled(s: Pipe)
    ensures Enabled(s, Finish) <==> s.stage.Ran?
  {
  }

  lemma HeadMaps(head: seq<Post>)
    requires |head| <= 1
    ensures |FlatMap(SystemOf, head)| == if head == [SuspendSystem] then 1 else 0
  {
    if head != [] {
      assert head == [head[0]];
      FlatMapOne(SystemOf, [], head[0]);
    }
  }

  /** The queue of closures after one step. */
  lemma StepCounts(s: Pipe, r: Pipe, step: Step, arrived: seq<Post>, handled: seq<Post>, triggered: nat,
                   probed: seq<bool>, fates: seq<Fate>, more: seq<Post>)
    requires Accounted(arrived, handled, triggered, probed, fates, s) && Enabled(s, step)
    requires Head(s, step) + r.posts == s.posts + more && Posted(s, step, more)
    requires Handles(s, r, step)
    requires Pending(r.stage)
          == if step.Probe? then [s.core.connected] else if step.Finish? then [] else Pending(s.stage)
    ensures
      Accounted(arrived + Arriving(step), handled + Head(s, step),
                triggered
                + (if Head(s, step) == [Observation(true)] && s.standbyArmed && s.standbyEnabled then 1 else 0),
                probed + (if step.Probe? then [s.core.connected] else []), fates + Verdict(s, step), r)
  {
    hide FlatMap, Posted, Verdict, Enabled;
    var head := Head(s, step);
    PostedMaps(s, step, more);
    HeadMaps(head);
    FlatMapConcat(SystemOf, handled, head);
    QueueMoves(External, handled, head, s.posts, r.posts, more);
    QueueMoves(SystemOf, handled, head, s.posts, r.posts, more);
    QueueMoves(VerdictOf, handled, head, s.posts, r.posts, more);
    if step.Probe? {
      ProbeHoldsNothing(s, step);
    }
  }

  lemma ProbeHoldsNothing(s: Pipe, step: Step)
    requires Enabled(s, step) && step.Probe?
    ensures Pending(s.stage) == []
  {
  }

  /** The books of the run `steps` from `s0`. */
  ghost predicate RunAccounted(oracle: Oracle, s0: Pipe, steps: seq<Step>, s: Pipe)
    requires s0.core.rc.m.Valid()
  {
    Accounted(FlatMap(External, s0.posts) + Arrivals(steps), Handled(oracle, s0, steps), Triggered(oracle, s0, steps),
              Probed(oracle, s0, steps), Decided(oracle, s0, steps), s)
  }

  lemma NothingAccounted(oracle: Oracle, s: Pipe)
    requires Initial(s)
    ensures s.core.rc.m.Valid() && RunAccounted(oracle, s, [], s)
  {
    hide FlatMap;
    FlatMapNothing(External, []);
    FlatMapNothing(SystemOf, []);
    FlatMapNothing(VerdictOf, []);
    FlatMapNothing(Arriving, []);
    FlatMapNothing(SystemOf, s.posts);
    FlatMapNothing(VerdictOf, s.posts);
  }

  lemma StepAccounted(oracle: Oracle, s0: Pipe, before: seq<Step>, step: Step, s: Pipe)
    requires s0.core.rc.m.Valid() && s == After(oracle, s0, before) && RunAccounted(oracle, s0, before, s)
    requires Enabled(s, step) && s.standbyEnabled == StandbyAfter(Ledger(oracle, s0, before), s0.standbyEnabled)
    ensures RunAccounted(oracle, s0, before + [step], Next(oracle, s, step))
  {
    hide Accounted, Next, Posted, FlatMap, StandbyAfter, Ledger, After, Verdict;
    var r := Next(oracle, s, step);
    NextHandles(oracle, s, step);
    StageVerdicts(oracle, s, step);
    var more :| Head(s, step) + r.posts == s.posts + more && Posted(s, step, more);
    var handled := Handled(oracle, s0, before);
    StepCounts(s, r, step, FlatMap(External, s0.posts) + Arrivals(before), handled, Triggered(oracle, s0, before),
               Probed(oracle, s0, before), Decided(oracle, s0, before), more);
    FlatMapOne(Arriving, before, step);
    assert (before + [step])[..|before|] == before;
    ArmedWhenHandled(s, FlatMap(External, s0.posts) + Arrivals(before), handled, Triggered(oracle, s0, before),
                     Probed(oracle, s0, before), Decided(oracle, s0, before));
    ProbeEnabled(s);
    assert FlatMap(External, s0.posts) + (Arrivals(before) + Arriving(step))
        == (FlatMap(External, s0.posts) + Arrivals(before)) + Arriving(step);
  }

  lemma ArmedWhenHandled(s: Pipe, arrived: seq<Post>, handled: seq<Post>, triggered: nat, probed: seq<bool>,
                         fates: seq<Fate>)
    requires Accounted(arrived, handled, triggered, probed, fates, s)
    ensures s.standbyArmed <==> ArmStandby in handled
  {
  }

  lemma ProbeEnabled(s: Pipe)
    ensures Enabled(s, Probe) <==> s.stage == Reopened
  {
  }

  lemma DisabledAccounted(oracle: Oracle, s0: Pipe, before: seq<Step>, step: Step, s: Pipe)
    requires s0.core.rc.m.Valid() && s == After(oracle, s0, before) && RunAccounted(oracle, s0, before, s)
    requires !Enabled(s, step)
    ensures RunAccounted(oracle, s0, before + [step], s)
  {
    hide Accounted, FlatMap, StandbyAfter, Ledger, After;
    assert (before + [step])[..|before|] == before;
    FlatMapOne(Arriving, before, step);
    assert Arrivals(before) + [] == Arrivals(before);
    assert Handled(oracle, s0, before) + [] == Handled(oracle, s0, before);
    assert Probed(oracle, s0, before) + [] == Probed(oracle, s0, before);
    assert Decided(oracle, s0, before) + [] == Decided(oracle, s0, before);
  }

  /**
   * In every run: the alerts, observations and bus signals that came in are,
   * in order, exactly those handled followed by those still queued; the
   * standby policy has asked for exactly the suspends it should, one for each
   * TV standby handled after the arming with the switch on; the verdicts of
   * resumes, handled or on their way, are what each found when it looked at
   * the adapter again; and the parked commands have met exactly the fates
   * those verdicts gave them.
   */
  lemma {:induction false} ArrivalsAreHandled(oracle: Oracle, s0: Pipe, steps: seq<Step>)
    requires Initial(s0)
    ensures s0.core.rc.m.Valid() && RunAccounted(oracle, s0, steps, After(oracle, s0, steps))
  {
    hide Initial, RunAccounted, Next, Enabled, DealtWith, StandbyAfter, Ledger;
    if steps == [] {
      NothingAccounted(oracle, s0);
    } else {
      var before, step := steps[..|steps| - 1], steps[|steps| - 1];
      ArrivalsAreHandled(oracle, s0, before);
      RequestsAreDealtWith(oracle, s0, before);
      var s := After(oracle, s0, before);
      assert steps == before + [step];
      if Enabled(s, step) {
        StepAccounted(oracle, s0, before, step, s);
      } else {
        DisabledAccounted(oracle, s0, before, step, s);
      }
    }
  }
}
