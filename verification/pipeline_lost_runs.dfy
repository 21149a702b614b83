/** A lost adapter over runs: exactly which steps lead to one, and what becomes of it. */
module PipelineLostRuns {
  import opened Supervisor
  import opened Timers
  import opened Pipeline
  import opened PipelineMoves
  import opened PipelineShape
  import opened PipelineInvariant
  import opened PipelineRuns
  import opened PipelineAttempts
  import opened PipelineRecovery
  import opened PipelineRecoveryRuns
  import opened PipelineLost

  /** A missed loss is a lost adapter, with no cycle given up. */
  lemma MissLoses(oracle: Oracle, s: Pipe, step: Step)
    requires Inv(s) && Clean(s) && Covered(s) && Enabled(s, step) && Misses(s, step)
    ensures s.core.rc.m.Valid()
    ensures
      var r := Next(oracle, s, step);
      Clean(r) && Lost(r) && r.core.rc.abandoned == s.core.rc.abandoned
  {
    hide Books, Shape, Clean, Covered, Misses, Next, Requests, Completes, Cuts;
    MissIsSilent(s, step);
    OtherSame(oracle, s, step);
    CleanExactly(oracle, s, step);
    CoveredExactly(oracle, s, step);
    UncoveredIsLost(Next(oracle, s, step));
  }

  lemma MissIsSilent(s: Pipe, step: Step)
    requires Misses(s, step)
    ensures Requests(s, step).None? && Signals(s, step).None? && !Completes(s, step) && !Cuts(s, step)
    ensures !s.core.suspended
  {
    hide Sheltered, BusRequested;
  }

  lemma UncoveredIsLost(s: Pipe)
    requires !Covered(s) && !s.core.suspended
    ensures Lost(s)
  {
    hide Sheltered, BusRequested;
  }

  /** Nothing comes to the rescue in the course of the run. */
  predicate Unrescued(oracle: Oracle, s0: Pipe, steps: seq<Step>)
    requires s0.core.rc.m.Valid()
  {
    steps == []
    || (var before := After(oracle, s0, steps[..|steps| - 1]);
        var step := steps[|steps| - 1];
        && Unrescued(oracle, s0, steps[..|steps| - 1])
        && (Enabled(before, step) ==> !Rescues(before, step)))
  }

  /** The adapter is back, or recovery waits for its timer. */
  predicate Recovered(s: Pipe) {
    s.core.connected || (s.core.rc.m.state.WaitingForRetry? && s.core.rc.retry != Off)
  }

  lemma QuietLost(s: Pipe)
    requires Inv(s) && Quiet(s) && Lost(s)
    ensures !s.core.connected && s.core.rc.m.state.Idle? && s.core.rc.retry == Off
  {
    hide Ordered, Answered, Conserved, Alternates, ClosedAsleep, Shape;
    assert Flight(s) == [] && Attempts(s) == [];
  }

  lemma TakeLost(oracle: Oracle, s: Pipe, step: Step)
    requires Inv(s) && Clean(s) && Lost(s) && (Enabled(s, step) ==> !Rescues(s, step))
    ensures s.core.rc.m.Valid()
    ensures
      var r := Take(oracle, s, step);
      Clean(r) && Lost(r) && r.core.rc.abandoned == s.core.rc.abandoned
  {
    hide Books, Shape, Clean, Lost, Rescues, Next;
    if Enabled(s, step) {
      LostKeeps(oracle, s, step);
    }
  }

  /**
   * A lost adapter stays lost. As long as nothing comes to the rescue,
   * whatever else happens, the daemon remains awake with the adapter closed
   * and gives no cycle up; whenever it has nothing left to do, recovery is at
   * rest and no timer is running.
   */
  lemma {:induction false} LostStaysLost(oracle: Oracle, s0: Pipe, steps: seq<Step>)
    requires Inv(s0) && Clean(s0) && Lost(s0)
    ensures s0.core.rc.m.Valid()
    ensures Unrescued(oracle, s0, steps) ==>
              var s := After(oracle, s0, steps);
              && Clean(s) && Lost(s) && s.core.rc.abandoned == s0.core.rc.abandoned
              && (Quiet(s) ==> s.core.rc.m.state.Idle? && s.core.rc.retry == Off)
  {
    hide Inv, Clean, Lost, Rescues, Take, Enabled, Quiet;
    InvFrom(oracle, s0, steps);
    if steps != [] {
      var before := After(oracle, s0, steps[..|steps| - 1]);
      LostStaysLost(oracle, s0, steps[..|steps| - 1]);
      InvFrom(oracle, s0, steps[..|steps| - 1]);
      if Unrescued(oracle, s0, steps) {
        TakeLost(oracle, before, steps[|steps| - 1]);
      }
    }
    var s := After(oracle, s0, steps);
    if Unrescued(oracle, s0, steps) && Quiet(s) {
      QuietLost(s);
    }
  }

  /**
   * Exactly the misses strand the adapter. Take any run from the start in
   * which nothing is cut or missed, one more step that is not a cut, and
   * whatever follows that neither cuts, misses nor rescues: if by then the
   * daemon is awake with nothing left to do and no cycle has been given up,
   * the adapter is back or waited for if and only if that step missed nothing.
   */
  lemma ExactlyMissesStrand(oracle: Oracle, s0: Pipe, steps: seq<Step>, step: Step, more: seq<Step>)
    requires Initial(s0) && Undisturbed(oracle, s0, steps)
    requires
      var s := After(oracle, s0, steps);
      && Enabled(s, step) && !Cuts(s, step)
      && Undisturbed(oracle, Take(oracle, s, step), more) && Unrescued(oracle, Take(oracle, s, step), more)
    requires
      var t := After(oracle, Take(oracle, After(oracle, s0, steps), step), more);
      Quiet(t) && !t.core.suspended && t.core.rc.abandoned == s0.core.rc.abandoned
    ensures
      var s := After(oracle, s0, steps);
      Recovered(After(oracle, Take(oracle, s, step), more)) <==> !Misses(s, step)
  {
    hide Inv, Clean, Covered, Cuts, Misses, Take, After, Enabled, Quiet, Undisturbed, Unrescued;
    InitialCovered(s0);
    LostAdapterIsRecovered(oracle, s0, steps);
    InvFrom(oracle, s0, steps);
    var s := After(oracle, s0, steps);
    AbandonedGrows(oracle, s, step);
    TakeKeeps(oracle, s, step);
    LaterAbandons(oracle, Take(oracle, s, step), more);
    InvFrom(oracle, Take(oracle, s, step), more);
    if Misses(s, step) {
      MissEnds(oracle, s, step, more);
    } else {
      CoverEnds(oracle, s, step, more);
    }
  }

  lemma {:induction false} LaterAbandons(oracle: Oracle, s0: Pipe, steps: seq<Step>)
    requires Inv(s0)
    ensures s0.core.rc.m.Valid() && After(oracle, s0, steps).core.rc.abandoned >= s0.core.rc.abandoned
  {
    hide Inv, Take;
    InvSound(s0);
    if steps != [] {
      LaterAbandons(oracle, s0, steps[..|steps| - 1]);
      InvFrom(oracle, s0, steps[..|steps| - 1]);
      AbandonedGrows(oracle, After(oracle, s0, steps[..|steps| - 1]), steps[|steps| - 1]);
    }
  }

  lemma MissEnds(oracle: Oracle, s: Pipe, step: Step, more: seq<Step>)
    requires Inv(s) && Clean(s) && Covered(s) && Enabled(s, step) && Misses(s, step) && s.core.rc.m.Valid()
    requires Unrescued(oracle, Take(oracle, s, step), more)
    requires Quiet(After(oracle, Take(oracle, s, step), more))
    ensures !Recovered(After(oracle, Take(oracle, s, step), more))
  {
    hide Inv, Clean, Covered, Misses, Next, After, Enabled, Quiet, Unrescued;
    TakeKeeps(oracle, s, step);
    MissLoses(oracle, s, step);
    LostStaysLost(oracle, Take(oracle, s, step), more);
    InvFrom(oracle, Take(oracle, s, step), more);
    QuietLost(After(oracle, Take(oracle, s, step), more));
  }

  lemma CoverEnds(oracle: Oracle, s: Pipe, step: Step, more: seq<Step>)
    requires Inv(s) && Clean(s) && Covered(s) && Enabled(s, step) && s.core.rc.m.Valid()
    requires !Misses(s, step) && !Cuts(s, step)
    requires Undisturbed(oracle, Take(oracle, s, step), more)
    requires
      var t := After(oracle, Take(oracle, s, step), more);
      && Quiet(t) && !t.core.suspended
      && t.core.rc.abandoned == Take(oracle, s, step).core.rc.abandoned == s.core.rc.abandoned
    ensures Recovered(After(oracle, Take(oracle, s, step), more))
  {
    hide Inv, Clean, Covered, Misses, Cuts, Take, After, Enabled, Quiet, Undisturbed;
    TakeKeeps(oracle, s, step);
    TakeCovers(oracle, s, step);
    LostAdapterIsRecovered(oracle, Take(oracle, s, step), more);
  }
}
