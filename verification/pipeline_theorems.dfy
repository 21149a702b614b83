/** The guarantees of the pipeline, stated for every interleaving of its threads. */
module PipelineTheorems {
  import opened Seqs
  import opened Supervisor
  import opened Timers
  import opened Pipeline
  import opened PipelineMoves
  import opened PipelineShape
  import opened PipelineInvariant
  import opened PipelineRuns
  import opened PipelineLocks
  import PL = Lifecycle

  /** What the worker has run is an initial stretch of what was submitted. */
  lemma RanIsPrefix(s: Pipe)
    ensures s.ran <= Log(s)
  {
  }

  /**
   * The worker never sees anything between a suspend and its resume: in every
   * run, each suspend job is followed at once by a resume job or by nothing
   * yet, and each resume job comes right after a suspend job.
   */
  lemma SuspendMeetsResume(oracle: Oracle, s0: Pipe, steps: seq<Step>)
    requires Initial(s0)
    ensures
      var ran := After(oracle, s0, steps).ran;
      && (forall i :: 0 <= i < |ran| - 1 && ran[i].SuspendJob? ==> ran[i + 1].ResumeJob?)
      && (forall i :: 0 <= i < |ran| && ran[i].ResumeJob? ==> i > 0 && ran[i - 1].SuspendJob?)
  {
    hide After, Initial, Ordered, Answered, Conserved, Recovering, Shaped, ClosedAsleep;
    AlwaysInv(oracle, s0, steps);
    var s := After(oracle, s0, steps);
    RanIsPrefix(s);
    var log := Log(s);
    forall i | 0 <= i < |s.ran| - 1 && s.ran[i].SuspendJob? ensures s.ran[i + 1].ResumeJob? {
      assert log[i].SuspendJob?;
    }
    forall i | 0 <= i < |s.ran| && s.ran[i].ResumeJob? ensures i > 0 && s.ran[i - 1].SuspendJob? {
      assert log[i].ResumeJob?;
    }
  }

  /**
   * From the moment a suspend job has run until the next job runs the adapter
   * is closed. Once the sequencer has acknowledged the suspend, the worker is
   * idle and its queue is empty as well.
   */
  lemma AdapterClosedWhileSuspended(oracle: Oracle, s0: Pipe, steps: seq<Step>)
    requires Initial(s0)
    ensures
      var s := After(oracle, s0, steps);
      && (s.ran != [] && s.ran[|s.ran| - 1].SuspendJob? ==> !s.core.connected)
      && (s.core.suspended && s.core.pl.phase == PL.Idle ==>
            !s.core.connected && s.stage == Resting && s.core.jobs == [])
  {
    hide After, Initial, Ordered, Answered, Conserved, Recovering, FlatMap;
    AlwaysInv(oracle, s0, steps);
    var s := After(oracle, s0, steps);
    if s.core.suspended && s.core.pl.phase == PL.Idle {
      assert Flight(s) == [];
      assert Staged(s.stage) == [];
      assert Log(s) == s.ran;
    }
  }

  /**
   * Commands reach the adapter in the order they arrived, each at most once,
   * however suspends, resumes and reconnects are interleaved with them:
   * those parked during a suspend and replayed later included.
   */
  lemma CommandsRunInArrivalOrder(oracle: Oracle, s0: Pipe, steps: seq<Step>)
    requires Initial(s0)
    ensures Increasing(FlatMap(CommandId, After(oracle, s0, steps).ran))
  {
    hide After, Initial, FlatMap, Shaped, Alternates, Answered, Conserved, Recovering;
    AlwaysInv(oracle, s0, steps);
    var s := After(oracle, s0, steps);
    RanIsPrefix(s);
    var rest := Log(s)[|s.ran|..];
    assert Log(s) == s.ran + rest;
    FlatMapConcat(CommandId, s.ran, rest);
    assert FlatMap(CommandId, s.ran) <= Commands(s);
  }

  function Count(js: seq<Job>, j: Job): nat {
    multiset(js)[j]
  }

  /**
   * Between handlers the sequencer's phase says exactly what is outstanding:
   * one suspend job while suspending, one resume job while resuming, none of
   * either while idle. Idle leaves nothing pending; a phase other than idle
   * means the commands are being parked.
   */
  lemma PhaseMatchesOutstanding(oracle: Oracle, s0: Pipe, steps: seq<Step>)
    requires Initial(s0)
    ensures
      var s := After(oracle, s0, steps);
      && Count(Flight(s), SuspendJob) == (if s.core.pl.phase == PL.Suspending then 1 else 0)
      && Count(Flight(s), ResumeJob) == (if s.core.pl.phase == PL.Resuming then 1 else 0)
      && (s.core.pl.phase != PL.Idle ==> s.core.suspended)
      && (s.core.pl.phase == PL.Idle ==> s.core.pl.pending == [])
  {
    hide After, Initial, Flight, Books;
    AlwaysInv(oracle, s0, steps);
    var s := After(oracle, s0, steps);
    var f := Flight(s);
    if s.core.pl.phase == PL.Suspending {
      var rest := f[..|f| - 1];
      assert f == rest + [SuspendJob];
      NoneCounted(rest);
    } else if s.core.pl.phase == PL.Idle {
      NoneCounted(f);
    }
  }

  lemma NoneCounted(f: seq<Job>)
    requires NoPower(f)
    ensures Count(f, SuspendJob) == 0 && Count(f, ResumeJob) == 0
  {
    assert SuspendJob !in f && ResumeJob !in f;
  }

  /**
   * Every command acknowledged as queued is still parked, was replayed or was
   * discarded by a failed resume: in order, each once, none lost. The
   * replayed ones are exactly the replay jobs the worker receives, and
   * nothing stays parked while awake.
   */
  lemma ParkedCommandsAccountedFor(oracle: Oracle, s0: Pipe, steps: seq<Step>)
    requires Initial(s0)
    ensures
      var s := After(oracle, s0, steps);
      && s.accepted == FlatMap(RequestOf, s.fates) + s.parked
      && FlatMap(ReplayOf, Log(s)) == FlatMap(ReplayFate, s.fates)
      && (s.parked != [] ==> s.core.suspended)
  {
    hide After, Initial, Ordered, Answered, Alternates, Recovering, ClosedAsleep, FlatMap, Flight, Log;
    AlwaysInv(oracle, s0, steps);
  }

  /** A shutdown after any run discards what is still parked: every acknowledged command has met its fate, once. */
  lemma ShutdownDiscardsTheRest(oracle: Oracle, s0: Pipe, steps: seq<Step>)
    requires Initial(s0)
    ensures
      var s := After(oracle, s0, steps);
      var r := ShutDown(s);
      && r.closed && r.core.down && r.parked == []
      && r.accepted == s.accepted == FlatMap(RequestOf, r.fates)
      && FlatMap(ReplayOf, Log(r)) == FlatMap(ReplayFate, r.fates)
  {
    hide After, Initial, FlatMap, Flight, Shape;
    AlwaysInv(oracle, s0, steps);
    var s := After(oracle, s0, steps);
    ResolvedMaps(s.parked, false);
    FlatMapConcat(RequestOf, s.fates, Fates(s.parked, false));
    FlatMapConcat(ReplayFate, s.fates, Fates(s.parked, false));
    assert Log(ShutDown(s)) == Log(s);
  }

  /**
   * No reply sink is ever invoked twice, and at every moment a request is
   * either answered or in flight as a live command, never both: the requests
   * not yet answered are exactly the live commands in flight.
   */
  lemma RequestsAnsweredOnce(oracle: Oracle, s0: Pipe, steps: seq<Step>)
    requires Initial(s0)
    ensures
      var s := After(oracle, s0, steps);
      OnceEach(multiset(FlatMap(ReplyId, s.replies)) + multiset(FlatMap(LiveId, Flight(s))), s.nextId)
  {
    hide After, Initial, Ordered, Conserved, Alternates, Recovering, ClosedAsleep, Shaped, OnceEach;
    hide FlatMap, Flight, Log;
    AlwaysInv(oracle, s0, steps);
    var s := After(oracle, s0, steps);
    assert Sinks(s) == multiset(FlatMap(ReplyId, s.replies)) + multiset(FlatMap(LiveId, Flight(s)));
  }

  /**
   * While the machine waits for an attempt, that attempt's result is
   * outstanding; while it waits for a retry, the retry timer is armed or has
   * expired unread, and it is off otherwise; the safety timer runs only while
   * suspending.
   */
  lemma WaitsAreFounded(oracle: Oracle, s0: Pipe, steps: seq<Step>)
    requires Initial(s0)
    ensures
      var s := After(oracle, s0, steps);
      var rc := s.core.rc;
      && rc.m.Valid()
      && (rc.m.state.Attempting? ==> !s.core.suspended && ReconnectJob(rc.attempts) in Flight(s))
      && (rc.m.state.WaitingForRetry? <==> rc.retry != Off)
      && (s.core.safety != Off ==> s.core.pl.phase == PL.Suspending)
  {
    hide After, Initial, Ordered, Conserved, Alternates, Answered, ClosedAsleep, Log;
    AlwaysInv(oracle, s0, steps);
    var s := After(oracle, s0, steps);
    if s.core.rc.m.state.Attempting? {
      AttemptInFlight(Flight(s), s.core.rc.attempts);
    }
  }

  lemma {:induction false} AttemptInFlight(f: seq<Job>, attempt: nat)
    requires attempt in FlatMap(AttemptOf, f)
    ensures ReconnectJob(attempt) in f
  {
    var last := |f| - 1;
    if !(f[last].ReconnectJob? && f[last].attempt == attempt) {
      AttemptInFlight(f[..last], attempt);
    }
  }

  /**
   * The calls made to the D-Bus monitor are, in order, one release for each
   * finished D-Bus suspend and one take for each finished D-Bus resume, and a
   * forced release for the suspend under way if its safety timer has fired;
   * commands from the wire cause none.
   */
  lemma {:induction false} MonitorCallsFollowRequests(oracle: Oracle, s0: Pipe, steps: seq<Step>)
    requires Initial(s0)
    ensures
      var s := After(oracle, s0, steps);
      LocksFollow(s.started, s.core)
  {
    hide Inv, Next;
    if steps == [] {
      assert PL.LocksOf([]) == [];
    } else {
      var before := steps[..|steps| - 1];
      MonitorCallsFollowRequests(oracle, s0, before);
      AlwaysInv(oracle, s0, before);
      var s := After(oracle, s0, before);
      if Enabled(s, steps[|steps| - 1]) {
        NextLocks(oracle, s, steps[|steps| - 1]);
      }
    }
  }
}
