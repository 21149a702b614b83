/**
 * The adapter reconnect machine: its transition function, the class that
 * carries it out in place, and its budget over every input history.
 */
module Reconnect {
  import opened Backoff

  datatype State = Idle | Attempting | WaitingForRetry

  datatype Event =
    | ConnectionLost | AttemptSucceeded | AttemptFailed
    | SystemSuspend | SystemResume | RetryTimerFired | TimerArmFailed

  datatype Effect = NoEffect | StartAttempt | ScheduleRetry | CancelRetry | AbandonCycle

  datatype Output = Output(effect: Effect, delay: int, attemptNumber: nat, totalAttempts: nat)

  const INERT := Output(NoEffect, 0, 0, 0)

  datatype Machine = Machine(
    delays: seq<int>, lostDelay: int, state: State, position: nat, nextAttempt: nat)
  {
    function Total(): nat { |delays| + 1 }

    /** Position, attempt number and state agree; the attempt number stays within the budget. */
    predicate Valid() {
      && position <= |delays|
      && nextAttempt == (if state.Idle? then 0 else position + 1)
      && (state.Idle? ==> position == 0)
    }

    function Reset(): Machine {
      this.(state := Idle, position := 0, nextAttempt := 0)
    }
  }

  function Fresh(delays: seq<int>, lostDelay: int): (m: Machine)
    ensures m.Valid()
  {
    Machine(delays, lostDelay, Idle, 0, 0)
  }

  function Transition(m: Machine, e: Event): (r: (Machine, Output))
    requires m.Valid()
    ensures r.0.Valid() && r.0.delays == m.delays && r.0.lostDelay == m.lostDelay
  {
    match (m.state, e)
    case (Idle, ConnectionLost) =>
      if m.lostDelay > 0 then
        (m.(state := WaitingForRetry, position := 0, nextAttempt := 1),
         Output(ScheduleRetry, m.lostDelay, 1, m.Total()))
      else
        (m.(state := Attempting, position := 0, nextAttempt := 1),
         Output(StartAttempt, 0, 1, m.Total()))
    case (Attempting, AttemptSucceeded) => (m.Reset(), INERT)
    case (Attempting, AttemptFailed) =>
      if m.position < |m.delays| then
        (m.(state := WaitingForRetry, position := m.position + 1, nextAttempt := m.position + 2),
         Output(ScheduleRetry, m.delays[m.position], m.position + 2, m.Total()))
      else
        (m.Reset(), Output(AbandonCycle, 0, 0, m.Total()))
    case (Attempting, SystemSuspend) => (m.Reset(), INERT)
    case (Attempting, SystemResume) => (m.Reset(), INERT)
    case (WaitingForRetry, ConnectionLost) =>
      (m.(state := Attempting, position := 0, nextAttempt := 1),
       Output(StartAttempt, 0, 1, m.Total()))
    case (WaitingForRetry, RetryTimerFired) =>
      (m.(state := Attempting), Output(StartAttempt, 0, m.nextAttempt, m.Total()))
    case (WaitingForRetry, SystemSuspend) => (m.Reset(), Output(CancelRetry, 0, 0, 0))
    case (WaitingForRetry, SystemResume) => (m.Reset(), Output(CancelRetry, 0, 0, 0))
    case (WaitingForRetry, TimerArmFailed) => (m.Reset(), Output(AbandonCycle, 0, 0, m.Total()))
    case _ => (m, INERT)
  }

  function Seeded(m: Machine, initialDelay: int): (r: (Machine, Output))
    requires m.Valid()
    ensures r.0.Valid() && r.0.delays == m.delays && r.0.lostDelay == m.lostDelay
  {
    if !m.state.Idle? then (m, INERT)
    else
      (m.(state := WaitingForRetry, position := 0, nextAttempt := 1),
       Output(ScheduleRetry, initialDelay, 1, m.Total()))
  }

  // ---------------------------------------------------------------------
  // The class
  // ---------------------------------------------------------------------

  class AdapterReconnect {
    var state: State
    const schedule: BackoffSchedule
    const connectionLostDelay: int
    var nextAttemptNumber: nat

    ghost predicate Valid()
      reads this, schedule
    {
      schedule.Valid() && View().Valid()
    }

    ghost function View(): Machine
      reads this, schedule
    {
      Machine(schedule.delays, connectionLostDelay, state, schedule.attempt, nextAttemptNumber)
    }

    constructor (schedule: BackoffSchedule, connectionLostDelay: int)
      requires schedule.Valid() && schedule.attempt == 0
      ensures Valid() && this.schedule == schedule
      ensures View() == Fresh(schedule.delays, connectionLostDelay)
    {
      this.schedule := schedule;
      this.connectionLostDelay := connectionLostDelay;
      state := Idle;
      nextAttemptNumber := 0;
    }

    method ResetCycle()
      requires Valid()
      modifies this, schedule
      ensures Valid() && View() == old(View()).Reset()
    {
      state := Idle;
      schedule.Reset();
      nextAttemptNumber := 0;
    }

    method SeedCycle(initialDelay: int) returns (out: Output)
      requires Valid()
      modifies this, schedule
      ensures Valid() && (View(), out) == Seeded(old(View()), initialDelay)
    {
      if state != Idle {
        return INERT;
      }
      schedule.Reset();
      state := WaitingForRetry;
      nextAttemptNumber := 1;
      out := Output(ScheduleRetry, initialDelay, 1, |schedule.delays| + 1);
    }

    method OnEvent(event: Event) returns (out: Output)
      requires Valid()
      modifies this, schedule
      ensures Valid() && (View(), out) == Transition(old(View()), event)
    {
      var total := |schedule.delays| + 1;
      match state {
        case Idle =>
          if event == ConnectionLost {
            schedule.Reset();
            nextAttemptNumber := 1;
            if connectionLostDelay > 0 {
              state := WaitingForRetry;
              return Output(ScheduleRetry, connectionLostDelay, 1, total);
            }
            state := Attempting;
            return Output(StartAttempt, 0, 1, total);
          }
          return INERT;
        case Attempting =>
          match event {
            case AttemptSucceeded =>
              ResetCycle();
              return INERT;
            case AttemptFailed =>
              var attempt := schedule.NextDelay();
              if attempt.Some? {
                state := WaitingForRetry;
                nextAttemptNumber := attempt.value.index + 1;
                return Output(ScheduleRetry, attempt.value.delay, nextAttemptNumber, total);
              }
              ResetCycle();
              return Output(AbandonCycle, 0, 0, total);
            case SystemSuspend =>
              ResetCycle();
              return INERT;
            case SystemResume =>
              ResetCycle();
              return INERT;
            case _ =>
              return INERT;
          }
        case WaitingForRetry =>
          match event {
            case ConnectionLost =>
              schedule.Reset();
              state := Attempting;
              nextAttemptNumber := 1;
              return Output(StartAttempt, 0, 1, total);
            case RetryTimerFired =>
              state := Attempting;
              return Output(StartAttempt, 0, nextAttemptNumber, total);
            case SystemSuspend =>
              ResetCycle();
              return Output(CancelRetry, 0, 0, 0);
            case SystemResume =>
              ResetCycle();
              return Output(CancelRetry, 0, 0, 0);
            case TimerArmFailed =>
              ResetCycle();
              return Output(AbandonCycle, 0, 0, total);
            case _ =>
              return INERT;
          }
      }
    }
  }

  // ---------------------------------------------------------------------
  // Budget of a cycle, over every history of inputs
  // ---------------------------------------------------------------------

  datatype Input = Signal(event: Event) | Seed(delay: int)

  function Step(m: Machine, i: Input): (r: (Machine, Output))
    requires m.Valid()
    ensures r.0.Valid() && r.0.delays == m.delays && r.0.lostDelay == m.lostDelay
  {
    match i
    case Signal(e) => Transition(m, e)
    case Seed(d) => Seeded(m, d)
  }

  /** Inputs that begin a cycle: a lost connection unless an attempt is under way, or a seed at rest. */
  predicate Begins(m: Machine, i: Input) {
    match i
    case Signal(e) => e == ConnectionLost && !m.state.Attempting?
    case Seed(_) => m.state.Idle?
  }

  /** How a cycle began: a loss found the machine at rest or waiting, or it was seeded. */
  datatype Origin = NoneYet | LostAtRest | LostWaiting | SeededWith(delay: int)

  /** The machine, with what the current cycle (or, at rest, the last one) has done. */
  datatype Cycle = Cycle(
    m: Machine, origin: Origin, starts: seq<nat>, lead: seq<int>, waits: seq<int>, failures: nat)

  function OriginOf(m: Machine, i: Input): Origin {
    match i
    case Signal(_) => if m.state.Idle? then LostAtRest else LostWaiting
    case Seed(d) => SeededWith(d)
  }

  /** What a cycle waits for before its first attempt. */
  function Lead(origin: Origin, lostDelay: int): seq<int> {
    match origin
    case NoneYet => []
    case LostAtRest => if lostDelay > 0 then [lostDelay] else []
    case LostWaiting => []
    case SeededWith(d) => [d]
  }

  function Observe(c: Cycle, i: Input): (r: Cycle)
    requires c.m.Valid()
    ensures r.m.Valid() && r.m.delays == c.m.delays && r.m.lostDelay == c.m.lostDelay
  {
    var (m, out) := Step(c.m, i);
    var started := if out.effect.StartAttempt? then [out.attemptNumber] else [];
    var waited := if out.effect.ScheduleRetry? then [out.delay] else [];
    if Begins(c.m, i) then Cycle(m, OriginOf(c.m, i), started, waited, waited, 0)
    else Cycle(m, c.origin, c.starts + started, c.lead, c.waits + waited,
               c.failures + if c.m.state.Attempting? && i == Signal(AttemptFailed) then 1 else 0)
  }

  ghost function History(delays: seq<int>, lostDelay: int, inputs: seq<Input>): (c: Cycle)
    ensures c.m.Valid() && c.m.delays == delays && c.m.lostDelay == lostDelay
  {
    if inputs == [] then Cycle(Fresh(delays, lostDelay), NoneYet, [], [], [], 0)
    else Observe(History(delays, lostDelay, inputs[..|inputs| - 1]), inputs[|inputs| - 1])
  }

  /** 1, 2, ..., n. */
  function CountTo(n: nat): seq<nat> {
    seq(n, (k: nat) => k + 1)
  }

  /** What a cycle has done, read off the machine's state. */
  ghost predicate WithinBudget(c: Cycle)
    requires c.m.Valid()
  {
    && c.lead == Lead(c.origin, c.m.lostDelay)
    && |c.starts| <= c.m.Total()
    && c.starts == CountTo(|c.starts|)
    && c.failures <= |c.starts|
    && (!c.m.state.Idle? ==>
          && |c.starts| == c.m.nextAttempt - (if c.m.state.Attempting? then 0 else 1)
          && c.failures == c.m.position
          && c.waits == c.lead + c.m.delays[..c.m.position])
  }

  lemma ObserveKeepsBudget(c: Cycle, i: Input)
    requires c.m.Valid() && WithinBudget(c)
    ensures WithinBudget(Observe(c, i))
  {
    if Begins(c.m, i) {
      BeginsWithinBudget(c, i);
    } else {
      ContinuesWithinBudget(c, i);
    }
  }

  lemma BeginsWithinBudget(c: Cycle, i: Input)
    requires c.m.Valid() && Begins(c.m, i)
    ensures WithinBudget(Observe(c, i))
  {
    assert Observe(c, i).m.delays[..0] == [];
  }

  lemma ContinuesWithinBudget(c: Cycle, i: Input)
    requires c.m.Valid() && WithinBudget(c) && !Begins(c.m, i)
    ensures WithinBudget(Observe(c, i))
  {
    var (m, out) := Step(c.m, i);
    if out.effect.StartAttempt? {
      assert Observe(c, i).starts == CountTo(|c.starts| + 1);
    }
    if out.effect.ScheduleRetry? {
      assert c.m.delays[..m.position] == c.m.delays[..c.m.position] + [out.delay];
    }
  }

  /**
   * In every history the attempts of a cycle are numbered 1, 2, 3, ... without
   * a gap and never exceed the schedule's length plus one.
   */
  lemma {:induction false} AttemptsAreCountedAndBounded(delays: seq<int>, lostDelay: int, inputs: seq<Input>)
    ensures WithinBudget(History(delays, lostDelay, inputs))
  {
    if inputs != [] {
      var before := inputs[..|inputs| - 1];
      AttemptsAreCountedAndBounded(delays, lostDelay, before);
      ObserveKeepsBudget(History(delays, lostDelay, before), inputs[|inputs| - 1]);
    }
  }

  ghost function Sum(xs: seq<int>): int {
    if xs == [] then 0 else Sum(xs[..|xs| - 1]) + xs[|xs| - 1]
  }

  lemma {:induction false} SumConcat(xs: seq<int>, ys: seq<int>)
    ensures Sum(xs + ys) == Sum(xs) + Sum(ys)
  {
    if ys == [] {
      assert xs + ys == xs;
    } else {
      SumConcat(xs, ys[..|ys| - 1]);
      assert (xs + ys)[..|xs + ys| - 1] == xs + ys[..|ys| - 1];
    }
  }

  /**
   * A failed attempt abandons the cycle exactly when it was the last of the
   * whole budget; by then the cycle has waited its initial delay, which
   * depends on how it began, plus the entire schedule.
   */
  lemma AbandonsExactlyWhenBudgetSpent(delays: seq<int>, lostDelay: int, inputs: seq<Input>)
    ensures
      var c := History(delays, lostDelay, inputs);
      c.m.state.Attempting? ==>
        var failed := Observe(c, Signal(AttemptFailed));
        && (Transition(c.m, AttemptFailed).1.effect.AbandonCycle? <==> failed.failures == |delays| + 1)
        && (Transition(c.m, AttemptFailed).1.effect.AbandonCycle? ==>
              && failed.starts == CountTo(|delays| + 1)
              && failed.m.state.Idle?
              && Sum(failed.waits) == Sum(Lead(c.origin, lostDelay)) + Sum(delays))
        && (!Transition(c.m, AttemptFailed).1.effect.AbandonCycle? ==> failed.m.state.WaitingForRetry?)
  {
    AttemptsAreCountedAndBounded(delays, lostDelay, inputs);
    var c := History(delays, lostDelay, inputs);
    if c.m.state.Attempting? && c.m.position == |delays| {
      assert delays[..c.m.position] == delays;
      SumConcat(c.lead, delays);
      var failed := Observe(c, Signal(AttemptFailed));
      assert failed.waits == c.waits && failed.starts == c.starts;
    }
  }
}
