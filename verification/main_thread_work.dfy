/**
 * The queue that carries closures from any thread to the main thread, at the
 * grain of its critical sections and system calls: a poster appends under the
 * lock and bumps the wake counter afterwards; the drainer clears the counter
 * first and swaps the queue out afterwards.
 */
module WorkQueue {

  /** The largest value the wake counter can hold. */
  const MAX_WAKE := 0xffff_ffff_ffff_fffe

  /** Where the main thread stands in `drain`. */
  datatype Drainer<T> = Idle | Clearing | Swapping | Running(batch: seq<T>)

  datatype Queue<T> = Queue(
    pending: seq<T>,
    wake: nat,          // the eventfd counter
    bumping: nat,       // posters that have appended and not bumped yet
    drainer: Drainer<T>,
    // Histories.
    posted: seq<T>, executed: seq<T>)
  {
    function Batch(): seq<T> {
      if drainer.Running? then drainer.batch else []
    }
  }

  datatype Step<T> =
    | Append(work: T)  // a poster's critical section
    | Bump             // a poster's write; saturation is ignored
    | Enter            // the event loop calls drain, perhaps for nothing
    | Clear            // one read of the counter
    | Swap             // the drainer's critical section
    | RunOne
    | Leave

  predicate Enabled<T>(q: Queue<T>, step: Step<T>) {
    match step
    case Append(_) => true
    case Bump => q.bumping > 0
    case Enter => q.drainer.Idle?
    case Clear => q.drainer.Clearing?
    case Swap => q.drainer.Swapping?
    case RunOne => q.drainer.Running? && q.drainer.batch != []
    case Leave => q.drainer.Running? && q.drainer.batch == []
  }

  function Next<T>(q: Queue<T>, step: Step<T>): Queue<T>
    requires Enabled(q, step)
  {
    match step
    case Append(x) => q.(pending := q.pending + [x], bumping := q.bumping + 1, posted := q.posted + [x])
    case Bump => q.(bumping := q.bumping - 1, wake := if q.wake < MAX_WAKE then q.wake + 1 else q.wake)
    case Enter => q.(drainer := Clearing)
    case Clear => if q.wake > 0 then q.(wake := 0) else q.(drainer := Swapping)
    case Swap => q.(drainer := Running(q.pending), pending := [])
    case RunOne =>
      q.(drainer := Running(q.drainer.batch[1..]), executed := q.executed + [q.drainer.batch[0]])
    case Leave => q.(drainer := Idle)
  }

  function Empty<T>(): Queue<T> {
    Queue([], 0, 0, Idle, [], [])
  }

  /** Any interleaving of posters and drainer; a step that is not enabled does nothing. */
  function After<T>(steps: seq<Step<T>>): Queue<T> {
    if steps == [] then Empty()
    else
      var q := After(steps[..|steps| - 1]);
      var step := steps[|steps| - 1];
      if Enabled(q, step) then Next(q, step) else q
  }

  /** Nothing is lost or reordered, and a non-empty queue always has a wake-up coming. */
  ghost predicate Inv<T>(q: Queue<T>) {
    && q.posted == q.executed + q.Batch() + q.pending
    && (q.pending != [] ==> q.wake > 0 || q.bumping > 0 || q.drainer.Clearing? || q.drainer.Swapping?)
  }

  lemma NextKeeps<T>(q: Queue<T>, step: Step<T>)
    requires Inv(q) && Enabled(q, step)
    ensures Inv(Next(q, step))
  {
    if step.RunOne? {
      RunOneKeeps(q);
    }
  }

  lemma RunOneKeeps<T>(q: Queue<T>)
    requires Inv(q) && q.drainer.Running? && q.drainer.batch != []
    ensures Inv(Next(q, RunOne))
  {
    var first, rest := q.drainer.batch[0], q.drainer.batch[1..];
    assert [first] + rest == q.drainer.batch;
    assert q.executed + ([first] + rest) + q.pending == (q.executed + [first]) + rest + q.pending;
  }

  lemma {:induction false} AlwaysInv<T>(steps: seq<Step<T>>)
    ensures Inv(After(steps))
  {
    if steps != [] {
      var q := After(steps[..|steps| - 1]);
      AlwaysInv(steps[..|steps| - 1]);
      if Enabled(q, steps[|steps| - 1]) {
        NextKeeps(q, steps[|steps| - 1]);
      }
    }
  }

  /**
   * No lost wake-up: with the drainer idle, a non-empty queue means that the
   * event loop is about to see the counter, or a poster is about to bump it.
   * The closures run so far are always the first ones posted, in order.
   */
  lemma NoLostWakeup<T>(steps: seq<Step<T>>)
    ensures
      var q := After(steps);
      && (q.drainer.Idle? && q.pending != [] ==> q.wake > 0 || q.bumping > 0)
      && q.executed <= q.posted
      && (q.drainer.Idle? && q.wake == 0 && q.bumping == 0 ==> q.executed == q.posted)
  {
    AlwaysInv(steps);
    var q := After(steps);
    assert q.executed + q.Batch() + q.pending == q.executed + (q.Batch() + q.pending);
  }

  /**
   * Seen from outside, the batch and the queue behind it are one FIFO: an
   * append goes to its end, a closure run leaves its front, and every other
   * step, the swap included, leaves it as it is.
   */
  lemma RefinesFifo<T>(q: Queue<T>, step: Step<T>)
    requires Enabled(q, step)
    ensures
      var r := Next(q, step);
      var before, after := q.Batch() + q.pending, r.Batch() + r.pending;
      match step
      case Append(x) => after == before + [x] && r.executed == q.executed
      case RunOne => before != [] && after == before[1..] && r.executed == q.executed + [before[0]]
      case _ => after == before && r.executed == q.executed
  {
    if step.Swap? {
      assert q.Batch() + q.pending == q.pending + [];
    } else if step.Leave? {
      assert [] + q.pending == q.pending;
    } else if step.RunOne? {
      assert (q.drainer.batch + q.pending)[1..] == q.drainer.batch[1..] + q.pending;
    }
  }

  // ---------------------------------------------------------------------
  // Every posted closure is run
  // ---------------------------------------------------------------------

  /** Steps that need no new post: the event loop enters `drain` because the counter is up. */
  predicate Due<T>(q: Queue<T>, step: Step<T>) {
    Enabled(q, step) && !step.Append? && (step.Enter? ==> q.wake > 0)
  }

  function Left<T>(q: Queue<T>): nat {
    |q.pending| + |q.Batch()| + 6 * q.bumping
    + (match q.drainer case Idle => 0 case Clearing => 3 case Swapping => 2 case Running(_) => 1)
    + (if q.wake == 0 then 0 else if q.drainer.Clearing? then 1 else 5)
  }

  /**
   * While nothing new is posted, every step due brings the end nearer; when
   * none is due everything posted has been run.
   */
  lemma DueStepsDrain<T>(steps: seq<Step<T>>, step: Step<T>)
    ensures
      var q := After(steps);
      && (Due(q, step) ==> Left(Next(q, step)) < Left(q))
      && (Left(q) == 0 ==> q.executed == q.posted)
      && ((forall s: Step<T> :: !Due(q, s)) ==> Left(q) == 0)
  {
    AlwaysInv(steps);
    var q := After(steps);
    if forall s: Step<T> :: !Due(q, s) {
      assert !Due(q, Bump) && !Due(q, Enter) && !Due(q, Clear) && !Due(q, Swap) && !Due(q, RunOne) && !Due(q, Leave);
    }
    if Left(q) == 0 {
      assert q.executed + [] + [] == q.executed;
    }
  }

  // ---------------------------------------------------------------------
  // The arming gate of the standby policy
  // ---------------------------------------------------------------------

  datatype Closure = TvStandby | ArmPolicy | Other

  /**
   * The standby policy as the closures drive it: `flags` is what its enabled
   * flag said when each closure ran, `fired` the positions of the closures
   * that asked for a system suspend.
   */
  datatype Policy = Policy(enabled: bool, armed: bool, flags: seq<bool>, fired: set<nat>)

  datatype Move = Queued(step: Step<Closure>) | Toggle(enabled: bool)

  datatype System = System(queue: Queue<Closure>, policy: Policy)

  function RunClosure(p: Policy, c: Closure): Policy {
    var r := p.(flags := p.flags + [p.enabled]);
    match c
    case TvStandby => if p.armed && p.enabled then r.(fired := p.fired + {|p.flags|}) else r
    case ArmPolicy => r.(armed := true)
    case Other => r
  }

  function Moved(s: System, m: Move): System {
    match m
    case Toggle(enabled) => s.(policy := s.policy.(enabled := enabled))
    case Queued(step) =>
      if !Enabled(s.queue, step) then s
      else
        System(Next(s.queue, step),
               if step.RunOne? then RunClosure(s.policy, s.queue.drainer.batch[0]) else s.policy)
  }

  function Reached(enabled: bool, moves: seq<Move>): System {
    if moves == [] then System(Empty(), Policy(enabled, false, [], {}))
    else Moved(Reached(enabled, moves[..|moves| - 1]), moves[|moves| - 1])
  }

  /** The closure at `at` is an observation, the flag was on when it ran, and the arming closure comes before it. */
  predicate Justified(closures: seq<Closure>, flags: seq<bool>, at: nat) {
    && at < |flags| <= |closures|
    && closures[at] == TvStandby && flags[at] && ArmPolicy in closures[..at]
  }

  ghost predicate Gated(s: System) {
    && Inv(s.queue)
    && |s.policy.flags| == |s.queue.executed|
    && (s.policy.armed <==> ArmPolicy in s.queue.executed)
    && (forall at: nat :: at in s.policy.fired <==> Justified(s.queue.executed, s.policy.flags, at))
  }

  lemma RunKeeps(executed: seq<Closure>, p: Policy, c: Closure)
    requires |p.flags| == |executed|
    requires p.armed <==> ArmPolicy in executed
    requires forall at: nat :: at in p.fired <==> Justified(executed, p.flags, at)
    ensures
      var r := RunClosure(p, c);
      && |r.flags| == |executed + [c]|
      && (r.armed <==> ArmPolicy in executed + [c])
      && (forall at: nat :: at in r.fired <==> Justified(executed + [c], r.flags, at))
  {
    var r := RunClosure(p, c);
    assert (executed + [c])[..|executed|] == executed;
    forall at: nat ensures at in r.fired <==> Justified(executed + [c], r.flags, at) {
      if at < |executed| {
        assert (executed + [c])[..at] == executed[..at];
      }
    }
  }

  lemma MovedKeeps(s: System, m: Move)
    requires Gated(s)
    ensures Gated(Moved(s, m))
  {
    hide Justified, RunClosure;
    if m.Queued? && Enabled(s.queue, m.step) {
      NextKeeps(s.queue, m.step);
      if m.step.RunOne? {
        RunKeeps(s.queue.executed, s.policy, s.queue.drainer.batch[0]);
      }
    }
  }

  /**
   * However posting, draining and toggling are interleaved, the closures that
   * have asked for a system suspend are exactly the TV-standby observations
   * run with the flag on and posted after the arming closure: none posted
   * before it ever does.
   */
  lemma {:induction false} FiresExactlyWhenArmedBefore(enabled: bool, moves: seq<Move>)
    ensures
      var s := Reached(enabled, moves);
      && Gated(s)
      && forall at: nat :: at in s.policy.fired <==> Justified(s.queue.posted, s.policy.flags, at)
  {
    hide Moved, Justified;
    if moves != [] {
      FiresExactlyWhenArmedBefore(enabled, moves[..|moves| - 1]);
      MovedKeeps(Reached(enabled, moves[..|moves| - 1]), moves[|moves| - 1]);
    } else {
      NothingRun(Reached(enabled, moves));
    }
    var s := Reached(enabled, moves);
    forall at: nat
      ensures Justified(s.queue.executed, s.policy.flags, at) == Justified(s.queue.posted, s.policy.flags, at)
    {
      JustifiedInPosted(s, at);
    }
  }

  lemma NothingRun(s: System)
    requires s.queue == Empty() && s.policy.flags == [] && s.policy.fired == {} && !s.policy.armed
    ensures Gated(s)
  {
  }

  lemma JustifiedInPosted(s: System, at: nat)
    requires Inv(s.queue) && |s.policy.flags| == |s.queue.executed|
    ensures Justified(s.queue.executed, s.policy.flags, at) == Justified(s.queue.posted, s.policy.flags, at)
  {
    var executed, posted := s.queue.executed, s.queue.posted;
    if at < |executed| {
      assert posted[..at] == executed[..at];
    }
  }

  // ---------------------------------------------------------------------
  // The class
  // ---------------------------------------------------------------------

  class MainThreadWork<T> {
    var pending: seq<T>
    var wake: nat

    ghost predicate Valid()
      reads this
    {
      wake <= MAX_WAKE
    }

    constructor ()
      ensures Valid() && pending == [] && wake == 0
    {
      pending, wake := [], 0;
    }

    method Post(work: T)
      requires Valid()
      modifies this
      ensures Valid() && wake > 0 && pending == old(pending) + [work]
    {
      pending := pending + [work];
      if wake < MAX_WAKE {
        wake := wake + 1;
      }
    }

    /** The first half of `drain`: the counter is read until it is empty, then the queue is swapped out. */
    method TakeBatch() returns (batch: seq<T>)
      requires Valid()
      modifies this
      ensures Valid() && wake == 0 && pending == [] && batch == old(pending)
    {
      while wake > 0
        invariant pending == old(pending)
      {
        wake := 0;
      }
      batch := pending;
      pending := [];
    }
  }
}
