/**
 * The command throttler: its interval and back-off arithmetic on 32-bit
 * words, the class for a caller on its own, and the slot reservation for any
 * number of callers at once.
 */
module Throttle {

  const WORD := 0x1_0000_0000

  /** An unsigned 32-bit word. */
  type Word = x: int | 0 <= x < WORD

  function Wrap(x: nat): Word { x % WORD }

  function Pow2(n: nat): (r: nat)
    ensures r > 0
  {
    if n == 0 then 1 else 2 * Pow2(n - 1)
  }

  function Min(a: int, b: int): int { if a <= b then a else b }
  function Max(a: int, b: int): int { if a >= b then a else b }

  const FAILURE_STEP_MS: Word := 100

  datatype Config = Config(baseInterval: Word, maxInterval: Word, maxRetryAttempts: Word)

  /** `1u << n`, defined for `n < 32`. */
  function Shifted(n: nat): Word { Wrap(Pow2(n)) }

  /** The interval after `failures` consecutive failures, every operation wrapping. */
  function CurrentInterval(cfg: Config, failures: Word): Word {
    if failures == 0 then cfg.baseInterval
    else
      var capped := Min(failures, 5);
      var span := if cfg.maxInterval > cfg.baseInterval then cfg.maxInterval - cfg.baseInterval else 0;
      var extra := Min(Wrap(FAILURE_STEP_MS * Shifted(capped)), span);
      Wrap(cfg.baseInterval + extra)
  }

  /** The pause after failed attempt `attempt`, counting from 0, every operation wrapping. */
  function RetryDelay(attempt: nat): Word {
    if attempt == 0 then FAILURE_STEP_MS else Wrap(FAILURE_STEP_MS * Shifted(attempt))
  }

  /** The pauses of the first `n` attempts, all failing. */
  function TotalBackoff(n: nat): nat {
    if n == 0 then 0 else TotalBackoff(n - 1) + RetryDelay(n - 1)
  }

  // ---------------------------------------------------------------------
  // Arithmetic
  // ---------------------------------------------------------------------

  lemma {:induction false} Pow2Monotone(a: nat, b: nat)
    requires a <= b
    ensures Pow2(a) <= Pow2(b)
  {
    if a < b {
      Pow2Monotone(a, b - 1);
    }
  }

  lemma WrapIsIdentity(x: nat)
    requires x < WORD
    ensures Wrap(x) == x
  {
  }

  lemma WrapCounts(x: nat, k: nat)
    ensures Wrap(Wrap(x + k) + 1) == Wrap(x + (k + 1))
  {
  }

  lemma WrapLoses(x: nat)
    requires x >= WORD
    ensures Wrap(x) < x
  {
  }

  lemma SmallPowers()
    ensures Pow2(5) == 32 && Pow2(25) == 0x200_0000 && Pow2(26) == 0x400_0000 && Pow2(31) == 0x8000_0000
  {
    assert Pow2(5) == 32;
    assert Pow2(10) == 1024;
    assert Pow2(15) == 0x8000;
    assert Pow2(20) == 0x10_0000;
    assert Pow2(25) == 0x200_0000;
    assert Pow2(30) == 0x4000_0000;
  }

  /** The interval as the design states it, on unbounded integers. */
  function IdealInterval(cfg: Config, failures: nat): int {
    if failures == 0 then cfg.baseInterval
    else cfg.baseInterval + Min(100 * Pow2(Min(failures, 5)), Max(cfg.maxInterval - cfg.baseInterval, 0))
  }

  /**
   * No operation of the interval wraps, for any configuration and any count;
   * the result lies between the base and the maximum, whichever is larger.
   */
  lemma IntervalIsIdeal(cfg: Config, failures: Word)
    ensures CurrentInterval(cfg, failures) == IdealInterval(cfg, failures)
    ensures cfg.baseInterval <= CurrentInterval(cfg, failures) <= Max(cfg.baseInterval, cfg.maxInterval)
  {
    hide Pow2, Wrap;
    SmallPowers();
    if failures != 0 {
      var capped := Min(failures, 5);
      Pow2Monotone(capped, 5);
      WrapIsIdentity(Pow2(capped));
      WrapIsIdentity(100 * Pow2(capped));
      WrapIsIdentity(cfg.baseInterval + Min(100 * Pow2(capped), Max(cfg.maxInterval - cfg.baseInterval, 0)));
    }
  }

  /** More failures never shorten the interval, and beyond five they change nothing. */
  lemma IntervalIsMonotone(cfg: Config, f: Word, g: Word)
    requires f <= g
    ensures CurrentInterval(cfg, f) <= CurrentInterval(cfg, g)
    ensures f >= 5 ==> CurrentInterval(cfg, f) == CurrentInterval(cfg, g)
  {
    hide Pow2, CurrentInterval;
    IntervalIsIdeal(cfg, f);
    IntervalIsIdeal(cfg, g);
    Pow2Monotone(Min(f, 5), Min(g, 5));
  }

  lemma DelayIsIdealUpTo25(attempt: nat)
    requires attempt < 32
    ensures RetryDelay(attempt) <= 100 * Pow2(attempt)
    ensures attempt <= 25 ==> RetryDelay(attempt) == 100 * Pow2(attempt)
    ensures attempt > 25 ==> RetryDelay(attempt) < 100 * Pow2(attempt)
  {
    hide Pow2, Wrap;
    SmallPowers();
    assert Pow2(0) == 1 by { Pow2AtZero(); }
    Pow2Monotone(attempt, 31);
    WrapIsIdentity(Pow2(attempt));
    if attempt <= 25 {
      Pow2Monotone(attempt, 25);
      WrapIsIdentity(100 * Pow2(attempt));
    } else {
      Pow2Monotone(26, attempt);
      WrapLoses(100 * Pow2(attempt));
    }
  }

  lemma Pow2AtZero()
    ensures Pow2(0) == 1
  {
  }

  /**
   * A call whose `n` attempts all fail pauses 100 * (2^n - 1) ms in all
   * exactly when n <= 26; from the 27th attempt on the delay wraps and the
   * total stays short of it.
   */
  lemma {:induction false} BackoffIsIdealExactlyUpTo26(n: nat)
    requires n <= 32
    ensures TotalBackoff(n) <= 100 * (Pow2(n) - 1)
    ensures TotalBackoff(n) == 100 * (Pow2(n) - 1) <==> n <= 26
  {
    if n > 0 {
      BackoffIsIdealExactlyUpTo26(n - 1);
      DelayIsIdealUpTo25(n - 1);
    }
  }

  // ---------------------------------------------------------------------
  // One caller on its own
  // ---------------------------------------------------------------------

  /** The failure count a call leaves behind when all its `n` attempts fail. */
  function Softened(before: Word, n: nat): Word {
    var counted := Wrap(before + n);
    if counted > 0 then counted - 1 else 0
  }

  /**
   * A failing call of `n` attempts counts `n - 1` failures: it counts as the
   * single failure its comment intends exactly when it makes two attempts.
   */
  lemma FailingCallCounts(before: Word, n: nat)
    requires before + n < WORD
    ensures n > 0 ==> Softened(before, n) == before + n - 1
    ensures n == 0 ==> Softened(before, n) == Max(before - 1, 0)
    ensures Softened(before, n) == before + 1 <==> n == 2
  {
  }

  /**
   * Each slot is no earlier than its clock reading and at least `gap` after
   * the one before it; the first respects `start`, and `next` respects the last.
   */
  ghost predicate Spaced(slots: seq<int>, clock: nat -> int, start: int, next: int, gap: int) {
    && (forall k: nat :: k < |slots| ==> slots[k] >= clock(k))
    && (forall k :: 0 < k < |slots| ==> slots[k] - slots[k - 1] >= gap)
    && (if slots == [] then next == start else slots[0] >= start && next - slots[|slots| - 1] >= gap)
  }

  /** What `n` failed attempts pause in all; past the 32nd the shift is undefined and `beyond` says what it yields. */
  function Pauses(n: nat, beyond: nat -> nat): (r: nat)
    ensures n <= 32 ==> r == TotalBackoff(n)
  {
    if n <= 32 then TotalBackoff(n) else Pauses(n - 1, beyond) + beyond(n - 1)
  }

  class CommandThrottler {
    const config: Config
    var nextAllowed: int
    var consecutiveFailures: Word

    constructor (config: Config, now: int)
      ensures this.config == config && nextAllowed == now && consecutiveFailures == 0
    {
      this.config := config;
      nextAllowed := now;
      consecutiveFailures := 0;
    }

    /**
     * Runs the command until an attempt succeeds. `answers(k)` is what the
     * k-th attempt returns, `clock(k)` the time read before it, and `spurious`
     * how often the final compare-and-swap fails for no reason.
     */
    method ExecuteWithThrottle(answers: nat -> bool, clock: nat -> int, beyond: nat -> nat, spurious: nat)
      returns (ok: bool, slots: seq<int>, backoff: nat)
      modifies this
      ensures ok <==> exists k: nat :: k < config.maxRetryAttempts && answers(k)
      ensures ok ==>
                && 0 < |slots| <= config.maxRetryAttempts && answers(|slots| - 1)
                && (forall k: nat :: k < |slots| - 1 ==> !answers(k))
                && backoff == Pauses(|slots| - 1, beyond)
                && consecutiveFailures == 0
      ensures !ok ==>
                && |slots| == config.maxRetryAttempts
                && backoff == Pauses(|slots|, beyond)
                && consecutiveFailures == Softened(old(consecutiveFailures), |slots|)
      ensures Spaced(slots, clock, old(nextAllowed), nextAllowed, config.baseInterval)
    {
      hide CurrentInterval, Wrap, RetryDelay;
      slots, backoff := [], 0;
      var attempt := 0;
      WrapIsIdentity(consecutiveFailures);
      while attempt < config.maxRetryAttempts
        invariant 0 <= attempt <= config.maxRetryAttempts && |slots| == attempt
        invariant forall k: nat :: k < attempt ==> !answers(k)
        invariant backoff == Pauses(attempt, beyond)
        invariant consecutiveFailures == Wrap(old(consecutiveFailures) + attempt)
        invariant Spaced(slots, clock, old(nextAllowed), nextAllowed, config.baseInterval)
      {
        var slot := ReserveSlot(clock(attempt));
        slots := slots + [slot];
        if answers(attempt) {
          consecutiveFailures := 0;
          return true, slots, backoff;
        }
        WrapCounts(old(consecutiveFailures), attempt);
        consecutiveFailures := Wrap(consecutiveFailures + 1);
        backoff := backoff + if attempt < 32 then RetryDelay(attempt) else beyond(attempt);
        attempt := attempt + 1;
      }
      ok := false;
      SoftenCount(spurious);
    }

    /** Takes one off the count, unless it is 0. */
    method SoftenCount(spurious: nat)
      modifies this`consecutiveFailures
      ensures consecutiveFailures == if old(consecutiveFailures) > 0 then old(consecutiveFailures) - 1 else 0
    {
      var failing := spurious;
      var expected := consecutiveFailures;
      while expected > 0
        invariant expected == consecutiveFailures == old(consecutiveFailures)
        decreases failing
      {
        if failing == 0 {
          consecutiveFailures := expected - 1;
          break;
        }
        failing := failing - 1;
        expected := consecutiveFailures;
      }
    }

    /** The slot is the later of `now` and the next allowed instant; the next caller keeps the interval. */
    method ReserveSlot(now: int) returns (slot: int)
      modifies this`nextAllowed
      ensures slot == Max(now, old(nextAllowed))
      ensures nextAllowed == slot + CurrentInterval(config, consecutiveFailures)
      ensures nextAllowed - slot >= config.baseInterval
    {
      IntervalIsIdeal(config, consecutiveFailures);
      var interval := CurrentInterval(config, consecutiveFailures);
      slot := if nextAllowed > now then nextAllowed else now;
      nextAllowed := slot + interval;
    }
  }

  // ---------------------------------------------------------------------
  // Any number of callers
  // ---------------------------------------------------------------------

  /** Where a caller stands, with the values it has read. */
  datatype Caller =
    | Outside
    | Measured(interval: Word)
    | Timed(interval: Word, now: int)
    | Loaded(interval: Word, now: int, expected: int)
    | Reserved(now: int, turn: nat, slot: int)
    | Commanding
    | Softening(count: Word)

  datatype Grant = Grant(slot: int, interval: Word, now: int)
  datatype Entry = Entry(turn: nat, slot: int, at: int)

  datatype Shared = Shared(
    cfg: Config, clock: int, nextAllowed: int, failures: Word, callers: map<nat, Caller>,
    // Histories.
    first: int,            // the first instant allowed
    grants: seq<Grant>,     // slots in the order of their compare-and-swap
    entries: seq<Entry>,    // callers that went on to their command, and when
    hits: nat, lifts: nat)  // failures counted and softened since the last success

  datatype Step =
    | Tick(to: int)
    | Arrive(id: nat)
    | Measure(id: nat) | ReadClock(id: nat) | Load(id: nat)
    | Swap(id: nat, spurious: bool)
    | Proceed(id: nat)
    | Succeed(id: nat) | Fail(id: nat)
    | LoadCount(id: nat) | Soften(id: nat, spurious: bool)

  function CallerOf(s: Shared, id: nat): Caller {
    if id in s.callers then s.callers[id] else Outside
  }

  predicate Enabled(s: Shared, step: Step) {
    match step
    case Tick(to) => to >= s.clock
    case Arrive(id) => id !in s.callers
    case Measure(id) => CallerOf(s, id).Outside?
    case ReadClock(id) => CallerOf(s, id).Measured?
    case Load(id) => CallerOf(s, id).Timed?
    case Swap(id, _) => CallerOf(s, id).Loaded?
    case Proceed(id) =>
      var c := CallerOf(s, id);
      c.Reserved? && (c.slot > c.now ==> s.clock >= c.slot)  // sleeps only for a slot ahead of its clock reading
    case Succeed(id) => CallerOf(s, id).Commanding?
    case Fail(id) => CallerOf(s, id).Commanding?
    case LoadCount(id) => CallerOf(s, id).Outside?
    case Soften(id, _) => CallerOf(s, id).Softening?
  }

  function Put(s: Shared, id: nat, c: Caller): Shared {
    s.(callers := s.callers[id := c])
  }

  function Next(s: Shared, step: Step): Shared
    requires Enabled(s, step)
  {
    match step
    case Tick(to) => s.(clock := to)
    case Arrive(id) => Put(s, id, Outside)
    case Measure(id) => Put(s, id, Measured(CurrentInterval(s.cfg, s.failures)))
    case ReadClock(id) => Put(s, id, Timed(CallerOf(s, id).interval, s.clock))
    case Load(id) => var c := CallerOf(s, id); Put(s, id, Loaded(c.interval, c.now, s.nextAllowed))
    case Swap(id, spurious) =>
      var c := CallerOf(s, id);
      var slot := if c.expected > c.now then c.expected else c.now;
      if s.nextAllowed == c.expected && !spurious then
        Put(s.(nextAllowed := slot + c.interval, grants := s.grants + [Grant(slot, c.interval, c.now)]),
            id, Reserved(c.now, |s.grants|, slot))
      else Put(s, id, c.(expected := s.nextAllowed))
    case Proceed(id) =>
      var c := CallerOf(s, id);
      Put(s.(entries := s.entries + [Entry(c.turn, c.slot, s.clock)]), id, Commanding)
    case Succeed(id) => Put(s.(failures := 0, hits := 0, lifts := 0), id, Outside)
    case Fail(id) => Put(s.(failures := Wrap(s.failures + 1), hits := s.hits + 1), id, Outside)
    case LoadCount(id) => Put(s, id, Softening(s.failures))
    case Soften(id, spurious) =>
      var count := CallerOf(s, id).count;
      if count == 0 then Put(s, id, Outside)
      else if s.failures == count && !spurious then
        Put(s.(failures := count - 1, lifts := s.lifts + 1), id, Outside)
      else Put(s, id, Softening(s.failures))
  }

  function Start(cfg: Config, now: int): Shared {
    Shared(cfg, now, now, 0, map[], now, [], [], 0, 0)
  }

  /** Any interleaving of callers and clock; a step that is not enabled does nothing. */
  function After(cfg: Config, now: int, steps: seq<Step>): Shared {
    if steps == [] then Start(cfg, now)
    else
      var s := After(cfg, now, steps[..|steps| - 1]);
      var step := steps[|steps| - 1];
      if Enabled(s, step) then Next(s, step) else s
  }

  /** When the next slot may begin, after these grants. */
  function EndOf(grants: seq<Grant>, first: int): int {
    if grants == [] then first else grants[|grants| - 1].slot + grants[|grants| - 1].interval
  }

  /**
   * Slots are handed out in order, each the later of its caller's clock
   * reading and the end of the interval before it.
   */
  ghost predicate Chained(grants: seq<Grant>, nextAllowed: int, first: int, base: Word) {
    && (forall k :: 0 <= k < |grants| ==> grants[k].interval >= base)
    && (forall j, k :: 0 <= j < k < |grants| && k == j + 1 ==>
          grants[k].slot == Max(grants[k].now, grants[j].slot + grants[j].interval))
    && (grants != [] ==> grants[0].slot == Max(grants[0].now, first))
    && (forall i, j :: 0 <= i < j < |grants| ==> grants[j].slot >= grants[i].slot + grants[i].interval)
    && nextAllowed == EndOf(grants, first)
  }

  /** What a caller has read is still sound: its clock reading is past, its slot was granted to it. */
  ghost predicate Sound(c: Caller, cfg: Config, clock: int, grants: seq<Grant>) {
    match c
    case Measured(interval) => interval >= cfg.baseInterval
    case Timed(interval, now) => interval >= cfg.baseInterval && now <= clock
    case Loaded(interval, now, _) => interval >= cfg.baseInterval && now <= clock
    case Reserved(now, turn, slot) => now <= clock && turn < |grants| && grants[turn].slot == slot
    case _ => true
  }

  ghost predicate AllSound(s: Shared) {
    forall id :: id in s.callers ==> Sound(s.callers[id], s.cfg, s.clock, s.grants)
  }

  /** No slot has two owners. */
  ghost predicate Exclusive(callers: map<nat, Caller>, entries: seq<Entry>) {
    && (forall a, b :: a in callers && b in callers && a != b && callers[a].Reserved? && callers[b].Reserved? ==>
          callers[a].turn != callers[b].turn)
    && (forall a, k :: a in callers && callers[a].Reserved? && 0 <= k < |entries| ==>
          callers[a].turn != entries[k].turn)
    && (forall j, k :: 0 <= j < k < |entries| ==> entries[j].turn != entries[k].turn)
  }

  /** Whoever went on to its command held a slot that had come. */
  ghost predicate OnTime(entries: seq<Entry>, grants: seq<Grant>) {
    forall k :: 0 <= k < |entries| ==>
      && entries[k].turn < |grants| && entries[k].slot == grants[entries[k].turn].slot
      && entries[k].at >= entries[k].slot
  }

  /** The count is what was counted and not softened since the last success, as a 32-bit word. */
  ghost predicate Counted(s: Shared) {
    s.lifts <= s.hits && s.failures == Wrap(s.hits - s.lifts)
  }

  ghost predicate Inv(s: Shared) {
    && Chained(s.grants, s.nextAllowed, s.first, s.cfg.baseInterval)
    && AllSound(s) && Exclusive(s.callers, s.entries) && OnTime(s.entries, s.grants) && Counted(s)
  }

  lemma PutKeeps(s: Shared, id: nat, c: Caller)
    requires Inv(s) && Sound(c, s.cfg, s.clock, s.grants) && !c.Reserved?
    ensures Inv(Put(s, id, c))
  {
    hide Sound, Chained, OnTime, Wrap;
  }

  lemma ChainGrows(grants: seq<Grant>, nextAllowed: int, first: int, base: Word, g: Grant)
    requires Chained(grants, nextAllowed, first, base) && g.slot == Max(g.now, nextAllowed) && g.interval >= base
    ensures Chained(grants + [g], g.slot + g.interval, first, base)
  {
    var more := grants + [g];
    forall i, j | 0 <= i < j < |more| ensures more[j].slot >= more[i].slot + more[i].interval {
      if j == |grants| && i < |grants| - 1 {
        assert grants[|grants| - 1].slot >= grants[i].slot + grants[i].interval;
      }
    }
  }

  /** Everybody's readings are still sound, and the new slot has one owner. */
  lemma GrantOwned(s: Shared, id: nat)
    requires AllSound(s) && Exclusive(s.callers, s.entries) && OnTime(s.entries, s.grants)
    requires CallerOf(s, id).Loaded? && CallerOf(s, id).expected == s.nextAllowed
    ensures
      var r := Next(s, Swap(id, false));
      AllSound(r) && Exclusive(r.callers, r.entries) && OnTime(r.entries, r.grants)
  {
    var r := Next(s, Swap(id, false));
    assert forall a :: a in s.callers && s.callers[a].Reserved? ==> s.callers[a].turn < |s.grants|;
    assert forall a :: a in s.callers ==> Sound(s.callers[a], r.cfg, r.clock, r.grants);
  }

  /** A successful compare-and-swap. */
  lemma GrantKeeps(s: Shared, id: nat)
    requires Inv(s) && CallerOf(s, id).Loaded? && CallerOf(s, id).expected == s.nextAllowed
    ensures Inv(Next(s, Swap(id, false))) && Next(s, Swap(id, false)).nextAllowed >= s.nextAllowed
  {
    hide Wrap, Chained, AllSound, Exclusive, OnTime;
    var c := CallerOf(s, id);
    GrantOwned(s, id);
    CallerSound(s, id);
    var slot := Max(c.now, s.nextAllowed);
    ChainGrows(s.grants, s.nextAllowed, s.first, s.cfg.baseInterval, Grant(slot, c.interval, c.now));
  }

  lemma ProceedKeeps(s: Shared, id: nat)
    requires Inv(s) && Enabled(s, Proceed(id))
    ensures Inv(Next(s, Proceed(id)))
  {
    hide Chained, Wrap;
    assert Sound(s.callers[id], s.cfg, s.clock, s.grants);
  }

  lemma TickKeeps(s: Shared, to: int)
    requires Inv(s) && to >= s.clock
    ensures Inv(s.(clock := to))
  {
    hide Chained, Exclusive, OnTime, Wrap;
    assert forall id :: id in s.callers ==> Sound(s.callers[id], s.cfg, s.clock, s.grants);
  }

  lemma CountKeeps(s: Shared, failures: Word, hits: nat, lifts: nat)
    requires Inv(s) && lifts <= hits && failures == Wrap(hits - lifts)
    ensures Inv(s.(failures := failures, hits := hits, lifts := lifts))
  {
    hide Sound, Chained, Exclusive, OnTime, Wrap;
    assert forall id :: id in s.callers ==> Sound(s.callers[id], s.cfg, s.clock, s.grants);
  }

  lemma WrapUncounts(n: nat)
    requires Wrap(n) > 0
    ensures n > 0 && Wrap(n - 1) == Wrap(n) - 1
  {
  }

  /** Neither a lost race nor a reset in between makes the softening underflow. */
  lemma SoftenKeeps(s: Shared, id: nat, spurious: bool)
    requires Inv(s) && Enabled(s, Soften(id, spurious))
    ensures Inv(Next(s, Soften(id, spurious)))
  {
    hide Sound, Chained, AllSound, Exclusive, OnTime, Wrap;
    var count := CallerOf(s, id).count;
    if count > 0 && s.failures == count && !spurious {
      WrapUncounts(s.hits - s.lifts);
      var t := s.(failures := count - 1, lifts := s.lifts + 1);
      CountKeeps(s, count - 1, s.hits, s.lifts + 1);
      FreshSound(t, Outside);
      PutKeeps(t, id, Outside);
    } else {
      FreshSound(s, Outside);
      FreshSound(s, Softening(s.failures));
      PutKeeps(s, id, if count == 0 then Outside else Softening(s.failures));
    }
  }

  lemma FreshSound(s: Shared, c: Caller)
    requires c.Outside? || c.Commanding? || c.Softening?
    ensures Sound(c, s.cfg, s.clock, s.grants)
  {
  }

  /** Reading the interval, the clock or the slot, and a compare-and-swap that fails. */
  lemma ReadKeeps(s: Shared, step: Step)
    requires Inv(s) && Enabled(s, step)
    requires
      || step.Arrive? || step.Measure? || step.ReadClock? || step.Load? || step.LoadCount?
      || (step.Swap? && !(s.nextAllowed == CallerOf(s, step.id).expected && !step.spurious))
    ensures Inv(Next(s, step)) && Next(s, step).nextAllowed == s.nextAllowed
  {
    hide Inv, CurrentInterval;
    var id := step.id;
    IntervalIsIdeal(s.cfg, s.failures);
    CallerSound(s, id);
    PutKeeps(s, id, CallerOf(Next(s, step), id));
  }

  lemma CallerSound(s: Shared, id: nat)
    requires Inv(s)
    ensures Sound(CallerOf(s, id), s.cfg, s.clock, s.grants)
  {
    hide Sound, Chained, Exclusive, OnTime, Counted;
    FreshSound(s, Outside);
  }

  /** A success clears the count, a failure adds one to it. */
  lemma OutcomeKeeps(s: Shared, step: Step)
    requires Inv(s) && Enabled(s, step) && (step.Succeed? || step.Fail?)
    ensures Inv(Next(s, step))
  {
    hide Inv, Wrap, Sound;
    if step.Succeed? {
      WrapIsIdentity(0);
      CountKeeps(s, 0, 0, 0);
      var t := s.(failures := 0, hits := 0, lifts := 0);
      FreshSound(t, Outside);
      PutKeeps(t, step.id, Outside);
    } else {
      FailureCounted(s);
      CountKeeps(s, Wrap(s.failures + 1), s.hits + 1, s.lifts);
      var t := s.(failures := Wrap(s.failures + 1), hits := s.hits + 1);
      FreshSound(t, Outside);
      PutKeeps(t, step.id, Outside);
    }
  }

  lemma FailureCounted(s: Shared)
    requires Inv(s)
    ensures s.lifts <= s.hits + 1 && Wrap(s.failures + 1) == Wrap(s.hits + 1 - s.lifts)
  {
    hide AllSound, Chained, Exclusive, OnTime, Wrap;
    WrapCounts(s.hits - s.lifts, 0);
  }

  lemma NextKeeps(s: Shared, step: Step)
    requires Inv(s) && Enabled(s, step)
    ensures Inv(Next(s, step)) && Next(s, step).nextAllowed >= s.nextAllowed
  {
    hide Inv, CurrentInterval, Wrap;
    match step {
      case Tick(to) => TickKeeps(s, to);
      case Proceed(id) => ProceedKeeps(s, id);
      case Succeed(id) => OutcomeKeeps(s, step);
      case Fail(id) => OutcomeKeeps(s, step);
      case Soften(id, spurious) => SoftenKeeps(s, id, spurious);
      case Swap(id, spurious) =>
        if s.nextAllowed == CallerOf(s, id).expected && !spurious {
          GrantKeeps(s, id);
        } else {
          ReadKeeps(s, step);
        }
      case _ => ReadKeeps(s, step);
    }
  }

  /**
   * Slot reservation is linearizable. For any number of callers, any
   * interleaving and any spurious failure of the compare-and-swaps: the next
   * allowed instant never moves back; slots taken in the order of their
   * compare-and-swaps are at least the earlier caller's interval apart, hence
   * at least the base interval; no two callers hold the same slot; nobody
   * reaches its command before its slot; and the failure count is what was
   * counted minus what was softened since the last success, so softening
   * never underflows.
   */
  lemma {:induction false} ReservationIsLinearizable(cfg: Config, now: int, steps: seq<Step>)
    ensures Inv(After(cfg, now, steps)) && After(cfg, now, steps).cfg == cfg
    ensures steps != [] ==> After(cfg, now, steps).nextAllowed >= After(cfg, now, steps[..|steps| - 1]).nextAllowed
  {
    hide Inv, Enabled, Wrap, CurrentInterval;
    if steps == [] {
      StartKeeps(cfg, now);
    } else {
      var s := After(cfg, now, steps[..|steps| - 1]);
      ReservationIsLinearizable(cfg, now, steps[..|steps| - 1]);
      if Enabled(s, steps[|steps| - 1]) {
        NextKeeps(s, steps[|steps| - 1]);
      }
    }
  }

  lemma StartKeeps(cfg: Config, now: int)
    ensures Inv(Start(cfg, now))
  {
  }

  // ---------------------------------------------------------------------
  // What a caller goes by
  // ---------------------------------------------------------------------

  /** The interval as it ideally was when the caller last measured it. */
  function MeasuredAt(cfg: Config, now: int, steps: seq<Step>, id: nat): int {
    if steps == [] then 0
    else
      var before := steps[..|steps| - 1];
      var s := After(cfg, now, before);
      if steps[|steps| - 1] == Measure(id) && Enabled(s, Measure(id)) then IdealInterval(cfg, s.failures)
      else MeasuredAt(cfg, now, before, id)
  }

  /** The clock when the caller last read it. */
  function ReadAt(cfg: Config, now: int, steps: seq<Step>, id: nat): int {
    if steps == [] then 0
    else
      var before := steps[..|steps| - 1];
      var s := After(cfg, now, before);
      if steps[|steps| - 1] == ReadClock(id) && Enabled(s, ReadClock(id)) then s.clock
      else ReadAt(cfg, now, before, id)
  }

  /** Attempts failed since the last success. */
  function FailedSince(cfg: Config, now: int, steps: seq<Step>): nat {
    if steps == [] then 0
    else
      var before, step := steps[..|steps| - 1], steps[|steps| - 1];
      if !Enabled(After(cfg, now, before), step) then FailedSince(cfg, now, before)
      else if step.Succeed? then 0
      else FailedSince(cfg, now, before) + if step.Fail? then 1 else 0
  }

  /** A softening finds a count above zero unchanged since it was read. */
  predicate Softens(s: Shared, step: Step) {
    step.Soften? && CallerOf(s, step.id).Softening? && !step.spurious
    && s.failures == CallerOf(s, step.id).count > 0
  }

  function SoftenedSince(cfg: Config, now: int, steps: seq<Step>): nat {
    if steps == [] then 0
    else
      var before, step := steps[..|steps| - 1], steps[|steps| - 1];
      var s := After(cfg, now, before);
      if !Enabled(s, step) then SoftenedSince(cfg, now, before)
      else if step.Succeed? then 0
      else SoftenedSince(cfg, now, before) + if Softens(s, step) then 1 else 0
  }

  /** The callers that have gone on to their command. */
  function Entered(cfg: Config, now: int, steps: seq<Step>): nat {
    if steps == [] then 0
    else
      var before, step := steps[..|steps| - 1], steps[|steps| - 1];
      Entered(cfg, now, before) + if step.Proceed? && Enabled(After(cfg, now, before), step) then 1 else 0
  }

  /** A caller goes by these readings. */
  ghost predicate GoesBy(c: Caller, interval: int, now: int) {
    match c
    case Measured(i) => i == interval
    case Timed(i, n) => i == interval && n == now
    case Loaded(i, n, _) => i == interval && n == now
    case Reserved(n, _, _) => n == now
    case _ => true
  }

  lemma StepGoesBy(s: Shared, step: Step, id: nat, interval: int, now: int)
    requires Enabled(s, step) && GoesBy(CallerOf(s, id), interval, now)
    ensures GoesBy(CallerOf(Next(s, step), id),
                   if step == Measure(id) then IdealInterval(s.cfg, s.failures) else interval,
                   if step == ReadClock(id) then s.clock else now)
  {
    hide CurrentInterval, IdealInterval, Wrap;
    IntervalIsIdeal(s.cfg, s.failures);
  }

  lemma StepCounts(s: Shared, step: Step)
    requires Enabled(s, step)
    ensures
      var r := Next(s, step);
      && r.hits == (if step.Succeed? then 0 else s.hits + if step.Fail? then 1 else 0)
      && r.lifts == (if step.Succeed? then 0 else s.lifts + if Softens(s, step) then 1 else 0)
      && |r.entries| == |s.entries| + (if step.Proceed? then 1 else 0)
  {
    hide CurrentInterval, Wrap;
  }

  /**
   * In every run each caller goes by the interval as it ideally was when it
   * measured it and by the clock as it was when it read it; the failure count
   * is that of the attempts failed since the last success, less those
   * softened; and the entries recorded are the callers that went on to their
   * command.
   */
  lemma {:induction false} CallersGoByTheirReadings(cfg: Config, now: int, steps: seq<Step>, id: nat)
    ensures
      var s := After(cfg, now, steps);
      && s.cfg == cfg
      && GoesBy(CallerOf(s, id), MeasuredAt(cfg, now, steps, id), ReadAt(cfg, now, steps, id))
      && s.hits == FailedSince(cfg, now, steps) && s.lifts == SoftenedSince(cfg, now, steps)
      && |s.entries| == Entered(cfg, now, steps)
      && s.lifts <= s.hits && s.failures == Wrap(s.hits - s.lifts)
  {
    hide Next, Enabled, Wrap, IdealInterval, GoesBy;
    ReservationIsLinearizable(cfg, now, steps);
    if steps == [] {
      NoReadings(cfg, now, id);
    } else {
      var before, step := steps[..|steps| - 1], steps[|steps| - 1];
      CallersGoByTheirReadings(cfg, now, before, id);
      var s := After(cfg, now, before);
      if Enabled(s, step) {
        StepGoesBy(s, step, id, MeasuredAt(cfg, now, before, id), ReadAt(cfg, now, before, id));
        StepCounts(s, step);
      }
    }
  }

  lemma NoReadings(cfg: Config, now: int, id: nat)
    ensures GoesBy(CallerOf(Start(cfg, now), id), 0, 0)
  {
  }

  /**
   * A compare-and-swap that finds its slot unchanged grants the later of the
   * caller's clock reading and the next allowed instant, which moves on by the
   * interval the caller measured; one that does not changes nothing shared.
   */
  lemma GrantsGoByReadings(cfg: Config, now: int, steps: seq<Step>, id: nat, spurious: bool)
    requires Enabled(After(cfg, now, steps), Swap(id, spurious))
    ensures
      var s := After(cfg, now, steps);
      var r := Next(s, Swap(id, spurious));
      var read, interval := ReadAt(cfg, now, steps, id), MeasuredAt(cfg, now, steps, id);
      var slot := Max(read, s.nextAllowed);
      if CallerOf(s, id).expected == s.nextAllowed && !spurious then
        && |r.grants| == |s.grants| + 1 && s.grants <= r.grants
        && r.grants[|s.grants|].slot == slot && r.grants[|s.grants|].interval == interval
        && r.grants[|s.grants|].now == read
        && r.nextAllowed == slot + interval && CallerOf(r, id) == Reserved(read, |s.grants|, slot)
      else r.grants == s.grants && r.nextAllowed == s.nextAllowed && CallerOf(r, id).Loaded?
  {
    hide After, Wrap, IdealInterval, MeasuredAt, ReadAt, FailedSince, SoftenedSince, Entered;
    CallersGoByTheirReadings(cfg, now, steps, id);
  }
}
