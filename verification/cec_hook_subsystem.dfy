/**
 * The hook subsystem: which bus observations run which user script. Its
 * transitions, the class that carries them out over the debounce timer, and
 * the list functions its firings refine.
 */
module Hooks {
  import opened Seqs
  import opened Wire
  import opened Timers

  type Address = x: int | 0 <= x < 0x1_0000

  datatype Power = PowerOn | PowerStandby | ToOn | ToStandby | PowerUnknown

  datatype Observation =
    | TvStandby
    | TvPowerReport(power: Power)
    | ActiveSource(address: Address)
    | HostActivated(logical: nat)
    | HostDeactivated(logical: nat)

  datatype Cached = Unknown | On | Standby

  /** A script run, with the part of its environment that depends on state. */
  datatype Hook =
    | InputSwitch(address: Address, previous: Option<Address>)
    | TvStandbyHook(cached: Cached)
    | TvWakeHook(cached: Cached)
    | HostActivatedHook(logical: nat)
    | HostDeactivatedHook(logical: nat)

  /** Which events have a script. */
  datatype Config = Config(
    inputSwitch: bool, tvStandby: bool, tvWake: bool, hostActivated: bool, hostDeactivated: bool)

  predicate Scripted(cfg: Config, h: Hook) {
    match h
    case InputSwitch(_, _) => cfg.inputSwitch
    case TvStandbyHook(_) => cfg.tvStandby
    case TvWakeHook(_) => cfg.tvWake
    case HostActivatedHook(_) => cfg.hostActivated
    case HostDeactivatedHook(_) => cfg.hostDeactivated
  }

  /** What is handed to the executor: nothing for an event without a script. */
  function Submitted(cfg: Config, hooks: seq<Hook>): seq<Hook> {
    FlatMap((h: Hook) => if Scripted(cfg, h) then [h] else [], hooks)
  }

  // ---------------------------------------------------------------------
  // Transitions
  // ---------------------------------------------------------------------

  datatype State = State(pending: Option<Address>, lastFired: Option<Address>, power: Cached, timer: Timer)

  const FRESH := State(None, None, Unknown, Off)

  function Committed(s: State): (State, seq<Hook>) {
    if s.pending.None? then (s, [])
    else if s.lastFired == s.pending then (s.(pending := None), [])
    else (s.(pending := None, lastFired := s.pending), [InputSwitch(s.pending.value, s.lastFired)])
  }

  /** `armed` says whether arming the debounce timer succeeds. */
  function Observed(s: State, obs: Observation, armed: bool): (State, seq<Hook>) {
    match obs
    case TvStandby =>
      if s.power == Standby then (s, []) else (s.(power := Standby), [TvStandbyHook(s.power)])
    case TvPowerReport(power) =>
      if power != PowerOn || s.power == On then (s, []) else (s.(power := On), [TvWakeHook(s.power)])
    case ActiveSource(address) =>
      if armed then (s.(pending := Some(address), timer := Armed), [])
      else Committed(s.(pending := Some(address)))
    case HostActivated(logical) => (s, [HostActivatedHook(logical)])
    case HostDeactivated(logical) => (s, [HostDeactivatedHook(logical)])
  }

  /** The timer's handler: a read that finds no expiry commits nothing. */
  function DebounceFired(s: State): (State, seq<Hook>) {
    if s.timer != Expired then (s, []) else Committed(s.(timer := Off))
  }

  // ---------------------------------------------------------------------
  // The class
  // ---------------------------------------------------------------------

  /** The executor's queue. */
  class HookExecutor {
    var jobs: seq<Hook>

    constructor ()
      ensures jobs == []
    {
      jobs := [];
    }

    method Submit(job: Hook)
      modifies this
      ensures jobs == old(jobs) + [job]
    {
      jobs := jobs + [job];
    }
  }

  const DEBOUNCE_WINDOW_MS := 200

  class CecHookSubsystem {
    const config: Config
    const executor: HookExecutor
    const debounceTimer: TimerSource
    var pendingPhysical: Option<Address>
    var lastFiredPhysical: Option<Address>
    var lastTvPower: Cached

    ghost function View(): State
      reads this, debounceTimer
    {
      State(pendingPhysical, lastFiredPhysical, lastTvPower, debounceTimer.state)
    }

    constructor (config: Config, executor: HookExecutor, debounceTimer: TimerSource)
      requires debounceTimer.state == Off
      ensures View() == FRESH
      ensures this.config == config && this.executor == executor && this.debounceTimer == debounceTimer
    {
      this.config := config;
      this.executor := executor;
      this.debounceTimer := debounceTimer;
      pendingPhysical, lastFiredPhysical, lastTvPower := None, None, Unknown;
    }

    method Submit(hook: Hook)
      modifies executor
      ensures executor.jobs == old(executor.jobs) + Submitted(config, [hook])
    {
      FlatMapOne((h: Hook) => if Scripted(config, h) then [h] else [], [], hook);
      if Scripted(config, hook) {
        executor.Submit(hook);
      }
    }

    method CommitPending()
      modifies this, executor
      ensures
        var (s, hooks) := Committed(old(View()));
        View() == s && executor.jobs == old(executor.jobs) + Submitted(config, hooks)
      ensures unchanged(debounceTimer)
    {
      if pendingPhysical.None? {
        return;
      }
      var committed := pendingPhysical.value;
      if lastFiredPhysical == Some(committed) {
        pendingPhysical := None;
        return;
      }
      Submit(InputSwitch(committed, lastFiredPhysical));
      lastFiredPhysical := Some(committed);
      pendingPhysical := None;
    }

    method Observe(obs: Observation)
      modifies this, executor, debounceTimer
      ensures
        var armed := debounceTimer.outcome(old(debounceTimer.arms));
        var (s, hooks) := Observed(old(View()), obs, armed);
        View() == s && executor.jobs == old(executor.jobs) + Submitted(config, hooks)
      ensures obs.ActiveSource? ==> debounceTimer.armedFor == 200
    {
      match obs {
        case TvStandby =>
          if lastTvPower != Standby {
            Submit(TvStandbyHook(lastTvPower));
            lastTvPower := Standby;
          }
        case TvPowerReport(power) =>
          if power != PowerOn || lastTvPower == On {
            return;
          }
          Submit(TvWakeHook(lastTvPower));
          lastTvPower := On;
        case ActiveSource(address) =>
          pendingPhysical := Some(address);
          var armed := debounceTimer.ArmOnce(DEBOUNCE_WINDOW_MS);
          if !armed {
            CommitPending();
          }
        case HostActivated(logical) =>
          Submit(HostActivatedHook(logical));
        case HostDeactivated(logical) =>
          Submit(HostDeactivatedHook(logical));
      }
    }

    method OnDebounceTimerFired()
      modifies this, executor, debounceTimer
      ensures
        var (s, hooks) := DebounceFired(old(View()));
        View() == s && executor.jobs == old(executor.jobs) + Submitted(config, hooks)
    {
      var expirations := debounceTimer.Consume();
      if expirations == 0 {
        return;
      }
      CommitPending();
    }
  }

  // ---------------------------------------------------------------------
  // Every history refines a list function
  // ---------------------------------------------------------------------

  /** What can happen: an observation, an expiry, the timer's handler, possibly too late or too early. */
  datatype Input = See(obs: Observation, armed: bool) | Expire | Handle

  /** The state, with the hooks fired and which active-source observations were committed. */
  datatype Trace = Trace(state: State, fired: seq<Hook>, seen: seq<Address>, committed: seq<nat>)

  function Step(s: State, i: Input): (State, seq<Hook>) {
    match i
    case See(obs, armed) => Observed(s, obs, armed)
    case Expire => (if s.timer == Armed then s.(timer := Expired) else s, [])
    case Handle => DebounceFired(s)
  }

  /** This input commits the latest address observed. */
  predicate Commits(s: State, i: Input) {
    match i
    case See(obs, armed) => obs.ActiveSource? && !armed
    case Expire => false
    case Handle => s.timer == Expired && s.pending.Some?
  }

  function Advance(t: Trace, i: Input): Trace {
    var (state, hooks) := Step(t.state, i);
    var seen := t.seen + (if i.See? && i.obs.ActiveSource? then [i.obs.address] else []);
    Trace(state, t.fired + hooks, seen,
          t.committed + (if Commits(t.state, i) && seen != [] then [|seen| - 1] else []))
  }

  function History(inputs: seq<Input>): Trace {
    if inputs == [] then Trace(FRESH, [], [], [])
    else Advance(History(inputs[..|inputs| - 1]), inputs[|inputs| - 1])
  }

  /** `xs` without the elements equal to the one before them. */
  function Squeeze<T(==)>(xs: seq<T>): (r: seq<T>)
    ensures xs == [] <==> r == []
    ensures xs != [] ==> r[|r| - 1] == xs[|xs| - 1]
  {
    if xs == [] then []
    else
      var shorter := Squeeze(xs[..|xs| - 1]);
      if shorter != [] && shorter[|shorter| - 1] == xs[|xs| - 1] then shorter else shorter + [xs[|xs| - 1]]
  }

  /** What a squeezed list is: the same values with no two equal neighbours. */
  lemma {:induction false} SqueezeHasNoRepeats<T>(xs: seq<T>)
    ensures forall k :: 0 < k < |Squeeze(xs)| ==> Squeeze(xs)[k - 1] != Squeeze(xs)[k]
    ensures forall x :: x in Squeeze(xs) <==> x in xs
  {
    if xs != [] {
      SqueezeHasNoRepeats(xs[..|xs| - 1]);
      assert xs == xs[..|xs| - 1] + [xs[|xs| - 1]];
    }
  }

  /** The power changes an observation stands for. */
  function EdgeOf(i: Input): seq<Cached> {
    if i.See? && i.obs.TvStandby? then [Standby]
    else if i.See? && i.obs == TvPowerReport(PowerOn) then [On]
    else []
  }

  function HostOf(i: Input): seq<Hook> {
    if i.See? && i.obs.HostActivated? then [HostActivatedHook(i.obs.logical)]
    else if i.See? && i.obs.HostDeactivated? then [HostDeactivatedHook(i.obs.logical)]
    else []
  }

  function PowerHookOf(h: Hook): seq<Hook> {
    if h.TvStandbyHook? || h.TvWakeHook? then [h] else []
  }

  function SwitchOf(h: Hook): seq<Hook> {
    if h.InputSwitch? then [h] else []
  }

  function HostHookOf(h: Hook): seq<Hook> {
    if h.HostActivatedHook? || h.HostDeactivatedHook? then [h] else []
  }

  /** The hooks a list of power states fires: one per entry, with the entry before it as the previous one. */
  function PowerHooks(states: seq<Cached>): seq<Hook> {
    if states == [] then []
    else
      var last := |states| - 1;
      var previous := if last == 0 then Unknown else states[last - 1];
      PowerHooks(states[..last]) + [if states[last] == On then TvWakeHook(previous) else TvStandbyHook(previous)]
  }

  function SwitchHooks(addresses: seq<Address>): seq<Hook> {
    if addresses == [] then []
    else
      var last := |addresses| - 1;
      SwitchHooks(addresses[..last])
      + [InputSwitch(addresses[last], if last == 0 then None else Some(addresses[last - 1]))]
  }

  function Last<T>(xs: seq<T>): Option<T> {
    if xs == [] then None else Some(xs[|xs| - 1])
  }

  /** The addresses committed. */
  function Chosen(t: Trace): seq<Address>
    requires forall k :: 0 <= k < |t.committed| ==> t.committed[k] < |t.seen|
  {
    seq(|t.committed|, k requires 0 <= k < |t.committed| => t.seen[t.committed[k]])
  }

  /** Commitments pick ever later observations; an address not committed yet has a timer coming. */
  ghost predicate Settling(t: Trace) {
    && (forall k :: 0 <= k < |t.committed| ==> t.committed[k] < |t.seen|)
    && (forall j, k :: 0 <= j < k < |t.committed| ==> t.committed[j] < t.committed[k])
    && (t.state.pending.Some? ==>
          && t.state.timer != Off
          && t.state.pending == Last(t.seen)
          && (t.committed == [] || t.committed[|t.committed| - 1] < |t.seen| - 1))
    && (t.state.pending.None? && t.seen != [] ==> Last(t.committed) == Some(|t.seen| - 1))
  }

  lemma SettlingStep(t: Trace, i: Input)
    requires Settling(t)
    ensures Settling(Advance(t, i))
  {
    if i.Handle? {
      SettlingHandle(t);
    } else if i.See? && i.obs.ActiveSource? {
      SettlingSource(t, i);
    } else {
      SettlingOther(t, i);
    }
  }

  /** Nothing is observed or committed; at most the timer expires. */
  lemma SettlingOther(t: Trace, i: Input)
    requires Settling(t) && !i.Handle? && !(i.See? && i.obs.ActiveSource?)
    ensures Settling(Advance(t, i))
  {
    var u := Advance(t, i);
    assert u.seen == t.seen && u.committed == t.committed;
  }

  lemma SettlingHandle(t: Trace)
    requires Settling(t)
    ensures Settling(Advance(t, Handle))
  {
    var u := Advance(t, Handle);
    assert u.seen == t.seen;
    if Commits(t.state, Handle) {
      assert u.committed == t.committed + [|t.seen| - 1];
    } else {
      assert u.committed == t.committed;
    }
  }

  lemma SettlingSource(t: Trace, i: Input)
    requires Settling(t) && i.See? && i.obs.ActiveSource?
    ensures Settling(Advance(t, i))
  {
    var u := Advance(t, i);
    assert Last(u.seen) == Some(i.obs.address);
    assert |u.seen| == |t.seen| + 1;
    if i.armed {
      assert u.committed == t.committed;
    } else {
      assert u.committed == t.committed + [|t.seen|];
    }
  }

  lemma SqueezeSnoc<T>(xs: seq<T>, x: T)
    ensures Squeeze(xs + [x]) == if Last(Squeeze(xs)) == Some(x) then Squeeze(xs) else Squeeze(xs) + [x]
  {
    assert (xs + [x])[..|xs|] == xs;
  }

  lemma SwitchHooksSnoc(addresses: seq<Address>, a: Address)
    ensures SwitchHooks(addresses + [a]) == SwitchHooks(addresses) + [InputSwitch(a, Last(addresses))]
  {
    assert (addresses + [a])[..|addresses|] == addresses;
  }

  lemma PowerHooksSnoc(states: seq<Cached>, s: Cached)
    ensures
      var previous := if states == [] then Unknown else states[|states| - 1];
      PowerHooks(states + [s])
      == PowerHooks(states) + [if s == On then TvWakeHook(previous) else TvStandbyHook(previous)]
  {
    assert (states + [s])[..|states|] == states;
  }

  /** Which switches have fired, and which address was fired last. */
  ghost predicate SwitchesAgree(t: Trace)
    requires Settling(t)
  {
    && FlatMap(SwitchOf, t.fired) == SwitchHooks(Squeeze(Chosen(t)))
    && t.state.lastFired == Last(Squeeze(Chosen(t)))
  }

  lemma SwitchesStep(t: Trace, i: Input)
    requires Settling(t) && SwitchesAgree(t)
    ensures Settling(Advance(t, i)) && SwitchesAgree(Advance(t, i))
  {
    hide FlatMap, SwitchHooks, Squeeze;
    SettlingStep(t, i);
    var u := Advance(t, i);
    var hooks := Step(t.state, i).1;
    FlatMapConcat(SwitchOf, t.fired, hooks);
    if Commits(t.state, i) {
      CommitFires(t, i);
    } else {
      assert Chosen(u) == Chosen(t);
      NoSwitch(t.state, i);
    }
  }

  lemma NoSwitch(s: State, i: Input)
    requires !Commits(s, i)
    ensures FlatMap(SwitchOf, Step(s, i).1) == [] && Step(s, i).0.lastFired == s.lastFired
  {
    var hooks := Step(s, i).1;
    if hooks != [] {
      FlatMapOne(SwitchOf, [], hooks[0]);
      assert hooks == [hooks[0]];
    }
  }

  /** A commit fires the pending address unless it was the last one fired. */
  lemma CommitHooks(s: State, i: Input, address: Address)
    requires Commits(s, i)
    requires address == if i.See? then i.obs.address else s.pending.value
    ensures
      var (r, hooks) := Step(s, i);
      && r.lastFired == Some(address)
      && FlatMap(SwitchOf, hooks) == if s.lastFired == Some(address) then [] else [InputSwitch(address, s.lastFired)]
  {
    hide FlatMap;
    var hooks := Step(s, i).1;
    FlatMapNothing(SwitchOf, []);
    FlatMapOne(SwitchOf, [], InputSwitch(address, s.lastFired));
    assert hooks == if s.lastFired == Some(address) then [] else [InputSwitch(address, s.lastFired)];
  }

  lemma SettlingBounds(t: Trace)
    requires Settling(t)
    ensures forall k :: 0 <= k < |t.committed| ==> t.committed[k] < |t.seen|
  {
  }

  /** The address committed is the last one observed. */
  lemma CommitChooses(t: Trace, i: Input) returns (address: Address)
    requires Settling(t) && Settling(Advance(t, i)) && Commits(t.state, i)
    ensures address == if i.See? then i.obs.address else t.state.pending.value
    ensures Chosen(Advance(t, i)) == Chosen(t) + [address]
  {
    hide Step;
    var u := Advance(t, i);
    address := u.seen[|u.seen| - 1];
  }

  lemma CommitFires(t: Trace, i: Input)
    requires Settling(t) && Settling(Advance(t, i)) && SwitchesAgree(t) && Commits(t.state, i)
    ensures
      var hooks := Step(t.state, i).1;
      var u := Advance(t, i);
      && FlatMap(SwitchOf, t.fired) + FlatMap(SwitchOf, hooks) == SwitchHooks(Squeeze(Chosen(u)))
      && u.state.lastFired == Last(Squeeze(Chosen(u)))
  {
    hide FlatMap, Squeeze, SwitchHooks, Step, Settling;
    var u := Advance(t, i);
    SettlingBounds(t);
    SettlingBounds(u);
    var address := CommitChooses(t, i);
    CommitHooks(t.state, i, address);
    SqueezeSnoc(Chosen(t), address);
    SwitchHooksSnoc(Squeeze(Chosen(t)), address);
  }

  function PowerAfter(edges: seq<Cached>): Cached {
    if edges == [] then Unknown else edges[|edges| - 1]
  }

  /** The power hooks fired, and the cached power. */
  ghost predicate PowerAgrees(t: Trace, edges: seq<Cached>) {
    && FlatMap(PowerHookOf, t.fired) == PowerHooks(Squeeze(edges))
    && t.state.power == PowerAfter(edges)
    && (forall e :: e in edges ==> e != Unknown)
  }

  /** A power edge fires unless it repeats the cached power; nothing else fires a power hook. */
  lemma EdgeHooks(s: State, i: Input)
    ensures
      var (r, hooks) := Step(s, i);
      var fired := FlatMap(PowerHookOf, hooks);
      if EdgeOf(i) == [] then fired == [] && r.power == s.power
      else
        var edge := EdgeOf(i)[0];
        && r.power == edge
        && fired == if s.power == edge then [] else [if edge == On then TvWakeHook(s.power) else TvStandbyHook(s.power)]
  {
    hide FlatMap;
    var hooks := Step(s, i).1;
    FlatMapNothing(PowerHookOf, []);
    if hooks != [] {
      FlatMapOne(PowerHookOf, [], hooks[0]);
      assert hooks == [hooks[0]];
    }
  }

  lemma EdgesSqueeze(edges: seq<Cached>, edge: Cached)
    requires edge != Unknown && forall e :: e in edges ==> e != Unknown
    ensures
      var power := PowerAfter(edges);
      PowerHooks(Squeeze(edges + [edge]))
      == PowerHooks(Squeeze(edges))
       + if power == edge then [] else [if edge == On then TvWakeHook(power) else TvStandbyHook(power)]
  {
    hide Squeeze, PowerHooks;
    SqueezeSnoc(edges, edge);
    PowerHooksSnoc(Squeeze(edges), edge);
  }

  lemma PowerStep(t: Trace, i: Input, edges: seq<Cached>)
    requires PowerAgrees(t, edges)
    ensures PowerAgrees(Advance(t, i), edges + EdgeOf(i))
  {
    hide FlatMap, Squeeze, PowerHooks, Step;
    FlatMapConcat(PowerHookOf, t.fired, Step(t.state, i).1);
    EdgeHooks(t.state, i);
    if EdgeOf(i) == [] {
      assert edges + [] == edges;
    } else {
      EdgesSqueeze(edges, EdgeOf(i)[0]);
      assert edges + EdgeOf(i) == edges + [EdgeOf(i)[0]];
    }
  }

  lemma HostStep(t: Trace, i: Input, hosts: seq<Hook>)
    requires FlatMap(HostHookOf, t.fired) == hosts
    ensures FlatMap(HostHookOf, Advance(t, i).fired) == hosts + HostOf(i)
  {
    hide FlatMap;
    var hooks := Step(t.state, i).1;
    FlatMapConcat(HostHookOf, t.fired, hooks);
    if hooks == [] {
      FlatMapNothing(HostHookOf, hooks);
    } else {
      FlatMapOne(HostHookOf, [], hooks[0]);
      assert hooks == [hooks[0]];
    }
  }

  /**
   * Over every history of observations, expiries and handler calls: the TV
   * power hooks are the Standby opcodes and ON reports without adjacent
   * repeats, each naming the one before it; the input-switch hooks are the
   * committed addresses without adjacent repeats, each naming the one before
   * it; the host hooks are the host observations one for one. Commitments
   * pick ever later observations, and an address waiting to be committed
   * always has its timer armed or expired unread, so that once nothing is
   * pending the last address observed has been committed.
   */
  lemma {:induction false} FiringsRefineLists(inputs: seq<Input>)
    ensures
      var t := History(inputs);
      && Settling(t) && SwitchesAgree(t)
      && PowerAgrees(t, FlatMap(EdgeOf, inputs))
      && FlatMap(HostHookOf, t.fired) == FlatMap(HostOf, inputs)
  {
    hide SwitchesAgree, Settling, PowerAgrees, Advance;
    if inputs == [] {
      NothingFired();
    } else {
      var before, i := inputs[..|inputs| - 1], inputs[|inputs| - 1];
      FiringsRefineLists(before);
      SwitchesStep(History(before), i);
      PowerStep(History(before), i, FlatMap(EdgeOf, before));
      HostStep(History(before), i, FlatMap(HostOf, before));
    }
  }

  lemma NothingFired()
    ensures
      var t := Trace(FRESH, [], [], []);
      Settling(t) && SwitchesAgree(t) && PowerAgrees(t, []) && FlatMap(HostHookOf, t.fired) == []
  {
  }

  /** A settled address is never lost: with nothing pending, scripts last saw the last address observed. */
  lemma SettledAddressIsFired(inputs: seq<Input>)
    ensures
      var t := History(inputs);
      t.state.pending.None? ==> t.state.lastFired == Last(t.seen)
  {
    hide Squeeze, History;
    FiringsRefineLists(inputs);
    var t := History(inputs);
    if t.state.pending.None? && t.seen != [] {
      assert Chosen(t)[|t.committed| - 1] == t.seen[|t.seen| - 1];
    } else if t.state.pending.None? {
      assert t.committed == [] && Chosen(t) == [];
    }
  }

  /** The scripts run are those of the fired hooks that have one; order and repetition are kept. */
  lemma {:induction false} SubmittedIsFiltered(cfg: Config, hooks: seq<Hook>, more: seq<Hook>)
    ensures forall h :: h in Submitted(cfg, hooks) <==> h in hooks && Scripted(cfg, h)
    ensures Submitted(cfg, hooks + more) == Submitted(cfg, hooks) + Submitted(cfg, more)
  {
    FlatMapConcat((h: Hook) => if Scripted(cfg, h) then [h] else [], hooks, more);
    if hooks != [] {
      SubmittedIsFiltered(cfg, hooks[..|hooks| - 1], []);
      assert hooks == hooks[..|hooks| - 1] + [hooks[|hooks| - 1]];
    }
  }

  // ---------------------------------------------------------------------
  // Scripts, event by event
  // ---------------------------------------------------------------------

  function StandbyOf(h: Hook): seq<Hook> { if h.TvStandbyHook? then [h] else [] }
  function WakeOf(h: Hook): seq<Hook> { if h.TvWakeHook? then [h] else [] }
  function ActivatedOf(h: Hook): seq<Hook> { if h.HostActivatedHook? then [h] else [] }
  function DeactivatedOf(h: Hook): seq<Hook> { if h.HostDeactivatedHook? then [h] else [] }

  /** `kind` picks out the hooks of one event. */
  lemma {:induction false} ScriptsOf(cfg: Config, kind: Hook -> seq<Hook>, scripted: bool, hooks: seq<Hook>)
    requires forall h :: kind(h) == [] || (kind(h) == [h] && Scripted(cfg, h) == scripted)
    ensures FlatMap(kind, Submitted(cfg, hooks)) == if scripted then FlatMap(kind, hooks) else []
  {
    if hooks == [] {
    } else {
      var init, h := hooks[..|hooks| - 1], hooks[|hooks| - 1];
      ScriptsOf(cfg, kind, scripted, init);
      FlatMapConcat(kind, Submitted(cfg, init), if Scripted(cfg, h) then [h] else []);
      FlatMapOne(kind, [], h);
      assert FlatMap(kind, hooks) == FlatMap(kind, init) + kind(h);
    }
  }

  /** Picking out one event's hooks among those of two events. */
  lemma {:induction false} KindWithin(kind: Hook -> seq<Hook>, wider: Hook -> seq<Hook>, hooks: seq<Hook>)
    requires forall h :: wider(h) == [h] || (wider(h) == [] && kind(h) == [])
    ensures FlatMap(kind, FlatMap(wider, hooks)) == FlatMap(kind, hooks)
  {
    if hooks != [] {
      var init, h := hooks[..|hooks| - 1], hooks[|hooks| - 1];
      KindWithin(kind, wider, init);
      FlatMapConcat(kind, FlatMap(wider, init), wider(h));
      FlatMapOne(kind, [], h);
    }
  }

  /**
   * Over every history, what reaches the executor, event by event. Each event
   * with a script of its own runs it for exactly its firings, in order; an
   * event without one runs nothing.
   */
  lemma ScriptsRun(cfg: Config, inputs: seq<Input>)
    ensures
      var t := History(inputs);
      var jobs := Submitted(cfg, t.fired);
      var power := PowerHooks(Squeeze(FlatMap(EdgeOf, inputs)));
      var hosts := FlatMap(HostOf, inputs);
      && Settling(t)
      && FlatMap(StandbyOf, jobs) == (if cfg.tvStandby then FlatMap(StandbyOf, power) else [])
      && FlatMap(WakeOf, jobs) == (if cfg.tvWake then FlatMap(WakeOf, power) else [])
      && FlatMap(SwitchOf, jobs) == (if cfg.inputSwitch then SwitchHooks(Squeeze(Chosen(t))) else [])
      && FlatMap(ActivatedOf, jobs) == (if cfg.hostActivated then FlatMap(ActivatedOf, hosts) else [])
      && FlatMap(DeactivatedOf, jobs) == (if cfg.hostDeactivated then FlatMap(DeactivatedOf, hosts) else [])
  {
    hide History, Submitted, PowerHooks, Squeeze, SwitchHooks, FlatMap;
    FiringsRefineLists(inputs);
    var fired := History(inputs).fired;
    ScriptsOf(cfg, StandbyOf, cfg.tvStandby, fired);
    ScriptsOf(cfg, WakeOf, cfg.tvWake, fired);
    ScriptsOf(cfg, SwitchOf, cfg.inputSwitch, fired);
    ScriptsOf(cfg, ActivatedOf, cfg.hostActivated, fired);
    ScriptsOf(cfg, DeactivatedOf, cfg.hostDeactivated, fired);
    KindWithin(StandbyOf, PowerHookOf, fired);
    KindWithin(WakeOf, PowerHookOf, fired);
    KindWithin(ActivatedOf, HostHookOf, fired);
    KindWithin(DeactivatedOf, HostHookOf, fired);
  }
}
