/**
 * The suspend / resume sequencer: its transition functions, the class that
 * carries them out in place, and what it guarantees over every input history.
 */
module Lifecycle {
  import opened Seqs
  import opened Wire

  datatype Source = DBus | Wire

  datatype Phase = Idle | Suspending | Resuming

  datatype Kind = Suspend | Resume

  /** A request to suspend or resume, and who made it. */
  datatype Entry = Entry(kind: Kind, source: Source)

  datatype Work = NoWork | StartSuspend | StartResume
  datatype Lock = Release | Take
  datatype TimerOp = NoTimer | Arm | Disarm
  datatype Notify = NoNotify | SystemSuspend | SystemResume
  datatype SafetyOutcome = Inert | Fired | Overrun

  datatype Output = Output(
    work: Work, lock: Option<Lock>, safetyTimer: TimerOp, safetyDelay: nat,
    reconnectNotify: Notify, safety: SafetyOutcome)

  const INERT := Output(NoWork, None, NoTimer, 0, NoNotify, Inert)

  const SUSPEND_SAFETY_DEADLINE_MS := 10_000

  datatype Machine = Machine(phase: Phase, source: Source, safetyFired: bool, pending: seq<Entry>)
  {
    /** The request being carried out, when one is. */
    function Active(): Option<Entry> {
      match phase
      case Idle => None
      case Suspending => Some(Entry(Suspend, source))
      case Resuming => Some(Entry(Resume, source))
    }

    function EffectiveTail(): Option<Entry> {
      if pending != [] then Some(pending[|pending| - 1]) else Active()
    }
  }

  const AT_REST := Machine(Idle, DBus, false, [])

  function Requested(m: Machine, e: Entry): Machine {
    if m.EffectiveTail() == Some(e) then m else m.(pending := m.pending + [e])
  }

  function Pumped(m: Machine): (Machine, Output) {
    if m.phase != Idle || m.pending == [] then (m, INERT)
    else
      var next := m.pending[0];
      var rest := m.(pending := m.pending[1..], source := next.source);
      match next.kind
      case Suspend =>
        (rest.(phase := Suspending, safetyFired := false),
         Output(StartSuspend, None, Arm, SUSPEND_SAFETY_DEADLINE_MS, SystemSuspend, Inert))
      case Resume =>
        (rest.(phase := Resuming), Output(StartResume, None, NoTimer, 0, SystemResume, Inert))
  }

  function SuspendCompleted(m: Machine): (Machine, Output) {
    if m.phase != Suspending then (m, INERT)
    else
      (m.(phase := Idle, safetyFired := false),
       if m.safetyFired then INERT.(safetyTimer := Disarm, safety := Overrun)
       else INERT.(safetyTimer := Disarm, lock := if m.source == DBus then Some(Release) else None))
  }

  function ResumeCompleted(m: Machine): (Machine, Output) {
    if m.phase != Resuming then (m, INERT)
    else (m.(phase := Idle), INERT.(lock := if m.source == DBus then Some(Take) else None))
  }

  function SafetyTimerFired(m: Machine): (Machine, Output) {
    if m.phase != Suspending || m.safetyFired then (m, INERT)
    else
      (m.(safetyFired := true),
       INERT.(safety := Fired, lock := if m.source == DBus then Some(Release) else None))
  }

  // ---------------------------------------------------------------------
  // The class
  // ---------------------------------------------------------------------

  class PowerLifecycle {
    var phase: Phase
    var phaseSource: Source
    var safetyFiredFirst: bool
    var pending: seq<Entry>

    ghost function View(): Machine
      reads this
    {
      Machine(phase, phaseSource, safetyFiredFirst, pending)
    }

    constructor ()
      ensures View() == AT_REST
    {
      phase := Idle;
      phaseSource := DBus;
      safetyFiredFirst := false;
      pending := [];
    }

    method CoalescesWithEffectiveTail(kind: Kind, source: Source) returns (b: bool)
      ensures b <==> View().EffectiveTail() == Some(Entry(kind, source))
    {
      if pending != [] {
        var tail := pending[|pending| - 1];
        return tail.kind == kind && tail.source == source;
      }
      if phase == Idle {
        return false;
      }
      var activeKind := if phase == Suspending then Suspend else Resume;
      return activeKind == kind && phaseSource == source;
    }

    method OnSuspendRequested(source: Source) returns (out: Output)
      modifies this
      ensures View() == Requested(old(View()), Entry(Suspend, source)) && out == INERT
    {
      var coalesced := CoalescesWithEffectiveTail(Suspend, source);
      if !coalesced {
        pending := pending + [Entry(Suspend, source)];
      }
      return INERT;
    }

    method OnResumeRequested(source: Source) returns (out: Output)
      modifies this
      ensures View() == Requested(old(View()), Entry(Resume, source)) && out == INERT
    {
      var coalesced := CoalescesWithEffectiveTail(Resume, source);
      if !coalesced {
        pending := pending + [Entry(Resume, source)];
      }
      return INERT;
    }

    method PumpQueue() returns (out: Output)
      modifies this
      ensures (View(), out) == Pumped(old(View()))
    {
      if phase != Idle || pending == [] {
        return INERT;
      }
      var next := pending[0];
      pending := pending[1..];
      phaseSource := next.source;
      if next.kind == Suspend {
        out := MakeSuspendEntry();
      } else {
        out := MakeResumeEntry();
      }
    }

    method MakeSuspendEntry() returns (out: Output)
      modifies this`phase, this`safetyFiredFirst
      ensures phase == Suspending && !safetyFiredFirst
      ensures out == Output(StartSuspend, None, Arm, SUSPEND_SAFETY_DEADLINE_MS, SystemSuspend, Inert)
    {
      phase := Suspending;
      safetyFiredFirst := false;
      out := INERT.(work := StartSuspend, safetyTimer := Arm,
                    safetyDelay := SUSPEND_SAFETY_DEADLINE_MS, reconnectNotify := SystemSuspend);
    }

    method MakeResumeEntry() returns (out: Output)
      modifies this`phase
      ensures phase == Resuming
      ensures out == Output(StartResume, None, NoTimer, 0, SystemResume, Inert)
    {
      phase := Resuming;
      out := INERT.(work := StartResume, reconnectNotify := SystemResume);
    }

    method OnSuspendCompleted() returns (out: Output)
      modifies this
      ensures (View(), out) == SuspendCompleted(old(View()))
    {
      if phase != Suspending {
        return INERT;
      }
      var firedFirst := safetyFiredFirst;
      var src := phaseSource;
      phase := Idle;
      safetyFiredFirst := false;
      out := INERT.(safetyTimer := Disarm);
      if firedFirst {
        out := out.(safety := Overrun);
      } else if src == DBus {
        out := out.(lock := Some(Release));
      }
    }

    method OnResumeCompleted(adapterValid: bool) returns (out: Output)
      modifies this
      ensures (View(), out) == ResumeCompleted(old(View()))
    {
      if phase != Resuming {
        return INERT;
      }
      var src := phaseSource;
      phase := Idle;
      out := INERT;
      if src == DBus {
        out := out.(lock := Some(Take));
      }
    }

    method OnSafetyTimerFired() returns (out: Output)
      modifies this
      ensures (View(), out) == SafetyTimerFired(old(View()))
    {
      if phase != Suspending || safetyFiredFirst {
        return INERT;
      }
      safetyFiredFirst := true;
      out := INERT.(safety := Fired);
      if phaseSource == DBus {
        out := out.(lock := Some(Release));
      }
    }

    /** Deliberately does nothing: completion then releases the lock. */
    method OnSafetyTimerArmFailed() returns (out: Output)
      ensures out == INERT
    {
      return INERT;
    }
  }

  // ---------------------------------------------------------------------
  // Guarantees over every history of inputs, stale ones included
  // ---------------------------------------------------------------------

  datatype Input = Request(e: Entry) | Pump | SuspendDone | ResumeDone | SafetyFires

  function Step(m: Machine, i: Input): (Machine, Output) {
    match i
    case Request(e) => (Requested(m, e), INERT)
    case Pump => Pumped(m)
    case SuspendDone => SuspendCompleted(m)
    case ResumeDone => ResumeCompleted(m)
    case SafetyFires => SafetyTimerFired(m)
  }

  /** The machine with everything it has emitted, and its cycles numbered from 0. */
  datatype Trace = Trace(m: Machine, locks: seq<Lock>, ended: nat, forced: set<nat>, overran: set<nat>)

  function Observe(t: Trace, i: Input): Trace {
    var (m, out) := Step(t.m, i);
    Trace(m,
          t.locks + (if out.lock.Some? then [out.lock.value] else []),
          t.ended + (if t.m.phase != Idle && m.phase == Idle then 1 else 0),
          t.forced + (if out.safety.Fired? then {t.ended} else {}),
          t.overran + (if out.safety.Overrun? then {t.ended} else {}))
  }

  function History(inputs: seq<Input>): Trace {
    if inputs == [] then Trace(AT_REST, [], 0, {}, {})
    else Observe(History(inputs[..|inputs| - 1]), inputs[|inputs| - 1])
  }

  /**
   * The reference: an append-only list of accepted requests and a count of
   * finished ones. A request is dropped only when it repeats the last
   * accepted request and that one is still unfinished.
   */
  datatype Ledger = Ledger(accepted: seq<Entry>, finished: nat)

  function Book(l: Ledger, i: Input, finishes: bool): Ledger {
    match i
    case Request(e) =>
      if l.finished < |l.accepted| && l.accepted[|l.accepted| - 1] == e then l
      else l.(accepted := l.accepted + [e])
    case _ => if finishes then l.(finished := l.finished + 1) else l
  }

  function Books(inputs: seq<Input>): Ledger {
    if inputs == [] then Ledger([], 0)
    else
      var before := inputs[..|inputs| - 1];
      Book(Books(before), inputs[|inputs| - 1], History(inputs).ended > History(before).ended)
  }

  /** What one finished request owes to the inhibit lock. */
  function LockOf(e: Entry): seq<Lock> {
    if e.source == Wire then [] else if e.kind == Suspend then [Release] else [Take]
  }

  function LocksOf(es: seq<Entry>): seq<Lock> {
    FlatMap(LockOf, es)
  }

  lemma LocksOfConcat(a: seq<Entry>, b: seq<Entry>)
    ensures LocksOf(a + b) == LocksOf(a) + LocksOf(b)
  {
    FlatMapConcat(LockOf, a, b);
  }

  /** From `from` on, no entry repeats the one before it. */
  ghost predicate NoRepeats(es: seq<Entry>, from: nat) {
    forall k :: from < k < |es| ==> es[k - 1] != es[k]
  }

  lemma NoRepeatsAppend(es: seq<Entry>, from: nat, e: Entry)
    requires NoRepeats(es, from) && (from < |es| ==> es[|es| - 1] != e)
    ensures NoRepeats(es + [e], from)
  {
  }

  /** The pending queue, the phase and the ledger hang together. */
  ghost predicate QueueAgrees(t: Trace, l: Ledger) {
    var begun := |l.accepted| - |t.m.pending|;
    && l.finished == t.ended <= begun
    && t.m.pending == l.accepted[begun..]
    && (t.m.phase == Idle ==> t.ended == begun)
    && (t.m.phase != Idle ==> t.ended + 1 == begun && t.m.Active() == Some(l.accepted[t.ended]))
    && NoRepeats(l.accepted, t.ended)
  }

  /** The lock effects emitted so far are those of the finished requests, plus a forced release. */
  ghost predicate LocksAgree(t: Trace, l: Ledger)
    requires t.ended <= |l.accepted|
  {
    var forced := t.m.phase == Suspending && t.m.safetyFired && t.m.source == DBus;
    t.locks == LocksOf(l.accepted[..t.ended]) + (if forced then [Release] else [])
  }

  /** A finished suspend is reported overrun exactly when the safety timer fired during it. */
  ghost predicate OverrunsAgree(t: Trace) {
    && (forall k :: k in t.forced ==> k < t.ended || (k == t.ended && t.m.phase == Suspending))
    && (forall k :: k in t.overran <==> k in t.forced && k < t.ended)
    && (t.m.phase == Suspending ==> (t.m.safetyFired <==> t.ended in t.forced))
  }

  /** The effective tail is the last accepted request, as long as that one is unfinished. */
  lemma TailIsLastAccepted(t: Trace, l: Ledger)
    requires QueueAgrees(t, l)
    ensures t.m.EffectiveTail()
         == if l.finished < |l.accepted| then Some(l.accepted[|l.accepted| - 1]) else None
  {
    hide NoRepeats;
    if t.m.pending != [] {
      assert t.m.pending[|t.m.pending| - 1] == l.accepted[|l.accepted| - 1];
    }
  }

  lemma QueueRequest(t: Trace, l: Ledger, e: Entry)
    requires QueueAgrees(t, l)
    ensures QueueAgrees(Observe(t, Request(e)), Book(l, Request(e), false))
  {
    hide NoRepeats, Machine.EffectiveTail;
    TailIsLastAccepted(t, l);
    if t.m.EffectiveTail() != Some(e) {
      var begun := |l.accepted| - |t.m.pending|;
      assert (l.accepted + [e])[begun..] == t.m.pending + [e];
      NoRepeatsAppend(l.accepted, t.ended, e);
    }
  }

  lemma QueuePump(t: Trace, l: Ledger)
    requires QueueAgrees(t, l)
    ensures QueueAgrees(Observe(t, Pump), l) && Observe(t, Pump).ended == t.ended
  {
    var begun := |l.accepted| - |t.m.pending|;
    if t.m.phase == Idle && t.m.pending != [] {
      assert t.m.pending[0] == l.accepted[begun] && t.m.pending[1..] == l.accepted[begun + 1..];
    }
  }

  lemma QueueEvent(t: Trace, l: Ledger, i: Input)
    requires QueueAgrees(t, l) && !i.Request? && !i.Pump?
    ensures QueueAgrees(Observe(t, i), Book(l, i, Observe(t, i).ended > t.ended))
  {
  }

  lemma QueueStep(t: Trace, l: Ledger, i: Input)
    requires QueueAgrees(t, l)
    ensures QueueAgrees(Observe(t, i), Book(l, i, Observe(t, i).ended > t.ended))
  {
    hide QueueAgrees;
    match i {
      case Request(e) => QueueRequest(t, l, e);
      case Pump => QueuePump(t, l);
      case _ => QueueEvent(t, l, i);
    }
  }

  lemma LocksStep(t: Trace, l: Ledger, i: Input)
    requires QueueAgrees(t, l) && LocksAgree(t, l)
    ensures Observe(t, i).ended <= |Book(l, i, Observe(t, i).ended > t.ended).accepted|
    ensures LocksAgree(Observe(t, i), Book(l, i, Observe(t, i).ended > t.ended))
  {
    var t' := Observe(t, i);
    var l' := Book(l, i, t'.ended > t.ended);
    var done := l.accepted[..t.ended];
    if t'.ended > t.ended {
      assert l.accepted[..t'.ended] == done + [l.accepted[t.ended]];
      FlatMapOne(LockOf, done, l.accepted[t.ended]);
    } else {
      assert l'.accepted[..t'.ended] == done;
    }
  }

  lemma OverrunsStep(t: Trace, i: Input)
    requires OverrunsAgree(t)
    ensures OverrunsAgree(Observe(t, i))
  {
  }

  /**
   * Coalescing refines the ledger: the requests started so far followed by
   * the pending queue are exactly the accepted list, requests start in the
   * order accepted, and what is still to be finished never holds two equal
   * neighbours. The lock effects are, at every moment, one Release for each
   * finished D-Bus suspend and one Take for each finished D-Bus resume, in
   * order, plus the forced Release of the suspend under way; Wire requests
   * touch the lock never. A suspend is reported overrun exactly when the
   * safety timer fired during it.
   */
  lemma {:induction false} EveryHistoryAgrees(inputs: seq<Input>)
    ensures QueueAgrees(History(inputs), Books(inputs))
    ensures LocksAgree(History(inputs), Books(inputs))
    ensures OverrunsAgree(History(inputs))
  {
    if inputs != [] {
      var before := inputs[..|inputs| - 1];
      var i := inputs[|inputs| - 1];
      EveryHistoryAgrees(before);
      QueueStep(History(before), Books(before), i);
      LocksStep(History(before), Books(before), i);
      OverrunsStep(History(before), i);
    }
  }

  /** Whether the lock is held after these effects. */
  function Held(initially: bool, locks: seq<Lock>): bool {
    if locks == [] then initially else locks[|locks| - 1] == Take
  }

  /** Whether the last D-Bus request was a resume. */
  function LastBusIsResume(initially: bool, es: seq<Entry>): bool {
    if es == [] then initially
    else if es[|es| - 1].source == DBus then es[|es| - 1].kind == Resume
    else LastBusIsResume(initially, es[..|es| - 1])
  }

  lemma {:induction false} HeldAfter(initially: bool, es: seq<Entry>)
    ensures Held(initially, LocksOf(es)) == LastBusIsResume(initially, es)
  {
    if es != [] {
      HeldAfter(initially, es[..|es| - 1]);
    }
  }

  /** At rest the lock is held exactly when the last finished D-Bus request was a resume. */
  lemma LockAtRest(inputs: seq<Input>, initially: bool)
    requires History(inputs).m.phase == Idle
    ensures Books(inputs).finished <= |Books(inputs).accepted|
    ensures Held(initially, History(inputs).locks)
         == LastBusIsResume(initially, Books(inputs).accepted[..Books(inputs).finished])
  {
    EveryHistoryAgrees(inputs);
    HeldAfter(initially, Books(inputs).accepted[..Books(inputs).finished]);
  }
}
