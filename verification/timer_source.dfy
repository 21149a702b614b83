/** One-shot timers. Time does not pass in the model: an armed timer may expire at any moment. */
module Timers {

  datatype Timer = Off | Armed | Expired

  /** What arming for `ms` milliseconds leaves: a negative duration disarms, and zero still fires once. */
  function Rearmed(t: Timer, ms: int, accepted: bool): Timer {
    if ms < 0 then Off else if accepted then Armed else t
  }

  predicate Arms(ms: int, accepted: bool) {
    ms >= 0 && accepted
  }

  /** `outcome(k)` says whether the system call of the k-th arming, if it is made, succeeds. */
  class TimerSource {
    const outcome: nat -> bool
    var state: Timer
    var arms: nat
    var armedFor: int  // the duration last asked for

    constructor (outcome: nat -> bool)
      ensures this.outcome == outcome && state == Off && arms == 0
    {
      this.outcome := outcome;
      state, arms, armedFor := Off, 0, 0;
    }

    /** Arming again discards an expiry not read yet. */
    method ArmOnce(ms: int) returns (ok: bool)
      modifies this
      ensures ok == Arms(ms, outcome(old(arms))) && arms == old(arms) + 1 && armedFor == ms
      ensures state == Rearmed(old(state), ms, outcome(old(arms)))
    {
      var accepted := outcome(arms);
      arms, armedFor := arms + 1, ms;
      if ms < 0 {
        Disarm();
        return false;
      }
      if accepted {
        state := Armed;
      }
      return accepted;
    }

    method Disarm()
      modifies this`state
      ensures state == Off
    {
      state := Off;
    }

    /** The kernel lets an armed timer expire. */
    method Expire()
      requires state == Armed
      modifies this`state
      ensures state == Expired
    {
      state := Expired;
    }

    /** The expirations since the last read: 0 when the read would block. */
    method Consume() returns (expirations: nat)
      modifies this`state
      ensures expirations == if old(state) == Expired then 1 else 0
      ensures state == Consumed(old(state))
    {
      if state != Expired {
        return 0;
      }
      state := Off;
      return 1;
    }
  }

  function Consumed(t: Timer): Timer {
    if t == Expired then Off else t
  }
}
