/** A fixed retry schedule and the position reached in it. */
module Backoff {
  import opened Wire

  /** One step drawn from the schedule: its delay and its 1-based position. */
  datatype Attempt = Attempt(delay: int, index: nat, total: nat)

  class BackoffSchedule {
    const delays: seq<int>
    var attempt: nat

    ghost predicate Valid()
      reads this
    {
      attempt <= |delays|
    }

    constructor (delays: seq<int>)
      ensures Valid() && this.delays == delays && attempt == 0
    {
      this.delays := delays;
      attempt := 0;
    }

    /** The steps handed out so far are always `delays[..attempt]`, in order. */
    method NextDelay() returns (r: Option<Attempt>)
      requires Valid()
      modifies this
      ensures Valid()
      ensures r.None? <==> old(attempt) == |delays|
      ensures r.None? ==> attempt == old(attempt)
      ensures r.Some? ==>
                && attempt == old(attempt) + 1
                && delays[..attempt] == delays[..old(attempt)] + [r.value.delay]
                && r.value.index == attempt
                && r.value.total == |delays|
    {
      if attempt >= |delays| {
        return None;
      }
      var delay := delays[attempt];
      attempt := attempt + 1;
      return Some(Attempt(delay, attempt, |delays|));
    }

    method Reset()
      modifies this
      ensures Valid() && attempt == 0
    {
      attempt := 0;
    }
  }
}
