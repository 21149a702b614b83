/** Auto-suspend when the TV goes to standby: a flag, an arming gate and a deferred request. */
module StandbyPolicies {
  import opened Wire
  import opened Pipeline
  import WQ = WorkQueue

  class StandbyPolicy {
    const work: WQ.MainThreadWork<Post>
    var enabled: bool
    var armed: bool

    constructor (initialEnabled: bool, work: WQ.MainThreadWork<Post>)
      ensures enabled == initialEnabled && !armed && this.work == work
    {
      enabled, armed := initialEnabled, false;
      this.work := work;
    }

    method Apply(data: seq<bv8>) returns (response: Response)
      modifies this`enabled
      ensures response == Error <==> data == []
      ensures enabled == if data == [] then old(enabled) else data[0] > 0
    {
      if data == [] {
        return Error;
      }
      enabled := data[0] > 0;
      return Success;
    }

    method Observe(tvStandby: bool)
      requires work.Valid()
      modifies work
      ensures work.Valid()
      ensures work.pending == old(work.pending) + if tvStandby && armed && enabled then [SuspendSystem] else []
    {
      if !tvStandby {
        return;
      }
      if !armed {
        return;
      }
      if !enabled {
        return;
      }
      work.Post(SuspendSystem);
    }

    method Arm()
      modifies this`armed
      ensures armed
    {
      if armed {
        return;
      }
      armed := true;
    }
  }
}
