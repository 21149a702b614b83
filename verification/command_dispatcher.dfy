/** Dispatching commands: answered at once, parked, or handed to the worker. */
module CommandDispatchers {
  import opened Wire
  import opened Supervisor
  import opened Pipeline
  import opened AdapterWorkers
  import opened AdapterLifecycles
  import opened StandbyPolicies

  /** Where replies go: every invocation of a sink, in order. */
  class ReplySinks {
    var invoked: seq<Reply>

    constructor ()
      ensures invoked == []
    {
      invoked := [];
    }

    method Invoke(req: Request, response: Response)
      modifies this
      ensures invoked == old(invoked) + [Reply(req.id, response)]
    {
      invoked := invoked + [Reply(req.id, response)];
    }
  }

  class CommandDispatcher {
    const worker: AdapterWorker
    const lifecycle: AdapterLifecycle
    const standbyPolicy: StandbyPolicy
    const sinks: ReplySinks
    const queueCommandsDuringSuspend: bool
    var shutdownComplete: bool

    constructor (worker: AdapterWorker, lifecycle: AdapterLifecycle, standbyPolicy: StandbyPolicy,
                 sinks: ReplySinks, queueCommandsDuringSuspend: bool)
      ensures this.worker == worker && this.lifecycle == lifecycle && this.standbyPolicy == standbyPolicy
      ensures this.sinks == sinks && this.queueCommandsDuringSuspend == queueCommandsDuringSuspend
      ensures !shutdownComplete
    {
      this.worker, this.lifecycle, this.standbyPolicy := worker, lifecycle, standbyPolicy;
      this.sinks, this.queueCommandsDuringSuspend := sinks, queueCommandsDuringSuspend;
      shutdownComplete := false;
    }

    method Shutdown()
      modifies this`shutdownComplete
      ensures shutdownComplete
    {
      if shutdownComplete {
        return;
      }
      shutdownComplete := true;
    }

    /** What dispatching reads and writes, laid over `rest`. */
    ghost function Over(rest: Pipe): Pipe
      reads this, worker, lifecycle, lifecycle.suspendQueue, standbyPolicy, sinks
    {
      rest.(core := rest.core.(suspended := lifecycle.suspendQueue.suspended, jobs := worker.jobs),
            parked := lifecycle.suspendQueue.queued, accepted := lifecycle.accepted,
            standbyEnabled := standbyPolicy.enabled, queueing := queueCommandsDuringSuspend,
            closed := shutdownComplete, replies := sinks.invoked)
    }

    method Dispatch(req: Request)
      requires !worker.stopRequested
      modifies worker`jobs, lifecycle`accepted, lifecycle.suspendQueue`queued, standbyPolicy`enabled, sinks
      ensures forall rest: Pipe :: Over(rest) == Pipeline.Dispatch(old(Over(rest)), req)
    {
      hide DispatchOf;
      if shutdownComplete {
        sinks.Invoke(req, Error);
        return;
      }
      var found := FindDispatchByType(req.msg.ty);
      if found.None? {
        sinks.Invoke(req, Error);
        return;
      }
      var spec := found.value;
      if spec.dispatch == SupervisorIntercepted {
        sinks.Invoke(req, Error);
        return;
      }
      if lifecycle.suspendQueue.suspended {
        var response := HandleSuspendedInline(req, spec);
        sinks.Invoke(req, response);
        return;
      }
      match spec.dispatch {
        case StateOnly =>
          var response := standbyPolicy.Apply(req.msg.data);
          sinks.Invoke(req, response);
        case AdapterCall =>
          worker.Submit(LiveJob(req));
      }
    }

    method HandleSuspendedInline(req: Request, spec: DispatchSpec) returns (response: Response)
      requires lifecycle.suspendQueue.suspended
      modifies lifecycle`accepted, lifecycle.suspendQueue`queued
      ensures response == if queueCommandsDuringSuspend && spec.queueable then Success else Error
      ensures lifecycle.suspendQueue.queued
           == old(lifecycle.suspendQueue.queued) + if response == Success then [req] else []
      ensures lifecycle.accepted == old(lifecycle.accepted) + if response == Success then [req] else []
    {
      if queueCommandsDuringSuspend && spec.queueable {
        lifecycle.Enqueue(req);
        return Success;
      }
      return Error;
    }

    /** Every entry is submitted: only adapter calls are ever parked. */
    method Replay(commands: seq<Request>)
      requires !worker.stopRequested
      requires AllParkable(commands)
      modifies worker`jobs
      ensures worker.jobs == old(worker.jobs) + Replays(commands)
    {
      var i := 0;
      while i < |commands|
        invariant 0 <= i <= |commands|
        invariant worker.jobs == old(worker.jobs) + Replays(commands[..i])
      {
        assert Replays(commands[..i + 1]) == Replays(commands[..i]) + [ReplayJob(commands[i])];
        var spec := FindDispatchByType(commands[i].msg.ty);
        if spec.None? || spec.value.dispatch != AdapterCall {
          i := i + 1;
          continue;
        }
        worker.Submit(ReplayJob(commands[i]));
        i := i + 1;
      }
      assert commands[..i] == commands;
    }
  }

  /** A command that the dispatcher may have parked. */
  predicate Parkable(req: Request) {
    var spec := DispatchOf(req.msg.ty);
    spec.Some? && spec.value.dispatch.AdapterCall?
  }

  ghost predicate AllParkable(reqs: seq<Request>) {
    forall k :: 0 <= k < |reqs| ==> Parkable(reqs[k])
  }

  /** Dispatching parks nothing that a replay would skip. */
  lemma DispatchParksAdapterCalls(s: Pipe, req: Request)
    requires AllParkable(s.parked)
    ensures AllParkable(Pipeline.Dispatch(s, req).parked)
  {
    hide DispatchOf;
    TableClassifies(req.msg.ty);
  }
}
