/** Suspending, resuming and reconnecting the adapter: the gates in front of the worker. */
module AdapterLifecycles {
  import opened Wire
  import opened Supervisor
  import opened Pipeline
  import opened AdapterWorkers
  import opened SuspendQueues

  class AdapterLifecycle {
    const worker: AdapterWorker
    const suspendQueue: SuspendQueue<Request>
    var shutdownComplete: bool
    ghost var accepted: seq<Request>
    ghost var fates: seq<Fate>

    constructor (worker: AdapterWorker)
      ensures this.worker == worker && fresh(suspendQueue)
      ensures !suspendQueue.suspended && suspendQueue.queued == [] && !shutdownComplete
      ensures accepted == [] && fates == []
    {
      this.worker := worker;
      suspendQueue := new SuspendQueue();
      shutdownComplete := false;
      accepted, fates := [], [];
    }

    /** Commands still parked are discarded, once. */
    method Shutdown()
      modifies this`shutdownComplete, this`fates, suspendQueue`queued
      ensures shutdownComplete
      ensures old(shutdownComplete) ==> fates == old(fates) && suspendQueue.queued == old(suspendQueue.queued)
      ensures !old(shutdownComplete) ==>
                suspendQueue.queued == [] && fates == old(fates) + Fates(old(suspendQueue.queued), false)
    {
      if shutdownComplete {
        return;
      }
      shutdownComplete := true;
      var toDiscard := suspendQueue.Drain();
      fates := fates + Fates(toDiscard, false);
    }

    method Enqueue(req: Request)
      modifies this`accepted, suspendQueue`queued
      ensures suspendQueue.suspended ==>
                suspendQueue.queued == old(suspendQueue.queued) + [req] && accepted == old(accepted) + [req]
      ensures !suspendQueue.suspended ==>
                suspendQueue.queued == old(suspendQueue.queued) && accepted == old(accepted)
    {
      suspendQueue.Push(req);
      if suspendQueue.suspended {
        accepted := accepted + [req];
      }
    }

    /** Whether the completion is due at once. */
    method SuspendAsync() returns (done: bool)
      requires !worker.stopRequested
      modifies suspendQueue`suspended, worker`jobs
      ensures done <==> shutdownComplete || old(suspendQueue.suspended)
      ensures suspendQueue.suspended == if done then old(suspendQueue.suspended) else true
      ensures worker.jobs == if done then old(worker.jobs) else old(worker.jobs) + [SuspendJob]
    {
      if shutdownComplete {
        return true;
      }
      if suspendQueue.suspended {
        return true;
      }
      suspendQueue.EnterSuspended();
      worker.Submit(SuspendJob);
      return false;
    }

    /** Whether the completion, a failed one, is due at once. */
    method ResumeAsync() returns (done: bool)
      requires !worker.stopRequested
      modifies worker`jobs
      ensures done <==> shutdownComplete || !suspendQueue.suspended
      ensures worker.jobs == if done then old(worker.jobs) else old(worker.jobs) + [ResumeJob]
    {
      if shutdownComplete {
        return true;
      }
      if !suspendQueue.suspended {
        return true;
      }
      worker.Submit(ResumeJob);
      return false;
    }

    ghost function GateNow(): Gate
      reads this, suspendQueue, worker
    {
      if shutdownComplete || suspendQueue.suspended then Closed
      else if worker.adapterHeld && worker.connected then Connected
      else Open
    }

    /** The result, when it is due at once. */
    method ReconnectAsync(attempt: nat) returns (done: Option<bool>)
      requires !worker.stopRequested
      modifies worker`jobs
      ensures done == match old(GateNow()) case Closed => Some(false) case Connected => Some(true) case Open => None
      ensures worker.jobs == if done.Some? then old(worker.jobs) else old(worker.jobs) + [ReconnectJob(attempt)]
    {
      if shutdownComplete {
        return Some(false);
      }
      if suspendQueue.suspended {
        return Some(false);
      }
      var connected := worker.IsAdapterConnected();
      if connected {
        return Some(true);
      }
      worker.Submit(ReconnectJob(attempt));
      return None;
    }

    /** Drains, then unsuspends; the drained commands are handed back only to a working adapter. */
    method OnResumeWorkerComplete(adapterValid: bool) returns (queued: seq<Request>)
      modifies this`fates, suspendQueue
      ensures !suspendQueue.suspended && suspendQueue.queued == []
      ensures fates == old(fates) + Fates(old(suspendQueue.queued), adapterValid)
      ensures queued == if adapterValid then old(suspendQueue.queued) else []
    {
      var drained := suspendQueue.Drain();
      suspendQueue.ExitSuspended();
      fates := fates + Fates(drained, adapterValid);
      if !adapterValid {
        return [];
      }
      return drained;
    }
  }
}
