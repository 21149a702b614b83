/** The worker: its job queue, and the thread that runs one job at a time on the adapter. */
module AdapterWorkers {
  import opened Wire
  import opened Supervisor
  import opened Pipeline
  import WQ = WorkQueue

  class AdapterWorker {
    var jobs: seq<Job>
    var stopRequested: bool
    var adapterHeld: bool
    var connected: bool  // the adapter's own flag; its callbacks may clear it at any time

    constructor (connected: bool)
      ensures jobs == [] && !stopRequested && adapterHeld && this.connected == connected
    {
      jobs, stopRequested, adapterHeld := [], false, true;
      this.connected := connected;
    }

    /** Dropped without a word once stop has been requested. */
    method Submit(job: Job)
      modifies this`jobs
      ensures jobs == if stopRequested then old(jobs) else old(jobs) + [job]
    {
      if stopRequested {
        return;
      }
      jobs := jobs + [job];
    }

    method IsAdapterConnected() returns (b: bool)
      ensures b <==> adapterHeld && connected
    {
      return adapterHeld && connected;
    }

    /** The worker's critical section: the next job, or nothing; after stop the queue is dropped. */
    method TakeJob() returns (job: Option<Job>)
      modifies this`jobs
      ensures stopRequested ==> job.None? && jobs == []
      ensures !stopRequested && old(jobs) == [] ==> job.None? && jobs == []
      ensures !stopRequested && old(jobs) != [] ==> job == Some(old(jobs)[0]) && jobs == old(jobs)[1..]
    {
      if stopRequested {
        jobs := [];
        return None;
      }
      if jobs == [] {
        return None;
      }
      job := Some(jobs[0]);
      jobs := jobs[1..];
    }

    /** Stop as seen once the thread has been joined: jobs dropped, adapter closed and released. */
    method Stop()
      modifies this
      ensures stopRequested
      ensures !old(stopRequested) ==> jobs == [] && !connected && !adapterHeld
      ensures old(stopRequested) ==> unchanged(this)
    {
      if stopRequested {
        return;
      }
      stopRequested := true;
      var dropped := TakeJob();
      connected := false;
      adapterHeld := false;
    }
  }

  /** The thread's own state: the job it has in hand. */
  class WorkerThread {
    const worker: AdapterWorker
    const work: WQ.MainThreadWork<Post>
    var stage: Stage
    ghost var ran: seq<Job>
    ghost var met: seq<bool>
    ghost var results: seq<bool>

    constructor (worker: AdapterWorker, work: WQ.MainThreadWork<Post>)
      ensures this.worker == worker && this.work == work && stage == Resting && ran == [] && met == [] && results == []
    {
      this.worker, this.work := worker, work;
      stage := Resting;
      ran, met, results := [], [], [];
    }

    method Dequeue()
      requires stage == Resting && !worker.stopRequested && worker.jobs != []
      modifies this`stage, worker`jobs
      ensures stage == Fetched(old(worker.jobs)[0], false) && worker.jobs == old(worker.jobs)[1..]
    {
      var job := worker.TakeJob();
      stage := Fetched(job.value, false);
    }

    /** A reopen starts by closing what is open. */
    method StartReopening()
      requires stage.Fetched? && Reopens(stage.job)
      modifies this`stage, worker`connected
      ensures !worker.connected && stage == old(stage).(closing := true)
    {
      stage := stage.(closing := true);
      worker.connected := false;
    }

    /** The job's adapter calls; `ok` is what they answer. */
    method Perform(ok: bool)
      requires stage.Fetched?
      modifies this`stage, this`ran, this`met, worker`connected
      ensures (worker.connected, stage) == AdapterCalls(old(worker.connected), old(stage).job, ok)
      ensures ran == old(ran) + [old(stage).job] && met == old(met) + [old(worker.connected)]
    {
      var job := stage.job;
      ghost var before := ran;
      met := met + [worker.connected];
      match job {
        case SuspendJob =>
          worker.connected := false;
          stage := Ran(job, true);
        case ResumeJob =>
          worker.connected := ok;
          stage := Reopened;
        case ReconnectJob(_) =>
          worker.connected := ok;
          stage := Ran(job, ok);
        case ScanJob =>
          stage := Ran(job, ok);
        case LiveJob(req) =>
          RunCommand(job, req.msg, ok);
        case ReplayJob(req) =>
          RunCommand(job, req.msg, ok);
      }
      ran := before + [job];
    }

    /** The connection gate, then the command's handler. */
    method RunCommand(job: Job, msg: Message, ok: bool)
      modifies this`stage, worker`connected
      ensures
        var (connected, done) := ExecuteOnAdapter(old(worker.connected), msg, ok);
        worker.connected == connected && stage == Ran(job, done)
    {
      stage := Ran(job, false);
      var spec := FindDispatchByType(msg.ty);
      if spec.None? || spec.value.dispatch != AdapterCall {
        return;
      }
      if spec.value.requiresConnection && !worker.connected {
        return;
      }
      if msg.ty == CMD_RESTART_ADAPTER {
        worker.connected := ok;
      } else if (msg.ty == CMD_CHANGE_SOURCE || msg.ty == CMD_KEY) && msg.data == [] {
        return;
      }
      stage := Ran(job, ok);
    }

    /** The second read of the connection flag, after a resume has reopened the adapter. */
    method Probe()
      requires stage == Reopened
      modifies this`stage
      ensures stage == Ran(ResumeJob, worker.connected)
    {
      stage := Ran(ResumeJob, worker.connected);
    }

    method Finish()
      requires stage.Ran? && work.Valid()
      modifies this`stage, this`results, work
      ensures work.Valid() && stage == Resting && results == old(results) + [old(stage).ok]
      ensures work.pending == old(work.pending) + Completion(old(stage).job, old(stage).ok)
    {
      results := results + [stage.ok];
      match stage.job {
        case SuspendJob =>
          work.Post(SuspendDone);
        case ResumeJob =>
          work.Post(ResumeDone(stage.ok));
        case ReconnectJob(attempt) =>
          work.Post(ReconnectDone(attempt, stage.ok));
        case LiveJob(req) =>
          work.Post(Answer(req, if stage.ok then Success else Error));
        case _ =>
      }
      stage := Resting;
    }
  }
}
