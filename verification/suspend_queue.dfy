/** Commands parked while the system is suspended. */
module SuspendQueues {

  class SuspendQueue<T> {
    var suspended: bool
    var queued: seq<T>

    constructor ()
      ensures !suspended && queued == []
    {
      suspended, queued := false, [];
    }

    method EnterSuspended()
      modifies this`suspended
      ensures suspended
    {
      suspended := true;
    }

    method ExitSuspended()
      modifies this`suspended
      ensures !suspended
    {
      suspended := false;
    }

    method Push(command: T)
      modifies this`queued
      ensures queued == if suspended then old(queued) + [command] else old(queued)
    {
      if !suspended {
        return;
      }
      queued := queued + [command];
    }

    method Drain() returns (drained: seq<T>)
      modifies this`queued
      ensures drained == old(queued) && queued == []
    {
      drained := queued;
      queued := [];
    }
  }
}
