/** The coordination fields of src/queue/QueueService.ts and the methods that update them. */
module QueueService {
  import opened Strings
  import opened QueueWake

  class Coordination {
    var pendingWake: set<Queue>
    var drainingQueues: set<Queue>
    var isDisposed: bool
    var delayedTimer: bool
    var nextDelayedTargetMs: Option<int>

    /** What the event loop holds: callbacks of setImmediate that have not fired, and drains at an await. */
    var immediates: multiset<Queue>
    var suspended: multiset<Queue>

    /** History: queues woken since their last drain started. */
    ghost var owed: set<Queue>

    ghost function View(): Coordinator
      reads this
    {
      Coordinator(pendingWake, drainingQueues, isDisposed, immediates, suspended, owed)
    }

    function Delayed(): Timer
      reads this
    {
      Timer(delayedTimer, nextDelayedTargetMs)
    }

    constructor ()
      ensures View() == Idle() && Inv(View()) && Delayed() == Timer(false, None)
    {
      pendingWake, drainingQueues, isDisposed := {}, {}, false;
      delayedTimer, nextDelayedTargetMs := false, None;
      immediates, suspended, owed := multiset{}, multiset{}, {};
    }

    method WakeWorker(queueName: Queue)
      modifies this
      ensures View() == old(QueueWake.WakeWorker(View(), queueName)) && Delayed() == old(Delayed())
    {
      if isDisposed {
        return;
      }
      owed := owed + {queueName};
      if queueName in pendingWake {
        return;
      }
      pendingWake := pendingWake + {queueName};
      immediates := immediates + multiset{queueName};
    }

    method OnImmediate(queueName: Queue, available: bool)
      requires queueName in immediates
      modifies this
      ensures View() == old(FireCallback(View(), queueName, available)) && Delayed() == old(Delayed())
    {
      immediates := immediates - multiset{queueName};
      pendingWake := pendingWake - {queueName};
      if isDisposed || !available {
        return;
      }
      DrainQueue(queueName);
    }

    method DrainQueue(queueName: Queue)
      modifies this
      ensures View() == old(StartDrain(View(), queueName)) && Delayed() == old(Delayed())
    {
      if isDisposed {
        return;
      }
      if queueName in drainingQueues {
        pendingWake := pendingWake + {queueName};
        return;
      }
      drainingQueues := drainingQueues + {queueName};
      suspended := suspended + multiset{queueName};
      owed := owed - {queueName};
    }

    method DrainFinally(queueName: Queue)
      requires queueName in suspended
      modifies this
      ensures View() == old(FinishDrain(View(), queueName)) && Delayed() == old(Delayed())
    {
      suspended := suspended - multiset{queueName};
      drainingQueues := drainingQueues - {queueName};
      ghost var ended := View();
      assert ended
          == old(View().(drains := suspended - multiset{queueName}, drainingQueues := drainingQueues - {queueName}));
      if queueName in pendingWake && !isDisposed {
        pendingWake := pendingWake - {queueName};
        WakeWorker(queueName);
      }
    }

    method DeleteQueue(name: Queue)
      modifies this
      ensures View() == old(Next(View(), Delete(name))) && Delayed() == old(Delayed())
    {
      pendingWake := pendingWake - {name};
      drainingQueues := drainingQueues - {name};
    }

    method ResetAfterRestore()
      modifies this
      ensures View() == old(Next(View(), Reset))
      ensures !delayedTimer && (old(delayedTimer) ==> nextDelayedTargetMs.None?)
    {
      isDisposed := false;
      drainingQueues := {};
      pendingWake := {};
      if delayedTimer {
        delayedTimer := false;
        nextDelayedTargetMs := None;
      }
    }

    method Dispose()
      modifies this
      ensures View() == old(Next(View(), QueueWake.Dispose)) && Delayed() == Timer(false, old(nextDelayedTargetMs))
    {
      isDisposed := true;
      pendingWake := {};
      drainingQueues := {};
      if delayedTimer {
        delayedTimer := false;
      }
    }

    method ScheduleDelayedAt(targetMs: int)
      modifies this`delayedTimer, this`nextDelayedTargetMs
      ensures Delayed() == if isDisposed then old(Delayed()) else old(ScheduleAt(Delayed(), targetMs))
    {
      if isDisposed {
        return;
      }
      if nextDelayedTargetMs.Some? && nextDelayedTargetMs.value <= targetMs && delayedTimer {
        return;
      }
      if delayedTimer {
        delayedTimer := false;
      }
      nextDelayedTargetMs := Some(targetMs);
      delayedTimer := true;
    }
  }
}
