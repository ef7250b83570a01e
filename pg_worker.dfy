/**
  The page-fill worker of sched/pg_worker.c as an object: the globals the C
  file updates in place are the fields of one `Worker`, and each routine is a
  method proved against its specification function in `PageFill`.
*/
module PgWorker {
  import opened Errno
  import opened PageFill

  class Worker {
    var queue: seq<Task>        // g_waitingforfill, highest priority first
    var pending: Option<Task>   // g_pendingfilltcb
    var fillResult: int         // g_fillresult
    var workerPrio: int         // the worker thread's sched_priority
    var unblocked: seq<Task>    // every task handed to up_unblock_task, oldest first
    const defPrio: int          // CONFIG_PAGING_DEFPRIO

    /** The abstract value of the worker's state. */
    function Snapshot(): State
      reads this
    {
      State(queue, pending, fillResult, workerPrio, unblocked)
    }

    ghost predicate Valid()
      reads this
    {
      WellFormed(Snapshot())
    }

    /**
      The worker as it is created: nothing queued or pending, the static
      `g_fillresult` zero-initialised (that is, OK), and the thread started at
      the default priority.
    */
    constructor (defPrio: int)
      ensures Valid()
      ensures Snapshot() == State([], None, OK, defPrio, [])
      ensures this.defPrio == defPrio
    {
      queue, pending, fillResult, workerPrio, unblocked := [], None, OK, defPrio, [];
      this.defPrio := defPrio;
    }

    /** The fault path (pg_miss, not in this file) queues a blocked task by priority. */
    method Enqueue(t: Task)
      requires Valid()
      modifies this
      ensures Valid()
      ensures Snapshot() == PageFill.Enqueue(old(Snapshot()), t)
    {
      if !Blocked(Snapshot(), t.id) {
        queue := Insert(queue, t);
      }
    }

    /** pg_callback, taken as one atomic step while the worker sleeps. */
    method Callback(result: int)
      requires Valid()
      modifies this
      ensures Valid()
      ensures Snapshot() == PageFill.Callback(old(Snapshot()), result)
    {
      if pending.Some? {
        var priority := pending.value.priority;
        if queue != [] && priority < queue[0].priority {
          priority := queue[0].priority;
        }
        if priority > workerPrio {
          workerPrio := priority;
        }
        var stored := result;
        if stored == -EBUSY {
          stored := -ENOSYS;
        }
        fillResult := stored;
      }
    }

    /** pg_startfill, with the hooks' answers supplied as `b`. */
    method StartFill(b: Backend) returns (fault: Option<Fault>)
      requires Valid()
      modifies this
      ensures Valid()
      ensures Ended(Snapshot(), fault) == PageFill.StartFill(old(Snapshot()), b)
    {
      fault := None;
      if queue == [] {
        pending := None;          // dq_remfirst found nothing
        return;
      }
      pending := Some(queue[0]);
      queue := queue[1..];
      if b.mapped {
        unblocked := unblocked + [pending.value];
        pending := None;
        return;
      }
      if b.allocStatus != OK {
        fault := Some(AllocFailed(b.allocStatus));
        return;
      }
      if b.fillStatus != OK {
        fault := Some(FillFailed(b.fillStatus));
      }
    }

    /** pg_alldone. */
    method AllDone()
      requires Valid()
      modifies this
      ensures Valid()
      ensures Snapshot() == PageFill.AllDone(old(Snapshot()), defPrio)
    {
      pending := None;
      workerPrio := defPrio;
    }

    /** pg_fillcomplete: the slot is not cleared; a NULL slot is fatal. */
    method FillComplete() returns (fault: Option<Fault>)
      requires Valid()
      modifies this
      ensures Valid()
      ensures Ended(Snapshot(), fault) == PageFill.FillComplete(old(Snapshot()))
    {
      if pending.None? {
        return Some(UnblockNull);
      }
      unblocked := unblocked + [pending.value];
      fault := None;
    }

    /** One wake-up of the asynchronous worker loop. */
    method AsyncStep(b: Backend) returns (fault: Option<Fault>)
      requires Valid()
      modifies this
      ensures Valid()
      ensures Ended(Snapshot(), fault) == PageFill.AsyncStep(old(Snapshot()), b, defPrio)
    {
      fault := None;
      if pending.Some? {
        if fillResult != -EBUSY {
          if fillResult != OK {
            return Some(BadFillResult(fillResult));
          }
          fault := FillComplete();
          if queue != [] {
            fault := StartFill(b);
          } else {
            AllDone();
          }
        }
      } else if queue != [] {
        fault := StartFill(b);
      }
    }

    /**
      One wake-up of the blocking worker loop: drain the list, one blocking
      fill per waiting task, then go idle.  `bs` holds the hooks' answers for
      the waiting tasks in list order.
    */
    method BlockingDrain(bs: seq<Backend>) returns (fault: Option<Fault>)
      requires Valid()
      requires |bs| == |queue|
      modifies this
      ensures Valid()
      ensures Ended(Snapshot(), fault) == PageFill.Drain(old(Snapshot()), bs, defPrio)
      ensures fault.None? ==> queue == [] && pending == None && workerPrio == defPrio
    {
      var i := 0;
      while queue != []
        invariant Valid()
        invariant 0 <= i <= |bs| && |queue| == |bs| - i
        invariant PageFill.Drain(Snapshot(), bs[i..], defPrio) == PageFill.Drain(old(Snapshot()), bs, defPrio)
        decreases |queue|
      {
        fault := StartFill(bs[i]);
        if fault.Some? {
          return;
        }
        fault := FillComplete();
        if fault.Some? {
          return;
        }
        i := i + 1;
      }
      AllDone();
      fault := None;
    }
  }
}
