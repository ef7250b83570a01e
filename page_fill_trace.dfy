/**
  Runs of the asynchronous worker.  The worker keeps interrupts disabled
  except while it sleeps, so a fault on another task and a fill-completion
  callback are atomic steps that happen between two iterations of its loop.
  A run is a sequence of such events.
*/
module PageFillTrace {
  import opened Errno
  import opened PageFill

  datatype Event =
    | Miss(task: Task)          // a task faults and is queued by the fault path
    | Complete(result: int)     // the driver calls pg_callback
    | Wake(backend: Backend)    // the worker returns from usleep and runs one iteration

  function Apply(s: State, e: Event, defPrio: int): (r: Outcome)
    ensures WellFormed(s) ==> WellFormed(r.state)
  {
    match e
    case Miss(t) => Ok(Enqueue(s, t))
    case Complete(result) => Ok(Callback(s, result))
    case Wake(b) => AsyncStep(s, b, defPrio)
  }

  /** The state after the events, or the state and the fault that halted the system. */
  function Run(s: State, evs: seq<Event>, defPrio: int): Outcome
    decreases |evs|
  {
    if evs == [] then Ok(s)
    else
      match Apply(s, evs[0], defPrio)
      case Fatal(st, f) => Fatal(st, f)
      case Ok(next) => Run(next, evs[1..], defPrio)
  }

  /**
    Every run keeps the list sorted and free of duplicates, and the pending
    task out of the list: at most one fill is pending and its task is not
    also waiting.
  */
  lemma {:induction false} RunKeepsWellFormed(s: State, evs: seq<Event>, defPrio: int)
    requires WellFormed(s)
    ensures WellFormed(Run(s, evs, defPrio).state)
    decreases |evs|
  {
    if evs != [] {
      var o := Apply(s, evs[0], defPrio);
      if o.Ok? {
        RunKeepsWellFormed(o.state, evs[1..], defPrio);
      }
    }
  }

  /**
    The worker's priority only drops when it goes idle, and then to the
    default: over any run it stays at least the smaller of its starting
    priority and the default.
  */
  lemma {:induction false} RunPriorityFloor(s: State, evs: seq<Event>, defPrio: int)
    ensures Run(s, evs, defPrio).state.workerPrio >= if s.workerPrio < defPrio then s.workerPrio else defPrio
    decreases |evs|
  {
    if evs != [] {
      var o := Apply(s, evs[0], defPrio);
      if o.Ok? {
        RunPriorityFloor(o.state, evs[1..], defPrio);
      }
    }
  }

  // ---------------------------------------------------------------------
  // The code as written never re-arms g_fillresult
  // ---------------------------------------------------------------------

  /**
    Nothing ever stores -EBUSY in the result register: the callback replaces
    it by -ENOSYS and the worker never writes the register.  Starting from the
    zero-initialised register, the branch "pending fill, no result yet" of
    the worker loop is therefore unreachable.
  */
  lemma {:induction false} RunNeverArmsResult(s: State, evs: seq<Event>, defPrio: int)
    requires s.fillResult != -EBUSY
    ensures Run(s, evs, defPrio).state.fillResult != -EBUSY
    decreases |evs|
  {
    if evs != [] {
      var o := Apply(s, evs[0], defPrio);
      if o.Ok? {
        RunNeverArmsResult(o.state, evs[1..], defPrio);
      }
    }
  }

  /**
    Hence a wake-up of the worker resumes the pending task whether or not its
    fill has completed: the fresh worker queues a task, starts its fill on
    the first wake and resumes it on the second, with no callback between.
  */
  lemma StaleResultResumesEarly(a: Task, defPrio: int)
    ensures Run(State([], None, OK, defPrio, []), [Miss(a), Wake(Backend(false, OK, OK)), Wake(Backend(false, OK, OK))], defPrio)
              == Ok(State([], None, OK, defPrio, [a]))
  {
    var fill := Backend(false, OK, OK);
    var s0 := State([], None, OK, defPrio, []);
    var s1 := State([a], None, OK, defPrio, []);
    var s2 := State([], Some(a), OK, defPrio, []);
    var s3 := State([], None, OK, defPrio, [a]);
    MissThen(s0, a, [Wake(fill), Wake(fill)], defPrio);
    WakeThen(s1, fill, [Wake(fill)], defPrio);
    assert AsyncStep(s1, fill, defPrio) == Ok(s2);
    WakeThen(s2, fill, [], defPrio);
    assert AsyncStep(s2, fill, defPrio) == Ok(s3);
  }

  /**
    The worker can go idle with its priority still boosted: when the last
    waiter's page is already mapped, pg_startfill resumes it and empties the
    slot, and pg_alldone is not called.  Here the fresh worker starts filling
    task `a`, the more urgent task `b` faults, the callback boosts the worker
    to `b`'s priority, and on the next wake `b`'s page turns out to be mapped
    already: the list and the slot are empty and the worker stays boosted.
  */
  lemma BoostOutlivesIdle(a: Task, b: Task, defPrio: int)
    requires a.id != b.id && defPrio < a.priority < b.priority
    ensures Run(State([], None, OK, defPrio, []),
                [Miss(a), Wake(Backend(false, OK, OK)), Miss(b), Complete(OK), Wake(Backend(true, OK, OK))], defPrio)
              == Ok(State([], None, OK, b.priority, [a, b]))
  {
    var fill, mapped := Backend(false, OK, OK), Backend(true, OK, OK);
    var s0 := State([], None, OK, defPrio, []);
    var s1 := State([a], None, OK, defPrio, []);
    var s2 := State([], Some(a), OK, defPrio, []);
    MissThen(s0, a, [Wake(fill), Miss(b), Complete(OK), Wake(mapped)], defPrio);
    WakeThen(s1, fill, [Miss(b), Complete(OK), Wake(mapped)], defPrio);
    assert AsyncStep(s1, fill, defPrio) == Ok(s2);
    BoostThenMapped(a, b, defPrio);
  }

  /** The second half of BoostOutlivesIdle, from the moment `a`'s fill is pending. */
  lemma BoostThenMapped(a: Task, b: Task, defPrio: int)
    requires a.id != b.id && a.priority < b.priority && defPrio < b.priority
    ensures Run(State([], Some(a), OK, defPrio, []), [Miss(b), Complete(OK), Wake(Backend(true, OK, OK))], defPrio)
              == Ok(State([], None, OK, b.priority, [a, b]))
  {
    var mapped := Backend(true, OK, OK);
    var s2 := State([], Some(a), OK, defPrio, []);
    var s3 := State([b], Some(a), OK, defPrio, []);
    var s4 := State([b], Some(a), OK, b.priority, []);
    var s5 := State([], None, OK, b.priority, [a, b]);
    MissThen(s2, b, [Complete(OK), Wake(mapped)], defPrio);
    CompleteThen(s3, OK, [Wake(mapped)], defPrio);
    assert Callback(s3, OK) == s4;
    WakeThen(s4, mapped, [], defPrio);
    assert AsyncStep(s4, mapped, defPrio) == Ok(s5);
  }

  /** A fault on a task when nothing is queued makes it the only waiter. */
  lemma MissThen(s: State, t: Task, rest: seq<Event>, defPrio: int)
    requires s.queue == [] && (s.pending.Some? ==> s.pending.value.id != t.id)
    ensures Run(s, [Miss(t)] + rest, defPrio) == Run(s.(queue := [t]), rest, defPrio)
  {
    assert Insert([], t) == [t];
    assert ([Miss(t)] + rest)[0] == Miss(t) && ([Miss(t)] + rest)[1..] == rest;
  }

  lemma CompleteThen(s: State, result: int, rest: seq<Event>, defPrio: int)
    ensures Run(s, [Complete(result)] + rest, defPrio) == Run(Callback(s, result), rest, defPrio)
  {
    assert ([Complete(result)] + rest)[0] == Complete(result) && ([Complete(result)] + rest)[1..] == rest;
  }

  lemma WakeThen(s: State, b: Backend, rest: seq<Event>, defPrio: int)
    requires AsyncStep(s, b, defPrio).Ok?
    ensures Run(s, [Wake(b)] + rest, defPrio) == Run(AsyncStep(s, b, defPrio).state, rest, defPrio)
  {
    assert ([Wake(b)] + rest)[0] == Wake(b) && ([Wake(b)] + rest)[1..] == rest;
  }

  // ---------------------------------------------------------------------
  // The blocking drain as written
  // ---------------------------------------------------------------------

  /**
    When the head of the list is already mapped, pg_startfill resumes it and
    empties the slot, and the drain then hands the empty slot to
    up_unblock_task.
  */
  lemma DrainAlreadyMappedFaults(s: State, bs: seq<Backend>, defPrio: int)
    requires |bs| == |s.queue| && s.queue != [] && bs[0].mapped
    ensures Drain(s, bs, defPrio)
              == Fatal(s.(queue := s.queue[1..], pending := None, unblocked := s.unblocked + [s.queue[0]]), UnblockNull)
  {
  }
}
