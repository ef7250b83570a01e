/**
  Corrected versions of the routines that the counterexamples in
  PageFillTrace show to be wrong, with the properties the design intends
  proved about them:

  - the result register is re-armed to -EBUSY whenever a fill is started, so
    the worker waits for the callback before it resumes the task;
  - the worker goes idle (pg_alldone) also when pg_startfill found the last
    waiter already mapped, so an idle worker runs at the default priority;
  - the blocking drain resumes through pg_fillcomplete only when a fill was
    actually performed, so no empty slot reaches up_unblock_task.
*/
module PageFillFixed {
  import opened Errno
  import opened PageFill
  import opened PageFillTrace

  /** pg_startfill, storing -EBUSY in the result register before the fill is started. */
  function StartFillArmed(s: State, b: Backend): (r: Outcome)
    ensures r.state.pending.Some? ==> r.state.fillResult == -EBUSY
    ensures r.state.pending.None? ==> r == StartFill(s, b)
    ensures r.Ok? == StartFill(s, b).Ok?
    ensures r.state.(fillResult := s.fillResult) == StartFill(s, b).state
    ensures WellFormed(s) ==> WellFormed(r.state)
  {
    var o := StartFill(s, b);
    if o.state.pending.Some? then o.(state := o.state.(fillResult := -EBUSY)) else o
  }

  /** Start the next fill, and go idle if that left nothing pending or queued. */
  function StartNext(s: State, b: Backend, defPrio: int): (r: Outcome)
    ensures r.state.queue == StartFill(s, b).state.queue
    ensures r.state.unblocked == StartFill(s, b).state.unblocked
    ensures r.state.pending == StartFill(s, b).state.pending
    ensures r.Ok? && r.state.pending.Some? ==> r.state.fillResult == -EBUSY
    ensures r.state.queue == [] && r.state.pending.None? ==> r.state.workerPrio == defPrio
    ensures WellFormed(s) ==> WellFormed(r.state)
  {
    var o := StartFillArmed(s, b);
    if o.Ok? && o.state.pending.None? && o.state.queue == [] then Ok(AllDone(o.state, defPrio)) else o
  }

  /** An idle worker runs at its default priority. */
  predicate IdleAtDefault(s: State, defPrio: int) {
    s.queue == [] && s.pending.None? ==> s.workerPrio == defPrio
  }

  /** One wake-up of the asynchronous worker loop, corrected. */
  function AsyncStepFixed(s: State, b: Backend, defPrio: int): (r: Outcome)
    // no result yet: nothing changes
    ensures s.pending.Some? && s.fillResult == -EBUSY ==> r == Ok(s)
    // a failure result halts the system, as before
    ensures s.pending.Some? && s.fillResult != -EBUSY && s.fillResult != OK ==>
              r == Fatal(s, BadFillResult(s.fillResult))
    // success: the pending task is resumed first
    ensures s.pending.Some? && s.fillResult == OK ==>
              |r.state.unblocked| > |s.unblocked| && r.state.unblocked[..|s.unblocked| + 1] == s.unblocked + [s.pending.value]
    // after the step, a pending fill has not delivered its result yet
    ensures r.Ok? && r.state.pending.Some? ==> r.state.fillResult == -EBUSY
    ensures IdleAtDefault(s, defPrio) ==> IdleAtDefault(r.state, defPrio)
    ensures WellFormed(s) ==> WellFormed(r.state)
  {
    if s.pending.Some? then
      if s.fillResult != -EBUSY then
        if s.fillResult != OK then Fatal(s, BadFillResult(s.fillResult))
        else
          var resumed := FillComplete(s).state;
          assert resumed.unblocked[..|s.unblocked| + 1] == s.unblocked + [s.pending.value];
          if resumed.queue != [] then StartNext(resumed, b, defPrio) else Ok(AllDone(resumed, defPrio))
      else Ok(s)
    else if s.queue != [] then StartNext(s, b, defPrio)
    else Ok(s)
  }

  function ApplyFixed(s: State, e: Event, defPrio: int): (r: Outcome)
    ensures IdleAtDefault(s, defPrio) ==> IdleAtDefault(r.state, defPrio)
    ensures WellFormed(s) ==> WellFormed(r.state)
  {
    match e
    case Miss(t) => Ok(Enqueue(s, t))
    case Complete(result) => Ok(Callback(s, result))
    case Wake(b) => AsyncStepFixed(s, b, defPrio)
  }

  function RunFixed(s: State, evs: seq<Event>, defPrio: int): Outcome
    decreases |evs|
  {
    if evs == [] then Ok(s)
    else
      match ApplyFixed(s, evs[0], defPrio)
      case Fatal(st, f) => Fatal(st, f)
      case Ok(next) => RunFixed(next, evs[1..], defPrio)
  }

  /**
    Idle resets priority: starting from the fresh worker (idle at the default
    priority), the worker is at its default priority whenever nothing is
    queued or pending, over every run.
  */
  lemma {:induction false} RunFixedKeepsIdleAtDefault(s: State, evs: seq<Event>, defPrio: int)
    requires IdleAtDefault(s, defPrio)
    ensures IdleAtDefault(RunFixed(s, evs, defPrio).state, defPrio)
    decreases |evs|
  {
    if evs != [] {
      var o := ApplyFixed(s, evs[0], defPrio);
      if o.Ok? {
        RunFixedKeepsIdleAtDefault(o.state, evs[1..], defPrio);
      }
    }
  }

  /**
    A started fill waits for its callback: as long as no completion arrives,
    any number of faults and wake-ups leave the pending task pending, the
    register armed, and resume nobody.
  */
  lemma {:induction false} PendingFillWaitsForCallback(s: State, evs: seq<Event>, defPrio: int)
    requires s.pending.Some? && s.fillResult == -EBUSY
    requires forall i :: 0 <= i < |evs| ==> !evs[i].Complete?
    ensures RunFixed(s, evs, defPrio).Ok?
    ensures RunFixed(s, evs, defPrio).state.pending == s.pending
    ensures RunFixed(s, evs, defPrio).state.fillResult == -EBUSY
    ensures RunFixed(s, evs, defPrio).state.unblocked == s.unblocked
    decreases |evs|
  {
    if evs != [] {
      var o := ApplyFixed(s, evs[0], defPrio);
      assert o.Ok? && o.state.pending == s.pending && o.state.fillResult == -EBUSY && o.state.unblocked == s.unblocked;
      assert forall i :: 0 <= i < |evs[1..]| ==> evs[1..][i] == evs[i + 1];
      PendingFillWaitsForCallback(o.state, evs[1..], defPrio);
    }
  }

  /** The hooks let a blocking round finish: the page is mapped already, or both hooks succeed. */
  predicate Resolves(b: Backend) {
    b.mapped || (b.allocStatus == OK && b.fillStatus == OK)
  }

  /**
    One corrected round of the blocking drain: pg_startfill, then
    pg_fillcomplete only when a fill was performed.
  */
  function DrainRoundFixed(s: State, b: Backend): (r: Outcome)
    requires s.queue != []
    ensures r.Ok? <==> Resolves(b)
    ensures r.Fatal? ==> r.fault != UnblockNull
    ensures r.Ok? ==>
              && r.state.queue == s.queue[1..]
              && r.state.unblocked == s.unblocked + [s.queue[0]]
              && r.state.fillResult == s.fillResult
              && r.state.workerPrio == s.workerPrio
  {
    match StartFill(s, b)
    case Fatal(st, f) => Fatal(st, f)
    case Ok(started) => if started.pending.Some? then FillComplete(started) else Ok(started)
  }

  lemma AllResolveSplit(bs: seq<Backend>)
    requires bs != []
    ensures (forall i :: 0 <= i < |bs| ==> Resolves(bs[i]))
        <==> Resolves(bs[0]) && (forall i :: 0 <= i < |bs[1..]| ==> Resolves(bs[1..][i]))
  {
    forall i | 0 < i < |bs| ensures bs[i] == bs[1..][i - 1] { }
  }

  /**
    The blocking drain, resuming through pg_fillcomplete only after a fill
    was performed.  Every waiter is resumed exactly once, in list order, and
    the worker ends idle at its default priority; the empty slot never
    reaches up_unblock_task.
  */
  function DrainFixed(s: State, bs: seq<Backend>, defPrio: int): (r: Outcome)
    requires |bs| == |s.queue|
    ensures r.Ok? <==> forall i :: 0 <= i < |bs| ==> Resolves(bs[i])
    ensures r.Ok? ==>
              r.state == s.(queue := [], pending := None, workerPrio := defPrio, unblocked := s.unblocked + s.queue)
    ensures r.Fatal? ==> r.fault != UnblockNull
    decreases |s.queue|
  {
    if s.queue == [] then Ok(AllDone(s, defPrio))
    else
      var round := DrainRoundFixed(s, bs[0]);
      AllResolveSplit(bs);
      if round.Fatal? then round
      else
        var next := round.state;
        assert next.unblocked + next.queue == s.unblocked + s.queue by {
          assert [s.queue[0]] + s.queue[1..] == s.queue;
        }
        DrainFixed(next, bs[1..], defPrio)
  }
}
