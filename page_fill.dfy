/**
  The state of the NuttX page-fill worker and one specification function per
  routine of sched/pg_worker.c, as the code is written.

  The worker owns four pieces of state: the prioritized wait list
  `g_waitingforfill`, the pending-fill slot `g_pendingfilltcb`, the result
  register `g_fillresult` and its own scheduling priority.  The model adds the
  list of tasks handed to `up_unblock_task`, so that every routine can say
  exactly which task it resumed.
*/
module PageFill {
  import opened Errno

  datatype Option<T> = None | Some(value: T)

  /** A task control block as the worker sees it: identity and priority. */
  datatype Task = Task(id: nat, priority: int)

  /**
    The answers of the architecture hooks during one `pg_startfill`:
    whether `up_checkmapping` reports the page as already mapped, the status
    returned by `up_allocpage`, and the status returned by `up_fillpage`
    (the fill's own status in the blocking build, the start status in the
    asynchronous build).
  */
  datatype Backend = Backend(mapped: bool, allocStatus: int, fillStatus: int) {
    /** The page still has to be filled and both hooks succeed. */
    predicate Fills() {
      !mapped && allocStatus == OK && fillStatus == OK
    }
  }

  /** The assertion failures and the null dereference that bring the system down. */
  datatype Fault =
    | AllocFailed(status: int)      // DEBUGASSERT after up_allocpage
    | FillFailed(status: int)       // DEBUGASSERT after up_fillpage
    | BadFillResult(result: int)    // ASSERT(g_fillresult == OK) in the worker loop
    | UnblockNull                   // up_unblock_task handed a NULL slot

  /** The worker's state; `unblocked` lists the tasks resumed so far, oldest first. */
  datatype State = State(
    queue: seq<Task>,
    pending: Option<Task>,
    fillResult: int,
    workerPrio: int,
    unblocked: seq<Task>)

  /** A routine either returns normally or halts the system; `state` is where it stopped. */
  datatype Outcome = Ok(state: State) | Fatal(state: State, fault: Fault)

  /** The outcome described by a final state and an optional fault. */
  function Ended(s: State, fault: Option<Fault>): Outcome {
    match fault
    case None => Ok(s)
    case Some(f) => Fatal(s, f)
  }

  // ---------------------------------------------------------------------
  // Invariants
  // ---------------------------------------------------------------------

  /** Highest priority first. */
  predicate Sorted(q: seq<Task>) {
    forall i, j :: 0 <= i < j < |q| ==> q[i].priority >= q[j].priority
  }

  /** A task control block is linked into the list at most once. */
  predicate Distinct(q: seq<Task>) {
    forall i, j :: 0 <= i < j < |q| ==> q[i].id != q[j].id
  }

  function Ids(q: seq<Task>): set<nat> {
    set t | t in q :: t.id
  }

  /** The task is waiting in the list or is the one whose fill is in progress. */
  predicate Blocked(s: State, id: nat) {
    id in Ids(s.queue) || (s.pending.Some? && s.pending.value.id == id)
  }

  /**
    The list is priority-ordered and holds each task once; there is at most
    one pending fill (the slot is an Option) and its task is not in the list.
  */
  predicate WellFormed(s: State) {
    && Sorted(s.queue)
    && Distinct(s.queue)
    && (s.pending.Some? ==> s.pending.value.id !in Ids(s.queue))
  }

  lemma TailWellFormed(q: seq<Task>)
    requires q != [] && Sorted(q) && Distinct(q)
    ensures Sorted(q[1..]) && Distinct(q[1..]) && q[0].id !in Ids(q[1..])
  {
  }

  lemma IdsConcat(a: seq<Task>, b: seq<Task>)
    ensures Ids(a + b) == Ids(a) + Ids(b)
  {
    assert forall t :: t in a + b <==> t in a || t in b;
  }

  // ---------------------------------------------------------------------
  // The fault path's prioritized insert (sched_addprioritized, called from
  // pg_miss); neither is part of sched/pg_worker.c.
  // ---------------------------------------------------------------------

  /** Where a task of this priority goes: before the first strictly lower one. */
  function InsertAt(q: seq<Task>, t: Task): (k: nat)
    ensures k <= |q|
    ensures forall i :: 0 <= i < k ==> q[i].priority >= t.priority
    ensures k < |q| ==> q[k].priority < t.priority
    decreases |q|
  {
    if q == [] || q[0].priority < t.priority then 0 else 1 + InsertAt(q[1..], t)
  }

  function Insert(q: seq<Task>, t: Task): (r: seq<Task>)
    ensures |r| == |q| + 1
    ensures Ids(r) == Ids(q) + {t.id}
    ensures Sorted(q) ==> Sorted(r)
    ensures Distinct(q) && t.id !in Ids(q) ==> Distinct(r)
    // t sits at InsertAt(q, t): after every waiter of the same or higher
    // priority (FIFO among equals), and the other waiters keep their order
    ensures r[InsertAt(q, t)] == t
    ensures r[..InsertAt(q, t)] + r[InsertAt(q, t) + 1..] == q
  {
    var k := InsertAt(q, t);
    InsertIds(q, t, k);
    InsertSorted(q, t, k);
    InsertDistinct(q, t, k);
    InsertSplit(q, t, k);
    q[..k] + [t] + q[k..]
  }

  lemma InsertSplit(q: seq<Task>, t: Task, k: nat)
    requires k <= |q|
    ensures var r := q[..k] + [t] + q[k..]; |r| == |q| + 1 && r[k] == t && r[..k] + r[k + 1..] == q
  {
    var r := q[..k] + [t] + q[k..];
    assert r[..k] == q[..k] && r[k + 1..] == q[k..];
  }

  lemma InsertIds(q: seq<Task>, t: Task, k: nat)
    requires k <= |q|
    ensures Ids(q[..k] + [t] + q[k..]) == Ids(q) + {t.id}
  {
    IdsConcat(q[..k] + [t], q[k..]);
    IdsConcat(q[..k], [t]);
    IdsConcat(q[..k], q[k..]);
    assert q[..k] + q[k..] == q;
  }

  lemma InsertSorted(q: seq<Task>, t: Task, k: nat)
    requires k <= |q|
    requires forall i :: 0 <= i < k ==> q[i].priority >= t.priority
    requires k < |q| ==> q[k].priority < t.priority
    ensures Sorted(q) ==> Sorted(q[..k] + [t] + q[k..])
  {
    var r := q[..k] + [t] + q[k..];
    forall i, j | 0 <= i < j < |r| && Sorted(q) ensures r[i].priority >= r[j].priority {
      var pi := if i < k then i else if i == k then -1 else i - 1;
      var pj := if j < k then j else if j == k then -1 else j - 1;
      if i == k {
        assert r[j] == q[j - 1] && q[k].priority >= q[j - 1].priority;
      } else if j == k {
        assert r[i] == q[i];
      } else {
        assert r[i] == q[pi] && r[j] == q[pj] && pi < pj;
      }
    }
  }

  lemma InsertDistinct(q: seq<Task>, t: Task, k: nat)
    requires k <= |q|
    ensures Distinct(q) && t.id !in Ids(q) ==> Distinct(q[..k] + [t] + q[k..])
  {
    var r := q[..k] + [t] + q[k..];
    if Distinct(q) && t.id !in Ids(q) {
      forall i, j | 0 <= i < j < |r| ensures r[i].id != r[j].id {
        if i == k {
          assert r[j] == q[j - 1] && q[j - 1] in q;
        } else if j == k {
          assert r[i] == q[i] && q[i] in q;
        } else {
          var pi := if i < k then i else i - 1;
          var pj := if j < k then j else j - 1;
          assert r[i] == q[pi] && r[j] == q[pj] && pi < pj;
        }
      }
    }
  }

  /**
    The fault path blocks a task and links it into the list.  A task that is
    already blocked cannot fault again, so such a request leaves the state as
    it is.
  */
  function Enqueue(s: State, t: Task): (r: State)
    ensures Blocked(s, t.id) ==> r == s
    ensures !Blocked(s, t.id) ==> r == s.(queue := Insert(s.queue, t))
    ensures WellFormed(s) ==> WellFormed(r)
    ensures Blocked(r, t.id)
  {
    if Blocked(s, t.id) then s else s.(queue := Insert(s.queue, t))
  }

  // ---------------------------------------------------------------------
  // The routines of sched/pg_worker.c
  // ---------------------------------------------------------------------

  /**
    pg_callback: with a pending fill, raise the worker to the priority of the
    most urgent task waiting for a fill (the pending one or the head of the
    list) unless it already runs higher, and store the result with -EBUSY
    replaced by -ENOSYS.  Without a pending fill nothing changes (only the
    wake-up signal is sent).
  */
  function Callback(s: State, result: int): (r: State)
    ensures s.pending.None? ==> r == s
    ensures r.queue == s.queue && r.pending == s.pending && r.unblocked == s.unblocked
    ensures s.pending.Some? ==>
              && r.workerPrio >= s.workerPrio
              && r.workerPrio >= s.pending.value.priority
              && (s.queue != [] ==> r.workerPrio >= s.queue[0].priority)
              // and no higher than the largest of the three
              && (|| r.workerPrio == s.workerPrio
                  || r.workerPrio == s.pending.value.priority
                  || (s.queue != [] && r.workerPrio == s.queue[0].priority))
    ensures s.pending.Some? ==>
              && r.fillResult != -EBUSY
              && (result != -EBUSY ==> r.fillResult == result)
              && (result == -EBUSY ==> r.fillResult == -ENOSYS)
    ensures WellFormed(s) ==> WellFormed(r)
  {
    match s.pending
    case None => s
    case Some(p) =>
      var priority := if s.queue != [] && p.priority < s.queue[0].priority then s.queue[0].priority else p.priority;
      var boosted := if priority > s.workerPrio then priority else s.workerPrio;
      s.(workerPrio := boosted, fillResult := if result == -EBUSY then -ENOSYS else result)
  }

  /**
    pg_startfill: move the head of the list into the pending slot.  If the
    page has meanwhile been mapped the task is resumed and the slot cleared;
    otherwise a page is allocated and the fill started, and a failing status
    of either hook halts the system.  On an empty list the slot becomes empty
    and nothing else changes.
  */
  function StartFill(s: State, b: Backend): (r: Outcome)
    ensures r.state.fillResult == s.fillResult && r.state.workerPrio == s.workerPrio
    ensures s.queue == [] ==> r == Ok(s.(pending := None))
    ensures s.queue != [] ==> r.state.queue == s.queue[1..]
    ensures s.queue != [] && b.mapped ==>
              r.Ok? && r.state.pending == None && r.state.unblocked == s.unblocked + [s.queue[0]]
    ensures s.queue != [] && !b.mapped ==>
              && r.state.pending == Some(s.queue[0])
              && r.state.unblocked == s.unblocked
              && (r.Ok? <==> b.allocStatus == OK && b.fillStatus == OK)
    ensures r.Fatal? ==>
              r.fault == if b.allocStatus != OK then AllocFailed(b.allocStatus) else FillFailed(b.fillStatus)
    ensures WellFormed(s) ==> WellFormed(r.state)
  {
    if s.queue == [] then Ok(s.(pending := None))
    else
      var t := s.queue[0];
      var taken := s.(queue := s.queue[1..], pending := Some(t));
      assert WellFormed(s) ==> WellFormed(taken) by {
        if WellFormed(s) { TailWellFormed(s.queue); }
      }
      if b.mapped then Ok(taken.(pending := None, unblocked := s.unblocked + [t]))
      else if b.allocStatus != OK then Fatal(taken, AllocFailed(b.allocStatus))
      else if b.fillStatus != OK then Fatal(taken, FillFailed(b.fillStatus))
      else Ok(taken)
  }

  /** pg_alldone: empty the slot and return the worker to its default priority. */
  function AllDone(s: State, defPrio: int): (r: State)
    ensures r.pending == None && r.workerPrio == defPrio
    ensures r.queue == s.queue && r.fillResult == s.fillResult && r.unblocked == s.unblocked
    ensures WellFormed(s) ==> WellFormed(r)
  {
    s.(pending := None, workerPrio := defPrio)
  }

  /**
    pg_fillcomplete: resume the pending task.  The slot itself is left as it
    is; a NULL slot is dereferenced, which halts the system.
  */
  function FillComplete(s: State): (r: Outcome)
    ensures r.Ok? <==> s.pending.Some?
    ensures r.Fatal? ==> r == Fatal(s, UnblockNull)
    ensures r.Ok? ==> r.state == s.(unblocked := s.unblocked + [s.pending.value])
    ensures WellFormed(s) ==> WellFormed(r.state)
  {
    match s.pending
    case None => Fatal(s, UnblockNull)
    case Some(t) => Ok(s.(unblocked := s.unblocked + [t]))
  }

  /**
    One iteration of the asynchronous worker loop (sched/pg_worker.c:450-510),
    after it wakes from its sleep.
  */
  function AsyncStep(s: State, b: Backend, defPrio: int): (r: Outcome)
    // a fill is in flight and no result has arrived: nothing changes
    ensures s.pending.Some? && s.fillResult == -EBUSY ==> r == Ok(s)
    // a failure result halts the system
    ensures s.pending.Some? && s.fillResult != -EBUSY && s.fillResult != OK ==>
              r == Fatal(s, BadFillResult(s.fillResult))
    // success, nobody else waiting: resume the task and go idle
    ensures s.pending.Some? && s.fillResult == OK && s.queue == [] ==>
              r == Ok(s.(pending := None, workerPrio := defPrio, unblocked := s.unblocked + [s.pending.value]))
    // success, more waiters: resume the task, then start the next fill without idling
    ensures s.pending.Some? && s.fillResult == OK && s.queue != [] ==>
              && r.state.queue == s.queue[1..]
              && r.state.workerPrio == s.workerPrio
              && r.state.pending == (if b.mapped then None else Some(s.queue[0]))
              && r.state.unblocked == s.unblocked + [s.pending.value] + (if b.mapped then [s.queue[0]] else [])
              && (r.Ok? <==> b.mapped || (b.allocStatus == OK && b.fillStatus == OK))
    // idle with waiters: start a fill
    ensures s.pending.None? && s.queue != [] ==>
              && r.state.queue == s.queue[1..]
              && r.state.workerPrio == s.workerPrio
              && r.state.pending == (if b.mapped then None else Some(s.queue[0]))
              && r.state.unblocked == s.unblocked + (if b.mapped then [s.queue[0]] else [])
              && (r.Ok? <==> b.mapped || (b.allocStatus == OK && b.fillStatus == OK))
    // idle without waiters: nothing to do
    ensures s.pending.None? && s.queue == [] ==> r == Ok(s)
    ensures r.state.fillResult == s.fillResult
    ensures WellFormed(s) ==> WellFormed(r.state)
  {
    if s.pending.Some? then
      if s.fillResult != -EBUSY then
        if s.fillResult != OK then Fatal(s, BadFillResult(s.fillResult))
        else
          var resumed := FillComplete(s).state;
          if resumed.queue != [] then StartFill(resumed, b) else Ok(AllDone(resumed, defPrio))
      else Ok(s)
    else if s.queue != [] then StartFill(s, b)
    else Ok(s)
  }

  /**
    One round of the blocking drain loop: pg_startfill (whose blocking fill
    returns when the page is filled), then pg_fillcomplete.
  */
  function DrainRound(s: State, b: Backend): (r: Outcome)
    requires s.queue != []
    ensures r.Ok? <==> b.Fills()
    ensures r.Ok? ==>
              r.state == s.(queue := s.queue[1..], pending := Some(s.queue[0]), unblocked := s.unblocked + [s.queue[0]])
    ensures WellFormed(s) ==> WellFormed(r.state)
  {
    match StartFill(s, b)
    case Fatal(st, f) => Fatal(st, f)
    case Ok(started) => FillComplete(started)
  }

  /** All answers allow a fill exactly when the first does and all the others do. */
  lemma AllFillsSplit(bs: seq<Backend>)
    requires bs != []
    ensures (forall i :: 0 <= i < |bs| ==> bs[i].Fills())
        <==> bs[0].Fills() && (forall i :: 0 <= i < |bs[1..]| ==> bs[1..][i].Fills())
  {
    forall i | 0 < i < |bs| ensures bs[i] == bs[1..][i - 1] { }
  }

  /**
    The blocking worker (sched/pg_worker.c:516-532): while the list is not
    empty, start a fill (which returns when it is done) and resume the task;
    then go idle.  `bs` holds the hooks' answers, one per waiting task.  The
    list shrinks by one each round, so the drain terminates.
  */
  function Drain(s: State, bs: seq<Backend>, defPrio: int): (r: Outcome)
    requires |bs| == |s.queue|
    ensures r.Ok? <==> forall i :: 0 <= i < |bs| ==> bs[i].Fills()
    ensures r.Ok? ==>
              r.state == s.(queue := [], pending := None, workerPrio := defPrio, unblocked := s.unblocked + s.queue)
    decreases |s.queue|
  {
    if s.queue == [] then Ok(AllDone(s, defPrio))
    else
      var round := DrainRound(s, bs[0]);
      AllFillsSplit(bs);
      if round.Fatal? then round
      else
        var next := round.state;
        assert next.unblocked + next.queue == s.unblocked + s.queue by {
          assert [s.queue[0]] + s.queue[1..] == s.queue;
        }
        Drain(next, bs[1..], defPrio)
  }
}
