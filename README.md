# Page-fill worker of NuttX on-demand paging, in Dafny

The model covers `sched/pg_worker.c`, the worker thread of NuttX's on-demand
paging. When a task touches a page that is not in memory, the fault path
blocks the task and links it into `g_waitingforfill`, a list kept in
priority order. The worker takes the most urgent waiting task as
`g_pendingfilltcb`. If the page turns out to be mapped already, it resumes
the task at once. Otherwise it allocates a page and has the architecture's
`up_fillpage` fill it, then resumes the task with `up_unblock_task` and takes
the next waiter.

There are two builds:

- **Asynchronous fill.** The fill only starts in `up_fillpage`. The driver
  later calls `pg_callback`, which stores the result in `g_fillresult`,
  boosts the worker to the priority of the most urgent task waiting for a
  fill, and wakes the worker.
- **Blocking fill.** `up_fillpage` returns when the page is filled, and
  each wake-up of the worker drains the whole list.

The model has these files:

- `errno.dfy` (module `Errno`): the status codes `OK`, `EBUSY` (16) and
  `ENOSYS` (38), with NuttX's numbering.
- `page_fill.dfy` (module `PageFill`): the worker's state as a value
  (`State`), and one function per routine of the file, as the code is
  written.
  - Halting is a result: an `ASSERT`/`DEBUGASSERT` that fails, or a NULL
    slot handed to `up_unblock_task`, ends in `Fatal(state, fault)`.
  - The state also records the tasks handed to `up_unblock_task`, oldest
    first, so that every routine says which task it resumed.
  - The invariant `WellFormed` says three things: the list is
    priority-ordered, no task appears twice, and the pending task is not
    also in the list.
- `pg_worker.dfy` (module `PgWorker`): the same routines as methods of the
  class `Worker`.
  - The globals are the class's fields, and each method updates them in
    place.
  - Each method is proved against its `PageFill` function and keeps the
    invariant `Valid`.
  - The blocking drain is a `while` loop, as in the source.
- `page_fill_trace.dfy` (module `PageFillTrace`): runs of the asynchronous
  worker.
  - A run is a sequence of three kinds of event: a fault, a fill-completion
    callback, and one wake-up of the worker loop.
  - These are atomic steps, because the worker sleeps with interrupts
    enabled and runs with them disabled.
  - The module proves properties that hold over every run, and gives the
    counterexamples listed under Findings.
- `page_fill_fixed.dfy` (module `PageFillFixed`): the corrected routines
  for the Findings, with the intended properties proved about them.

The architecture hooks `up_checkmapping`, `up_allocpage` and `up_fillpage`
are not modelled as code. Their answers for one `pg_startfill` are an input,
`Backend(mapped, allocStatus, fillStatus)`. The blocking drain takes one
`Backend` per waiting task.

Where the code and its comments disagree, the model follows the code:

- At `sched/pg_worker.c:444` the worker loop tests
  `#ifdef CONFIG_PAGING_BLOCKINGFILL`, which is the opposite of its comments
  and of the guards at lines 100 and 157. As written, the asynchronous
  branch (lines 450-510) would be compiled into the blocking build.
- That cannot compile there, because `g_fillresult` and `pg_callback` exist
  only in the asynchronous build. The model therefore gives each build the
  branch its comments intend:
  - `AsyncStep` is lines 450-510;
  - `Drain` is lines 516-532.
- The timeout check at lines 486-492 is guarded by
  `#if defined() && defined(CONFIG_PAGING_TIMEOUT_TICKS)`, where
  `defined()` has no operand. That branch is left out.

## Model

| member | source | states |
|---|---|---|
| PageFill.InsertAt | sched/pg_worker.c:209-212 | the position for a new waiter: after every waiter of the same or higher priority and before the first lower one |
| PageFill.Insert | sched/pg_worker.c:209-212 | the new waiter sits at `InsertAt` and the others keep their order. The list grows by one and gains exactly that id. A sorted list stays sorted, and a list without duplicates stays without duplicates when the id is new |
| PageFill.Enqueue | sched/pg_worker.c:300-304 | the fault path blocks a task and adds it to the list in priority order. A task that is already blocked leaves the state unchanged. The task is blocked afterwards, and `WellFormed` is preserved |
| PageFill.Callback | sched/pg_worker.c:158-202 | with no fill pending, nothing changes. With a fill pending, the worker's new priority is at least its old one, at least the pending task's and at least the head waiter's, and it equals one of the three. The stored result is the callback's result, except that -EBUSY becomes -ENOSYS, so it is never -EBUSY. The list, the slot and the resumed tasks are untouched |
| PageFill.StartFill | sched/pg_worker.c:231-312 | on an empty list the slot becomes empty and nothing else changes. Otherwise the head leaves the list. If its page is mapped already, the task is resumed and the slot cleared. If not, the task is pending, and the call returns normally exactly when both hooks succeed. A failed allocation halts the system before the fill does. The result register and the priority are untouched. `WellFormed` is preserved, so the pending task is never in the list |
| PageFill.AllDone | sched/pg_worker.c:338-343 | the slot is empty and the worker is at its default priority. Nothing else changes |
| PageFill.FillComplete | sched/pg_worker.c:370-377 | the pending task is resumed and the slot is left as it is. A NULL slot halts the system |
| PageFill.AsyncStep | sched/pg_worker.c:450-510 | one wake-up, stated case by case. (1) A fill is pending and no result has arrived: nothing changes. (2) A failure result halts the system. (3) Success with nobody else waiting: the task is resumed and the worker goes idle at the default priority. (4) Success with more waiters: the task is resumed and the next fill starts at the same priority. (5) Idle with waiters: a fill starts. (6) Idle with nobody waiting: nothing changes. The result register is never written |
| PageFill.DrainRound | sched/pg_worker.c:518-528 | one blocking round returns normally exactly when the head's page must be filled and both hooks succeed. The head is then resumed and stays in the slot |
| PageFill.Drain | sched/pg_worker.c:516-532 | the blocking drain terminates. It returns normally exactly when every round does. It then leaves the list empty and the slot empty, with the worker at the default priority and every waiter resumed once, in list order |
| PgWorker.Worker.constructor | sched/pg_worker.c:100-106 | the fresh worker has nothing queued or pending, the zero-initialised result register, and the default priority |
| PgWorker.Worker.Enqueue | sched/pg_worker.c:300-304 | updates the fields to `PageFill.Enqueue` of the old state and keeps `Valid` |
| PgWorker.Worker.Callback | sched/pg_worker.c:158-202 | updates the fields to `PageFill.Callback` of the old state and keeps `Valid` |
| PgWorker.Worker.StartFill | sched/pg_worker.c:231-312 | updates the fields and reports the fault exactly as `PageFill.StartFill`, and keeps `Valid` |
| PgWorker.Worker.AllDone | sched/pg_worker.c:338-343 | updates the fields to `PageFill.AllDone` with the worker's default priority, and keeps `Valid` |
| PgWorker.Worker.FillComplete | sched/pg_worker.c:370-377 | updates the fields and reports the fault exactly as `PageFill.FillComplete`, and keeps `Valid` |
| PgWorker.Worker.AsyncStep | sched/pg_worker.c:450-510 | updates the fields and reports the fault exactly as `PageFill.AsyncStep`, and keeps `Valid` |
| PgWorker.Worker.BlockingDrain | sched/pg_worker.c:516-532 | the loop ends in the state and fault of `PageFill.Drain`. Without a fault the list and the slot are empty and the worker is at its default priority |
| PageFillTrace.Apply | sched/pg_worker.c:405-510 | each event of a run (a fault, a callback, a wake-up) keeps `WellFormed` |
| PageFillTrace.RunKeepsWellFormed | sched/pg_worker.c:83-94 | over every run, the list stays sorted and free of duplicates, at most one fill is pending, and its task is not also waiting |
| PageFillTrace.RunPriorityFloor | sched/pg_worker.c:185-188 | over every run, the worker's priority never drops below the smaller of its starting priority and the default. Only going idle lowers it, and then only to the default |
| PageFillTrace.RunNeverArmsResult | sched/pg_worker.c:102-106 | if the result register does not hold -EBUSY, no run ever stores -EBUSY in it |
| PageFillTrace.StaleResultResumesEarly | sched/pg_worker.c:456-464 | the fresh worker queues a task, starts its fill on one wake and resumes it on the next, with no callback in between |
| PageFillTrace.BoostOutlivesIdle | sched/pg_worker.c:468-479 | a run after which nothing is queued or pending and the worker is still at the boosted priority of a task it has already resumed |
| PageFillTrace.DrainAlreadyMappedFaults | sched/pg_worker.c:520-527 | when the head's page is already mapped, the blocking drain hands the NULL slot to `up_unblock_task` and halts |
| PageFillFixed.StartFillArmed | sched/pg_worker.c:289-298 | as `PageFill.StartFill`, except that a started fill leaves -EBUSY in the result register |
| PageFillFixed.StartNext | sched/pg_worker.c:468-479 | starts the next fill as `PageFill.StartFill` does. An Ok result with a pending fill leaves the register armed. A worker left with nothing queued or pending is at its default priority |
| PageFillFixed.AsyncStepFixed | sched/pg_worker.c:450-510 | the corrected wake-up keeps three properties: the pending task is resumed first on success, a pending fill after the step has its register armed, and an idle worker stays at its default priority |
| PageFillFixed.ApplyFixed | sched/pg_worker.c:405-510 | each corrected event keeps `WellFormed`, and keeps the idle worker at its default priority |
| PageFillFixed.RunFixedKeepsIdleAtDefault | sched/pg_worker.c:314-324 | in the corrected worker, whenever nothing is queued or pending, the worker is at its default priority, over every run |
| PageFillFixed.PendingFillWaitsForCallback | sched/pg_worker.c:102-104 | in the corrected worker, until a callback arrives, every wake-up and fault leaves the fill pending with its register armed and resumes nobody |
| PageFillFixed.DrainRoundFixed | sched/pg_worker.c:518-528 | the corrected blocking round returns normally exactly when the page is mapped already or both hooks succeed. It resumes the head exactly once, and it never hands a NULL slot to `up_unblock_task` |
| PageFillFixed.DrainFixed | sched/pg_worker.c:516-532 | the corrected drain returns normally exactly when every round does. It then resumes every waiter once, in list order, and ends idle at the default priority. It never faults with a NULL slot |

## Left out

- `irqsave`, `usleep` and the `kill(g_pgworker, SIGWORK)` wake-up signal
  are left out. The model takes a callback or a fault as an atomic step
  between two wake-ups. Interrupts are enabled only while the worker
  sleeps, so nothing else can interleave.
- The scheduler and the architecture are left out: `sched_setpriority`,
  `sched_gettcb`, `dq_remfirst`, `up_unblock_task` and the three
  `up_*` page hooks. A priority is a field, the list is a sequence, and a
  resume is an entry in the log of resumed tasks. The hooks' answers are
  the `Backend` input.
- The fill timeout is left out (`g_starttime`, lines 108-114, 296-298 and
  486-492): its guard `#if defined()` is malformed, and it needs the system
  clock.
- The fault path `pg_miss` is not part of this model. `Enqueue` stands for
  its prioritized insert, FIFO among tasks of equal priority. The priority
  boost that `pg_miss` gives the worker is not modelled.
- PageFill.Enqueue: a fault by a task that is already blocked is ignored.
  A blocked task cannot run, so it cannot fault.
- The value of `CONFIG_PAGING_DEFPRIO` is left out. It is the constructor's
  `defPrio` parameter.
- `DEBUGASSERT` is modelled as a halt in every build. With debugging off it
  is compiled out, and the worker would go on with a failed allocation or
  fill.
- The worker's `for (;;)` loop is modelled one iteration at a time, as
  `AsyncStep` and `BlockingDrain`. In traces, `Run` strings the iterations
  together.
- `g_pgworker`, the worker's task id, is left out. It is used only to
  signal the worker and to look up its control block.
- `sched/pg_worker.c:444`: as written, the loop's `#ifdef` picks the wrong
  branch for each build. Each build is modelled with the branch its
  comments intend.

## Findings

| source | as written | input that shows it | evidently intended | confidence | as-written member | corrected member |
|---|---|---|---|---|---|---|
| sched/pg_worker.c:289-298 | `g_fillresult` starts at 0, `pg_callback` replaces -EBUSY, and nothing stores -EBUSY when a fill starts, so the register never says "no result yet" | the fresh worker: a fault by task `a`, a wake-up that starts `a`'s fill, then a second wake-up with no callback between. The second wake-up resumes `a` | store -EBUSY in `g_fillresult` when the fill starts, so the worker waits for `pg_callback` | not executed | PageFillTrace.StaleResultResumesEarly | PageFillFixed.PendingFillWaitsForCallback |
| sched/pg_worker.c:468-479 | after a completion, `pg_startfill` may find the last waiter mapped already. It resumes that waiter and empties the slot, but `pg_alldone` is not called | `a` is filling, the more urgent `b` faults, and the callback boosts the worker to `b`'s priority. `b`'s page is then mapped. The worker ends idle at `b`'s priority | go idle, restoring the default priority, whenever nothing is left queued or pending | not executed | PageFillTrace.BoostOutlivesIdle | PageFillFixed.RunFixedKeepsIdleAtDefault |
| sched/pg_worker.c:520-527 | in the blocking drain, `pg_fillcomplete` runs after every `pg_startfill`, even after its early return for a mapped page (lines 248-252), which left `g_pendingfilltcb` NULL | a drain whose first waiter's page is mapped already: `up_unblock_task(NULL)` | resume through `pg_fillcomplete` only when a fill was performed | not executed | PageFillTrace.DrainAlreadyMappedFaults | PageFillFixed.DrainFixed |
