# FastQueue: a verified model

FastQueue is a work-stealing job system in C. This project models its core and proves what
its interfaces promise, in two layers on sequentially consistent atomics.

- **Queue.** `Queue.dfy` is `fq_queue_t` as a class over an array with `head`, `tail` and an
  abstract sequence. `Ring.dfy` is the same code as a step machine (one step per lock, load,
  store and unlock, any number of threads) that refines an atomic bounded FIFO, and
  `RingWitness.dfy` a run in which `fq_queue_size` errs. `Bits.dfy` proves the shift and mask
  arithmetic.
- **Scheduler.** `SchedulerModel.dfy` is a step machine over those FIFOs: submit, the worker
  loop, is_idle, cancel_all and shutdown, with ghost sets and lists that record what became of
  each task. The invariants are proved module by module: shape (`SchedulerShape`),
  conservation of tasks (`SchedulerPlaces`), counters (`SchedulerLedger`), is_idle
  (`SchedulerIdle`), shutdown (`SchedulerShutdown`, `SchedulerSafe`, `SchedulerTermination`),
  cancel_all (`SchedulerCancel`), fairness and bounds (`SchedulerFairness`, `SchedulerCreate`)
  and whole runs (`SchedulerRuns`). `SchedulerSolo` and `SchedulerLoss` prove exactly when
  shutdown can lose a task, and `SchedulerWitness` spells out two runs that surprise.
  `QueueLink.dfy` proves that the FIFOs of the machine are the ring of `Ring.dfy`.
- **Scheduler code.** `SchedulerCode.dfy`, `SchedulerWorker.dfy` and `SchedulerClose.dfy` are
  the C functions as imperative code on a class with the fields of `fq_scheduler_t`. Before each
  atomic action a function yields to other threads, of which only the contract of
  `Scheduler.Others` is known: any legal run of the machine by them. Each atomic action of the code
  is an action of the machine, which `Valid` records in a trace from the initial state, so
  every theorem about runs holds of the code. What a function has seen it reports as a `Moment`
  of that trace, at which it took the action in question.
- **parallel_for.** `Parallel.dfy` builds on that code and proves the loop end to end.
- **Futures and tasks.** `FutureModel.dfy` is one task with its future, any number of waiters,
  registrations and cancellers, as a step machine; `FutureFacts`, `FutureOutcome`,
  `FutureAnswers`, `FutureCallbacks` (by refinement to a sequential future), `FutureFreed` and
  `FutureProgress` prove its properties.
  `FutureCode.dfy` is the sequential code, against the same sequential future.
- **Memory.** `Memory.dfy` is the statistics-keeping allocator and the alignment functions,
  with 32-bit wrap-around; `MemoryPeak.dfy` is its compare-and-exchange loop under concurrency.

Conventions. Mutexes, condition variables (with spurious wakeups) and atomics are primitives.
What the C program gets from outside is a parameter: the answers of malloc, of trylock under
contention, the number of cores. Loops that wait without a bound take the number of attempts
to watch and report whether they returned. A submit "in its window" is between its load of
the shutdown flag and its push. It is harmful when it is a client's, or a callback's whose push
goes to the queue of another worker than its own. A flag store is quiet when no submit is in
its window, and safe when no harmful one is.

Where code and documentation disagree, the model follows the code:

- `include/fastqueue/future.h:109` says that cancelling a fulfilled future answers CLOSED; the code
  (src/future/future.c:182-195) answers OK, overwrites the status and calls the callback
  again. `FutureCallbacks.FulfilledAtMostTwice` says how often a future is fulfilled.
- `fq_task_cancel` refuses a task that is "already executing" (src/task/task.c:126-127), but
  `executed` is stored after the callback, so it can answer OK while the callback runs.
  `FutureOutcome.CancelPreventsExactly` gives the exact condition under which it prevents the run.
- Shutdown is documented to wait for all pending tasks; a submit in its window can be accepted
  afterwards and lost (`SchedulerWitness.LateSubmitIsLost`). This can happen if and only if a
  harmful submit is in its window when the flag is first stored and no callback has called
  shutdown itself (`SchedulerLoss.ShutdownLosesExactly`).
- Destroying a task is documented to leave no future pending; a drained task's future is still
  pending after the destruction exactly while another thread's cancel is between winning
  `canceled` and storing `ready`, and an executed task's never is
  (`FutureFreed.FreedMeansFulfilled`).
- "Cancel all pending tasks" leaves tasks queued, even undisturbed, exactly when some worker queue
  holds more than 256 (`SchedulerCancel.CancelsAllExactly`).
- cancel_all never lowers `tasks_pending` and takes one batch of 256 per worker queue
  (src/scheduler/scheduler.c:322-337), so `wait_idle` does not return after it dropped a task
  (`SchedulerIdle.NeverIdleAfterDrop`).
- `tasks_submitted` also counts submits that are rejected for lack of room.
- The comment in is_idle claims that a true answer means every submitted task is done; this holds
  of the tasks raised before the second read of `tasks_pending`
  (`SchedulerIdle.TrueAnswerIsIdle`, `SchedulerWitness.TrueAnswerWithTaskQueued`).
- The allocation statistics keep only the low 31 bits of a size (src/memory/memory.c:25,
  src/memory/memory.c:44), so a block of 2^31 bytes counts as none; the byte counter is the sum
  of the sizes exactly while every live block is smaller (`Memory.CountedExactly`).
- `fq_align_up` promises a result of at least `size`; near 2^64 it wraps to 0 (`Memory.AlignUp`).

## Model

| member | source | states |
|---|---|---|
| Bits.NextPow2 | src/queue/queue.c:32-45 | for 1 <= v <= 2^63 the shift smear returns the least power of two that is at least v; 0 gives 1; above 2^63 the result wraps to 0 |
| Bits.SmearWord | src/queue/queue.c:35-43 | the six shifts fill every bit below the highest one, for every 64-bit word |
| Bits.MaskIsMod | src/queue/queue.c:103 | `x & mask` on a two's complement int is the Euclidean remainder by the capacity, also for negative x |
| Bits.MaskNext | src/queue/queue.c:103 | masking an index increment advances the index by one slot of the ring and wraps at its end |
| Bits.MaskDifference | src/queue/queue.c:175 | masking tail - head, negative or not, gives the number of slots from head to tail |
| Queue.TaskQueue.Create | src/queue/queue.c:49-81 | accepted exactly for requests up to 2^24 or above 2^63; otherwise the capacity is the least power of two that is at least 64 and at least the request; above 2^63 a queue without a slot comes back |
| Queue.TaskQueue.Push | src/queue/queue.c:94-116 | appends to the abstract contents, or reports OVERFLOW exactly when capacity - 1 tasks are queued and changes nothing |
| Queue.TaskQueue.Pop | src/queue/queue.c:118-140 | takes exactly the oldest task, or reports BUSY exactly when the queue is empty |
| Queue.TaskQueue.Size | src/queue/queue.c:168-176 | on a quiescent queue the masked difference is the length of the abstract contents |
| Queue.TaskQueue.Empty | src/queue/queue.c:178-181 | on a quiescent queue true exactly when nothing is queued |
| Queue.TaskQueue.Drain | src/queue/queue.c:188-199 | with exclusive use, exactly the first min(max, size) tasks in order, the rest of `out` untouched |
| Queue.HoldsPush | src/queue/queue.c:111-113 | storing at tail and advancing it extends the ring's contents by one task and overwrites no live slot |
| Queue.HoldsPop | src/queue/queue.c:133-137 | the slot at head holds the oldest task and advancing head removes it alone |
| Ring.Refines | src/queue/queue.c:94-164 | each lock, load, store and unlock of any thread keeps the invariant (stale snapshots included) and is invisible or one atomic operation of a FIFO with capacity - 1 slots |
| Ring.QueueRefinesFifo | src/queue/queue.c:94-164 | linearizability over every run of any number of producers and consumers: a push takes effect at its index store, OVERFLOW at its head load, a pop at its index store, an empty BUSY at its tail load; only try_pop may fail on a non-empty queue |
| Ring.InitialInv | src/queue/queue.c:69-77 | a created queue satisfies the invariant for any capacity and number of threads |
| Ring.PushStoreKeeps | src/queue/queue.c:111-114 | the index store of a push is the atomic append, whatever pops did since its head load |
| Ring.PopStoreKeeps | src/queue/queue.c:133-138 | the index store of a pop is the atomic removal of the oldest task, whatever pushes did since its tail load |
| Ring.PushQuietKeeps | src/queue/queue.c:100-109 | OVERFLOW is answered exactly when the queue was full at the head load, and room found there lasts until the store |
| Ring.DrainOrder | src/queue/queue.c:188-199 | in every run of a created queue, under any concurrent pushes and pops, a drain returns at most `max` tasks, behind strictly increasing tickets, and no ticket is handed to two threads |
| Ring.ShortDrainFoundEmpty | src/queue/queue.c:188-199 | in every run a drain that returns with fewer than `max` tasks has found the queue empty at one of its own tail loads |
| QueueLink.RingIsSchedulerQueue | src/queue/queue.c:94-176 | in every run the ring is the FIFO the scheduler model steps on: each action pushes at its index store, pops at its index store or leaves it alone, OVERFLOW and empty BUSY are answered exactly when it is full and empty, and size answers as the model's exit test assumes |
| Ring.SizeExact | src/queue/queue.c:168-176 | the two loads report the size at the head load exactly when a whole number of turns was pushed in between, and 0 exactly when the tickets from the loaded head to the loaded tail make whole turns; with pushes stopped 0 means empty, then and for good |
| RingProgress.PushAlone | src/queue/queue.c:94-116 | run alone from any state of the queue with the push lock free, a push appends its task, or answers OVERFLOW exactly when the queue is full, and returns the lock |
| RingProgress.PopAlone | src/queue/queue.c:118-164 | run alone, a pop or try_pop takes exactly the oldest task, or answers BUSY exactly when there is none, and returns the lock |
| RingProgress.DrainAlone | src/queue/queue.c:188-199 | run alone, a drain takes exactly the first min(max, size) tasks in order |
| RingProgress.SizeAlone | src/queue/queue.c:168-176 | run alone, size answers the number of tasks queued |
| RingProgress.StepsBounded | src/queue/queue.c:94-199 | no operation goes round for ever: over every run a thread's steps are at most seven for each operation it starts and eight more for each task a drain may take |
| RingProgress.NoDeadlock | src/queue/queue.c:94-164 | while a thread is inside an operation, some thread can take its next step |
| RingProgress.TryPopGivesUp | src/queue/queue.c:142-164 | over every run a try_pop that answers BUSY has itself found the pop lock taken or the queue empty |
| RingWitness.EmptyAnswerOnNonEmpty | src/queue/queue.c:168-181 | for every capacity a run from a created queue in which size answers 0 although a task is queued |
| SchedulerRuns.ExactlyOnce | src/scheduler/scheduler.c:94-140 | over every run, with any worker count, either stealing and priority setting and any interleaving: an accepted task is in exactly one place (a queue, a worker's hand, a cancel batch, executed, dropped), any other in none, and none is executed or dropped twice |
| SchedulerPlaces.ConservedKept | src/scheduler/scheduler.c:83-381 | every action of every worker and caller keeps each task in exactly one place |
| SchedulerPlaces.InitialConserved | src/scheduler/scheduler.c:187-284 | a created scheduler satisfies conservation |
| SchedulerPlaces.HeldOnce | src/scheduler/scheduler.c:103-119 | a task in one worker's hand is in no queue, no batch and no other hand and has not been executed |
| SchedulerPlaces.QueuedOnce | src/scheduler/scheduler.c:359-371 | a task in one queue is there once, in no other queue, hand or batch, and neither executed nor dropped |
| SchedulerLedger.LedgerKept | src/scheduler/scheduler.c:121-135 | at every step pending = submits in flight + queued + picked up and not yet lowered + drained or dropped by cancel_all, active = workers inside the execute window, completed = executed, and the matching laws for canceled and submitted |
| SchedulerLedger.InitialLedger | src/scheduler/scheduler.c:187-284 | a created scheduler satisfies the ledger |
| SchedulerLedger.RestingLedger | src/scheduler/scheduler.c:322-378 | with no call in flight and no task in hand: submitted = completed + canceled + rejected for room + queued, and pending = queued + canceled, because cancel_all never lowers it |
| SchedulerLedger.AlwaysCounted | src/scheduler/scheduler.c:121-135 | because active is raised before pending is lowered and completed before active is lowered, a task in a worker's hand is always counted as pending or as active until it is counted as completed |
| SchedulerIdle.IdleMeansDone | src/scheduler/scheduler.c:433-458 | over every run with concurrent submitters: a true answer means that every task whose pending increment came before the call has been rejected for room or executed and counted |
| SchedulerIdle.ZeroPending | src/scheduler/scheduler.c:351-377 | pending at zero means no submit in flight has raised it, nothing queued, nothing in hand unlowered, nothing dropped |
| SchedulerIdle.IdleExactly | src/scheduler/scheduler.c:433-458 | with nothing executing, pending is zero if and only if every raised task is done |
| SchedulerIdle.TrueAnswerIsIdle | src/scheduler/scheduler.c:450-457 | a call about to answer true finds the scheduler idle if and only if every task raised after its second pending read is done |
| SchedulerIdle.TrueAnswerWithoutSubmits | src/scheduler/scheduler.c:450-457 | over every run in which nobody raises pending from the second pending read to the deciding load, a true answer finds both counters zero and every raised task done |
| SchedulerIdle.FalseAnswerSawWork | src/scheduler/scheduler.c:439-457 | over every run a call that answers false has itself loaded tasks_pending or tasks_active in a state in which one of them was not zero, so it answers true whenever both stay zero from its first load to its last |
| SchedulerSolo.IdleAnswersTrue | src/scheduler/scheduler.c:439-457 | a call that nobody interleaves, begun with both counters at zero, answers true |
| SchedulerIdle.NeverIdleAfterDrop | src/scheduler/scheduler.c:322-337 | after cancel_all dropped one task, is_idle never answers true again, in any run |
| SchedulerIdle.SnapsKept | src/scheduler/scheduler.c:440-457 | what each of the four reads of is_idle has established survives every action of others |
| SchedulerRuns.ShutdownLeavesNothing | src/scheduler/scheduler.c:286-309 | over every run of a created scheduler: when shutdown has joined its workers, and no harmful submit was in its window at the first flag store, all queues are empty and every accepted task was executed or dropped, once and not both |
| SchedulerLoss.ShutdownLosesExactly | src/scheduler/scheduler.c:286-371 | the exact condition: after any run of a created scheduler, some schedule leaves a task queued with every worker stopped if and only if a harmful submit is in its window at the first flag store and no worker's callback has called shutdown itself |
| SchedulerLoss.LostForGood | src/scheduler/scheduler.c:286-297 | such a task was accepted and is never executed, whatever happens next |
| SchedulerLoss.ClientLoses | src/scheduler/scheduler.c:347-371 | a client that pushes after all workers have stopped loses its task |
| SchedulerLoss.WorkerLoses | src/scheduler/scheduler.c:347-371 | a callback that pushes to the queue of a stopped worker loses its task: its own worker stops without looking there |
| SchedulerSolo.Solo | src/scheduler/scheduler.c:94-162 | with the flag up, a worker running alone stops, and if the global queue was empty it took only tasks of its own |
| SchedulerSolo.FinishCall | src/scheduler/scheduler.c:311-380 | a submit, an is_idle or a cancel_all that runs alone returns |
| SchedulerSolo.RoomsOverRun | src/scheduler/scheduler.c:216-252 | the queues keep their capacities over every run |
| SchedulerSafe.ShutdownFinishesAll | src/scheduler/scheduler.c:286-297 | the same from any state with the invariants, also counting tasks a cancel_all still has in its batch |
| SchedulerSafe.GuardedKept | src/scheduler/scheduler.c:94-97 | after a store without harmful submits every action keeps that somebody will still look at the global queue and that every exit test is right about its worker's own queue |
| SchedulerShutdown.ClosingKept | src/scheduler/scheduler.c:95-97 | after a quiet flag store each load of the exit test keeps what it learned, in every interleaving: a worker stops only with both queues empty, for good |
| SchedulerShutdown.SizeIsExact | src/queue/queue.c:168-176 | with pushes stopped since the head load, a size of 0 means the queue is empty although thieves pop in between |
| SchedulerSafe.StoppedMeansEmpty | src/scheduler/scheduler.c:293-297 | when all workers stopped after such a store, no queue holds a task |
| SchedulerTermination.ShutdownTerminates | src/scheduler/scheduler.c:94-162 | after any run of a created scheduler and its first flag store, whatever submits are in their windows, a measure of the state at the store (tasks queued or on their way, worker positions, what each worker last saw) plus one round for each try_pop lost to a taken lock bounds the total of worker steps under every schedule |
| SchedulerTermination.MeasureDrops | src/scheduler/scheduler.c:94-162 | with the flag up every worker step lowers the measure and no other action raises it, except that a lost try may add one round: a round that neither exits nor finds work was preceded by another worker's dequeue, a submit that left its window or a lost try |
| SchedulerTermination.MaximalRunEmpties | src/scheduler/scheduler.c:286-297 | and a run from there in which no worker can go on and no callback is in a call has stopped every worker; with all queues empty if no harmful submit was in its window |
| SchedulerFairness.BoundedOvertaking | src/scheduler/scheduler.c:103-110 | with priority on, while a task waits in the global queue behind k others, all workers together make at most k dequeues from the global queue, and from elsewhere at most one each plus one per try_pop lost to a taken lock |
| SchedulerFairness.OvertakenOnce | src/scheduler/scheduler.c:103-110 | meanwhile each single worker makes at most one dequeue from another queue, and that only if it had passed the global queue, plus one per try_pop it loses to a taken lock |
| SchedulerFairness.GlobalTakesBounded | src/scheduler/scheduler.c:104 | each dequeue from the global queue passes a ticket: over a run there are no more than its head advances |
| SchedulerFairness.StealScanIsComplete | src/scheduler/scheduler.c:71-81 | the steal scan probes every other worker exactly once and never the thief |
| SchedulerFairness.RoundProbes | src/scheduler/scheduler.c:102-119 | a round probes the global queue and the worker's own once each and, exactly with stealing, every other worker's once; the own queue comes before the steals, and the global one first of all with priority and last without |
| SchedulerFairness.FairSpread | src/scheduler/scheduler.c:363-367 | over every run in which the thread's counter does not wrap, of its m normal-path submits floor(m/k) or ceil(m/k) try the queue of any one of the k workers first, whatever other threads do |
| SchedulerFairness.PushLands | src/scheduler/scheduler.c:359-371 | a normal task's first push goes to the queue of worker (counter mod worker_count): it is the last task there and accepted, or that queue was full, nothing changed and the global queue is tried; an urgent or spilled task goes to the global queue, or that was full and the count is taken back |
| SchedulerFairness.CountersInOrder | src/scheduler/scheduler.c:363-365 | such submits take consecutive values of the thread-local counter, which nothing else moves |
| SchedulerFairness.PendingBounded | src/scheduler/scheduler.c:351-377 | without cancel_all, pending is at most the total room of all queues plus one per worker and caller; active is at most the worker count |
| SchedulerCreate.CreateQueues | src/scheduler/scheduler.c:216-252 | the queues are made exactly for capacities up to 2^24 (or one worker and above 2^63): as many as workers, the global one of the least power of two that is at least 64 and the request, each worker's likewise for request / workers, all workers' equally large, and the capacities sum to at most 3*2^24 |
| SchedulerCreate.PendingFits | src/scheduler/scheduler.c:353-354 | in every run of a scheduler with such queues, fewer than 2^30 threads and no cancel_all, tasks_pending stays below 2^31 |
| SchedulerCreate.WorkerCount | src/scheduler/scheduler.c:219-223 | the worker count is the count requested, or the number of cores when none is, brought into 1..256 |
| SchedulerWitness.LateSubmitIsLost | src/scheduler/scheduler.c:347-371 | a concrete run in which a submit that passed its flag check is accepted after shutdown is through and never looked at again |
| SchedulerWitness.TrueAnswerWithTaskQueued | src/scheduler/scheduler.c:433-458 | a concrete run in which is_idle answers true while a task submitted meanwhile is queued |
| SchedulerCode.Scheduler.Submit | src/scheduler/scheduler.c:344-381 | the code of submit among other threads: OK means accepted; CLOSED means refused with the flag up, and is certain if it was up at the call; OVERFLOW means that the global queue, and for a normal task before it the queue of the worker whose turn it was, were full when tried; every atomic action is one of the machine's |
| SchedulerCode.Scheduler.CountAndPush | src/scheduler/scheduler.c:351-380 | counters first, then the push or the spill to the global queue, then the undo, which only a push that found its queues full leads to |
| SchedulerCode.Scheduler.PushLocal | src/scheduler/scheduler.c:363-367 | the task is appended to the queue of worker (counter mod worker_count), or the answer is OVERFLOW exactly when that queue is full and no queue changes; the counter goes up by one modulo 2^32 |
| SchedulerCode.Scheduler.IsIdle | src/scheduler/scheduler.c:433-458 | the two-pass code among other threads gives the machine's answer: true means that all tasks raised before the call are done, false that a load of the call itself found tasks_pending or tasks_active not zero |
| SchedulerCode.Scheduler.WaitIdle | src/scheduler/scheduler.c:421-431 | when it returns, every task raised before the call is done; while it has not, each of its attempts, one after the other, has loaded a counter that was not zero |
| SchedulerCode.LaterRun | src/scheduler/scheduler.c:83-381 | over any run by others the invariants hold, the history only grows and the flag stays up |
| SchedulerCode.UntouchedRun | src/scheduler/scheduler.c:83-381 | a thread's own position and counter change only by its own actions |
| SchedulerWorker.TrySteal | src/scheduler/scheduler.c:71-81 | the scan loop follows the plan of the machine: a failure leaves it after a try at every other queue |
| SchedulerWorker.TryPop | src/scheduler/scheduler.c:103-118 | a try takes the oldest task of the queue, or the queue was empty or its pop lock held |
| SchedulerWorker.FindTask | src/scheduler/scheduler.c:102-119 | a search ends with the oldest task of the first queue of the plan whose probe was not in vain, or has probed every queue of the plan in its order in vain; a vain probe found its queue empty, or lost a try to a held pop lock |
| SchedulerWorker.RunTask | src/scheduler/scheduler.c:121-147 | active is raised first, then pending lowered, then the callback runs and returns, then the task is counted as completed, active lowered and the task destroyed: six actions of the worker, one after the other, whatever others do between them |
| SchedulerWorker.OneRound | src/scheduler/scheduler.c:94-162 | a round loads the flag, and if it is up looks at the global and then at its own queue; it ends the worker if and only if both looked empty; otherwise it runs the first task its search finds, or, having found none, looks at both queues again and sleeps if and only if both look empty |
| SchedulerWorker.WorkerMain | src/scheduler/scheduler.c:94-167 | the worker makes one such round after the other, as many as it is watched for unless one is the exit; a worker that stops leaves the flag up and, after a flag store without harmful submits, its own queue empty for good; the global queue too after a quiet one |
| SchedulerClose.CancelAll | src/scheduler/scheduler.c:311-340 | among other threads: the flag goes up, every task of every batch drained ends up destroyed and counted, each batch of the global queue has 1 to 256 tasks until a drain finds that queue empty, and one batch of at most 256 is taken per worker queue; it has not returned only while every batch watched had a task |
| SchedulerCancel.CancelTakes | src/scheduler/scheduler.c:311-340 | a cancel_all that nobody interleaves drops all of the global queue and the first min(256, n) tasks of each worker queue, in order, and leaves the rest queued |
| SchedulerCancel.CancelsAllExactly | src/scheduler/scheduler.c:322-337 | and leaves nothing queued if and only if every worker queue held at most 256 tasks |
| SchedulerClose.DestroyBatch | src/scheduler/scheduler.c:322-337 | every task of a batch is destroyed and tasks_canceled rises by its length, whatever others do meanwhile |
| SchedulerClose.Shutdown | src/scheduler/scheduler.c:286-309 | it waits for one worker after the other, those joined having stopped; when it is through, no harmful submit was in its window at the first store and no cancel_all goes on, every accepted task was executed or dropped, and not both |
| Parallel.ParallelFor | src/utils/parallel.c:32-80 | OK means that fn was called exactly once for every index of [begin, end) and for no other; on an error exactly the chunks of a prefix [begin, cur) were accepted and tile it, so no index is ever called twice, in any later state, and none outside the prefix ever; the next chunk had no memory (NOMEM), was refused with the flag up (CLOSED) or found no room (OVERFLOW) |
| Parallel.SubmitChunks | src/utils/parallel.c:45-73 | the accepted chunks tile [begin, cur), each accepted once and with memory for it, count/threads indices long and one more in the first count%threads of them; cur reaches end if and only if the answer is OK; NOMEM is answered exactly when the next chunk has no memory, CLOSED and OVERFLOW when its task is refused or overflowed |
| Parallel.RunRange | src/utils/parallel.c:19-30 | the worker calls fn once with each index of its range, in order |
| Parallel.AtMostOnce | src/utils/parallel.c:45-73 | in every state that can follow, no index is executed twice and none outside the accepted chunks once |
| Parallel.AtLeastOnce | src/utils/parallel.c:75-77 | when all accepted chunks are done every index has been executed |
| Parallel.CutsAll | src/utils/parallel.c:45-53 | count/threads indices per chunk, one more for the first count%threads chunks, make up the whole range |
| FutureOutcome.OkMeansFinished | src/future/future.c:75-97 | in every interleaving of waits, polls, registrations, cancels and the execution or drain: an OK outcome, returned or handed to a callback, means that the task's callback returned; wait returns only OK or CANCELED; the creation placeholder OK is never reported |
| FutureAnswers.AnswersAreOutcomes | src/future/future.c:75-129 | over every run the outcome a wait, a timed wait or a status call reports is one that a fulfilment has stored: OK only if the callback returned, CANCELED only if somebody cancelled the future or the task; wait returns it, the timed wait stores it and returns OK, and only the timed wait times out |
| FutureAnswers.OneOutcome | src/future/future.c:75-155 | while every fulfilment, made or under way, has one outcome, every answer and the status are that outcome |
| FutureAnswers.ReadyIsSeen | src/future/future.c:75-155 | over every run no wait begun after the future was ready blocks or times out, and no status call begun then answers BUSY |
| FutureAnswers.TaskCancelAnswers | src/task/task.c:122-142 | over every run cancel answers BUSY only of an executed task and OK only of one marked cancelled, whose future ends up cancelled and fulfilled |
| FutureAnswers.ExecutedRefusesCancel | src/task/task.c:122-142 | over every run a task cancel begun after the execution is refused |
| FutureAnswers.UncancelledIsOk | src/task/task.c:65-75 | in every run without a cancel call an executed task has run, and its future's outcome is OK and is not cancelled by the destruction of the task |
| FutureProgress.ExecuteAlone | src/task/task.c:154-170 | run alone, the execution runs the callback unless the task was cancelled, fulfils the future with the matching outcome whatever it held, tells the callback in force, and the task is destroyed with that outcome kept |
| FutureProgress.DestroyAlone | src/task/task.c:65-75 | run alone, the destruction of a drained task cancels a pending future and leaves a fulfilled one as it is |
| FutureProgress.TaskCancelAlone | src/task/task.c:122-142 | run alone, a task cancel is refused of an executed task; the first one marks the task and cancels the future |
| FutureProgress.CancelAlone | src/future/future.c:182-195 | run alone, the first cancel fulfils the future with CANCELED and tells the callback in force; another one does nothing |
| FutureProgress.RegisterAlone | src/future/future.c:159-178 | run alone, a registration replaces the callback and is told at once exactly if there is an outcome |
| FutureProgress.StatusAlone | src/future/future.c:150-155 | run alone, a status call answers the status of a fulfilled future and BUSY of a pending one |
| FutureProgress.WaitAlone | src/future/future.c:75-129 | run alone on a fulfilled future, either wait comes to its status and changes nothing |
| FutureProgress.StepsBounded | src/future/future.c:75-217 | no call spins for ever: over every run a thread's steps are bounded by where it is and a fixed number per call begun and per awakening |
| FutureProgress.TimeoutMeansExpired | src/future/future.c:100-129 | over every run a wait answers TIMEOUT only if it is the timed one and its sleep has expired; signals and spurious wakeups never make one time out |
| FutureProgress.ExpiryDecides | src/future/future.c:117-122 | a sleep that expires leads to TIMEOUT, whatever happens to the future meanwhile |
| FutureFacts.FactsOverRun | src/future/future.c:182-206 | over every run ready, canceled and the task's two flags never go back, and the mutex, ownership and publication-order invariants hold |
| FutureFacts.FactsKept | src/task/task.c:154-170 | each action keeps: ready with status OK implies the callback returned, despite the placeholder |
| FutureOutcome.NoLostWakeup | src/future/future.c:89-97 | a waiter blocked and unsignalled implies the future is not ready, but between the store to ready and the broadcast |
| FutureOutcome.NoDeadlock | src/future/future.c:199-217 | while a thread is inside a call and not waiting for a signal, some thread can take its next step |
| FutureFreed.FreedMeansFulfilled | src/task/task.c:65-75 | in every run, once the task is destroyed its future is ready if and only if the task was executed or no cancel is between winning `canceled` and storing `ready`; it is then OK only if the callback returned and CANCELED whenever it never ran |
| FutureFreed.SettledKept | src/task/task.c:154-170 | an executed task's own fulfilment is made or on its way in every interleaving, and nobody owns a destroyed task |
| FutureFreed.FreedWhileComing | src/task/task.c:65-75 | a concrete run to the exception: the drained task is freed while another thread's cancel has not stored ready |
| FutureOutcome.CancelPreventsExactly | src/task/task.c:122-164 | a cancelled task can never run from here on if and only if no execution has passed its check of the cancel flag |
| FutureOutcome.CanceledInTimeNeverRuns | src/task/task.c:122-164 | such a task never runs in any later run and its future's only outcome is CANCELED |
| FutureCallbacks.CallbacksExactly | src/future/future.c:159-217 | no lost completion: when all calls have returned, each callback was invoked with each outcome exactly as often as the order of registrations and fulfilments calls for |
| FutureCallbacks.OnceEach | src/future/future.c:159-217 | with one registration and one fulfilment, in either order, the callback ran exactly once, with the fulfilled status |
| FutureCallbacks.DueAreFirings | src/future/future.c:164-178 | the sequential future invokes a registration once per fulfilment while it is in force, or once on registering late; one replaced before any fulfilment never |
| FutureCallbacks.FulfilledAtMostTwice | src/future/future.c:199-217 | a future is fulfilled once by the execution and once by the first cancel and no more; it ends ready exactly if either happened, with the status stored last |
| FutureCallbacks.LinearKept | src/future/future.c:159-217 | every action keeps the concurrent future in step with the sequential one |
| FutureCode.SharedFuture.SetResult | src/future/future.c:199-217 | one fulfilment of the sequential future, whatever was there before |
| FutureCode.SharedFuture.OnComplete | src/future/future.c:159-178 | one registration of the sequential future |
| FutureCode.SharedFuture.Cancel | src/future/future.c:182-195 | OK in any case; only the first cancel fulfils, also a future that was fulfilled before |
| FutureCode.SharedFuture.GetStatus | src/future/future.c:150-155 | the outcome of the last fulfilment, BUSY exactly if there was none |
| FutureCode.SharedFuture.ToldExactly | src/future/future.c:164-178 | each callback was told each outcome exactly as often as the history of registrations and fulfilments calls for |
| FutureCode.SharedTask.Execute | src/task/task.c:154-170 | runs the callback exactly if not cancelled and fulfils the future with the matching outcome |
| FutureCode.SharedTask.Cancel | src/task/task.c:122-142 | BUSY exactly once executed; the first cancel cancels the future too |
| FutureCode.SharedTask.Destroy | src/task/task.c:65-75 | leaves no pending future |
| Memory.Allocator.Alloc | src/memory/memory.c:51-59 | one more live block, counted, and the ledger and the peak kept; when malloc fails nothing changes, no counter and no peak |
| Memory.Allocator.Free | src/memory/memory.c:79-87 | exactly the block is gone, the ledger and the peak kept; NULL is a no-op |
| Memory.Allocator.Realloc | src/memory/memory.c:61-77 | the block is replaced, the old size subtracted before the new one is added, both calls counted and the peak raised to the new byte count if that is higher; on failure the block stays live and nothing changes |
| Memory.Allocator.Calloc | src/memory/memory.c:108-116 | refused exactly when count * size does not fit 64 bits |
| Memory.Allocator.Stats | src/memory/memory.c:145-156 | every call answers the low 32 bits of the byte count, of its peak and of the two call counts, whose difference is the number of live blocks modulo 2^32; while fewer than 2^31 bytes were ever live the first two are the exact sum of the live sizes and the largest value it ever had |
| Memory.CountedExactly | src/memory/memory.c:25 | the byte counter's sum is the sum of the live sizes if and only if every live block has fewer than 2^31 bytes; it is never more |
| Memory.ProductFits | src/memory/memory.c:111 | the division test is exact |
| Memory.AlignUp | src/memory/memory.c:131-136 | for a power of two a multiple within one alignment above the size, except that it wraps to 0 exactly when size + alignment - 1 does not fit 64 bits; other alignments leave the size |
| Memory.AlignLeast | src/memory/memory.c:131-136 | that multiple is the least one not below the size |
| Memory.IsAligned | src/memory/memory.c:138-142 | for a power of two the mask test is divisibility; 0 is always aligned |
| Memory.PowerTest | src/memory/memory.c:133 | `a & (a - 1)` is zero exactly for powers of two |
| MemoryPeak.QuiescentStatistics | src/memory/memory.c:23-48 | over every interleaving of weak compare-and-exchange loops, once quiescent: allocs - frees = live blocks, and, if fewer than 2^31 bytes were ever live, the byte counter = the sum of the live sizes and the peak = the largest value it ever held |
| MemoryPeak.AllocAlone | src/memory/memory.c:23-40 | run alone from any state, the loop ends, the allocation is counted and the peak becomes the new byte count if that is higher |
| MemoryPeak.FreeAlone | src/memory/memory.c:43-49 | run alone, a free is counted and leaves the peak |
| MemoryPeak.PeakNeverFalls | src/memory/memory.c:31-39 | the peak never falls in any run, spurious failures included |
| MemoryPeak.LedgerKept | src/memory/memory.c:23-48 | each atomic action keeps the ledger, counting calls between their two increments |
| MemoryPeak.SeenIsRecord | src/memory/memory.c:26-27 | the recorded history of the byte counter only grows and ends with its value |

## Left out

- Weak memory orders, real time and timeouts as durations: atomics are sequentially consistent, and a timed wait may expire at any moment.
- src/platform/platform.c and include/fastqueue/atomic.h: foreign threads, mutexes and intrinsics, taken as primitives.
- Object lifetimes: handles are ids that are never reused, futures outlive their users and destroying a future is not modelled, since the code does not settle who destroys when.
- The failure cleanup of `fq_scheduler_create`, and NOMEM in queue, task and future creation (parallel_for's allocations and the allocator itself are modelled with failure).
- The queue's `closed` flag, which nothing sets, so that the CLOSED answer of a push cannot occur.
- `submit_mutex` and the idle condition variable: a nap may end at any time, which covers every signal and broadcast.
- Wrap-around of `tasks_submitted`, `tasks_completed` and `tasks_canceled`; `tasks_pending` is bounded by SchedulerCreate.PendingFits.
- `total_wait_ns`, `total_work_ns`, `idle_count`, logging, `fq_scheduler_stats`: statistics nothing depends on.
- The task's own completion callback (src/task/task.c:172-176), which follows the future's fulfilment in the same thread.
- src/thread/thread_pool.c, src/utils/time.c, src/utils/errors.c, src/utils/version.c: wrappers, clocks and tables.
- Callbacks: a task's callback terminates and may call the scheduler; a rejected task that is submitted again counts as a new task.
- The contents of memory blocks: `fq_calloc`'s zeroing and `realloc`'s copying are the C library's.
- How often try_pop is turned away by a held pop lock: SchedulerTermination.ShutdownTerminates and SchedulerFairness.BoundedOvertaking count these tries and do not bound them.
- SchedulerLoss.ShutdownLosesExactly: takes queues with room for a task, as fq_queue_create makes for every request up to 2^24; the queues without a slot that it makes above 2^63 accept nothing.
- SchedulerCode.Scheduler.WaitIdle: termination of the waiting loops is not claimed; they are watched for a number of attempts and report why each went on.
- SchedulerClose.CancelAll: the loop over the global queue is watched for a number of batches, because submits in their window can keep filling it.
- FutureCode.SharedFuture.SetResult: the in-place code of futures and tasks is for one caller at a time; their interleavings are in the step machine, which refines the same sequential future.
