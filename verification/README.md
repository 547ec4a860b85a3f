# Task execution machinery: a verified model

The repository runs callables on thread pools and hands the caller a handle to the result. This project models the parts
whose correctness is not visible in any one function, and proves what every run of them keeps.

| Files | What they model | Form |
|---|---|---|
| `FixedPool`, `FixedPoolInvariant`, `FixedPoolTheorems`, `FixedPoolSubmits`, `FixedPoolSweeps`, `FixedPoolHandles` | the fixed thread pool: admission gate, slot reservation, inboxes, worker deques, batch stealing, graceful and immediate shutdown, and the handles of its jobs | an interleaved machine; one step is one atomic access, queue operation or callback, of any number of submitters, workers and shutdown calls |
| `ThreadPoolInner`, `ThreadPoolQueues`, `ThreadPoolEvents`, `ThreadPoolScenarios` | the dynamic thread pool as the code keeps it: locked counters, global queue, worker queues, growth, retirement, resizing, spawn roll-back, shutdown | a class; one public method is one critical section, proved to be one step of the next row's runs; callbacks, wake-ups and notifications between them are a ghost method |
| `ThreadPoolRuns`, `ThreadPoolRecord` | runs of that code with its own counters and queues as state, failed prestarts and panics included | a machine over snapshots of the locked record and the abstract pool |
| `PoolSpec`, `PoolInvariant`, `PoolTheorems`, `PoolAnswers` | the dynamic pool over whole runs, with the condition variable, late notifications, termination waiters, callbacks and handles | a machine over critical sections and wake-ups |
| `TaskHandle`, `HandleProtocol`, `HandleTheorems`, `Completion` | the one-shot completion cell: start, complete, `start_and_complete`, cancel, `get`, `poll`, `is_done` | a class with one method per critical section, and a machine in which `finish` writes its fields one by one |
| `RayonService`, `RayonInvariant`, `RayonTheorems`, `RayonAnswers` | the Rayon service: counters, pending hooks, handle cancellation, shutdown | an interleaved machine |
| `Monitor` | guarded waits with and without a time limit | a class whose environment decides what each wake-up finds |
| `LifecycleCas`, `AdmissionGate` | the compare-and-exchange lifecycle, the submission gate and the in-flight counter | a class under interference, and interleaved machines |
| `Counting`, `Lifecycles` | counting the entries of a map, to which every counter of the code is proved equal; the pools' lifecycle | lemmas, a datatype |

Atomic accesses are taken in one total order and the monitor as correct. In every machine `Init` and `Step` say what the
code does, `IsRun` is any interleaving from an initial state, `Inv` is the invariant and `EveryState` proves it for every
state of every run. Jobs, workers, submit calls and shutdown calls are told apart by numbers, without a bound on how many
there are. A job's place (which queue, in whose hands, how far) is part of the state, so that a counter that is decremented
too early, a job that is taken twice or a callback that is skipped is a different state and not a matter of interpretation.

The fixed pool's sources are present but not declared as modules in the crate, and `submit_callable` there uses a
constructor that `PoolJob` does not have; that call is read as the pairing of `run` and `cancel` callbacks that the dynamic
pool uses (`src/task/service/thread_pool/thread_pool.rs:314-322`).

## Where the code departs from its intent

* **Failed prestart.** When spawning fails, `spawn_worker_locked` decrements the running count whenever it is positive, also
  for a worker that was to carry no job (`src/task/service/thread_pool/thread_pool_inner.rs:434-436`).
  `ThreadPoolInner.PrestartCoreThread` proves that the pool stays consistent after a failed spawn if and only if no job is
  running. Over runs, the counters are right in a state if and only if no prestart failed before it while a job was running
  (`ConsistentExactlyWhen`); each such failure leaves the running count one short for good, so that the pool never
  terminates (`NeverTerminates`), and a worker that reports a finished job panics exactly when only lost jobs are left
  (`PanicsExactlyWhen`; `PanickingRun` is such a run, `MiscountingPool` a pool brought there through its methods). From
  `submit` the decrement is harmless, because a pool without live workers runs no job.
* **Absorbed wake-up.** `submit` uses `notify_one` on the condition variable that `wait_for_termination` also parks on.
  `StrandedRun` is a run in which waiting work ends up behind a sleeping worker with no wake-up on its way.
  `StrandsExactly` proves that a step strands work if and only if it hands the last owed wake-up to a termination waiter
  while work waits and no worker is awake, `RescuesExactly` which events end that, and `StrandedExactlyWhen` puts both
  together for every run. `NoWorkStranded` follows for runs in which nobody waits for termination while the pool is running.
* **Answer of `start_and_complete`.** It is documented to return true if its result was published, but it returns true
  whenever it won the start (`src/task/task_handle.rs:252-261`). `AnswersExactlyWhen` proves that the answer is the
  documented one if and only if no other call published between its start and its own attempt; `OvertakenRun` is a run in
  which one did. `OnlyCompletersOvertake` proves that it is always right where only cancellations compete, as in every
  executor here.
* **Late success of a timed wait.** It is documented to succeed when the predicate stops blocking before the limit; the code
  checks the predicate before the clock. `SucceedsLateExactlyWhen` proves when it succeeds after its limit, and
  `LateSuccess` is such a wait.
* **`steal_back`.** It is documented to steal from the back of the queue but takes the front, like `pop_front`
  (`src/task/service/thread_pool/thread_pool_inner.rs:86-100`). `StealsNewestExactlyWhen` proves that the stolen job is the
  newest one if and only if it is the only one; `StealsOldest` is a queue of two.

## Model

| member | source | states |
|---|---|---|
| FixedPoolInvariant.StepKeeps | src/task/service/fixed_thread_pool.rs:206-722 | every atomic step of every submitter, worker and shutdown call keeps the invariant: each counter equals what it is meant to count, each job is where the threads' positions say, each callback is invoked at most once and never both |
| FixedPoolTheorems.EveryState | src/task/service/fixed_thread_pool.rs:1112-1218 | the invariant holds in every state of every interleaving, from a freshly built pool on |
| FixedPoolTheorems.ImmediateStop | src/task/service/fixed_thread_pool.rs:610-674 | once every `shutdown_now` call has returned and every worker has exited, all queues are empty, each accepted job ran once or was cancelled once and never both, queued and running are zero and submitted = completed + cancelled |
| FixedPoolTheorems.ReportIsExact | src/task/service/fixed_thread_pool.rs:620-634 | the queued and cancelled numbers a returned `shutdown_now` reports are exactly the jobs whose cancel callback it invoked itself |
| FixedPoolTheorems.RunningReportIsExact | src/task/service/fixed_thread_pool.rs:611-634 | the running number it reports is exactly how many jobs were counted as running at one moment of the call after it closed the gate and raised the stop flag |
| FixedPoolTheorems.DrainEnds | src/task/service/fixed_thread_pool.rs:642-652 | the drain loop repeats a pass at most once per accepted job, in every interleaving with stealing workers |
| FixedPoolTheorems.GracefulDrain | src/task/service/fixed_thread_pool.rs:1153-1159 | from the moment a worker leaves through the Shutdown arm no job is in any queue and none is ever accepted again |
| FixedPoolTheorems.GracefulCompletion | src/task/service/fixed_thread_pool.rs:595-603 | with graceful shutdown only, when the last worker has exited every accepted job has run once and submitted = completed |
| FixedPoolTheorems.HeldMeansLive | src/task/service/fixed_thread_pool.rs:507-559 | while a worker has a job in its hands, also between leaving the queued and entering the running count, the live count is positive |
| FixedPoolTheorems.TerminationIsFinal | src/task/service/fixed_thread_pool.rs:703-709 | if lifecycle and live count are read at one state and the queued count at a later one as `is_terminated_locked` needs them, then for ever after no job is accepted or run, and each job is completed, cancelled or about to be cancelled by a `shutdown_now` call |
| FixedPoolTheorems.NoUnderflow | src/task/service/fixed_thread_pool.rs:228-252 | in every interleaving no counter is negative and the queued count never exceeds the capacity |
| FixedPoolTheorems.GateSeals | src/task/service/fixed_thread_pool.rs:206-221 | once the gate is closed and the in-flight count was read as zero, no submitter is inside, then or later, and no job is accepted any more |
| FixedPoolTheorems.DryForever | src/task/service/fixed_thread_pool.rs:268-281 | a pool that is closed, with no slot reserved and no queued job, stays so: a reservation made after the gate closed always rolls back |
| FixedPoolSweeps.NothingOverlooked | src/task/service/fixed_thread_pool.rs:397-484 | a worker that has gone from the top of its loop to its wait without a stop has overlooked nothing: no job lay all the while in the global queue, in its own deque or inbox, or in those of a worker that was active throughout |
| FixedPoolSweeps.OwnQueuesSwept | src/task/service/fixed_thread_pool.rs:397-418 | stopped or not, a worker with local queues that has gone from the top of its loop to its wait has left no job in its own deque or inbox |
| FixedPoolSweeps.StoppedLeavesGlobal | src/task/service/fixed_thread_pool.rs:397-401 | a worker that begins its loop after the stop flag went up does not look at the global queue before it waits |
| FixedPoolSweeps.WaitDecides | src/task/service/fixed_thread_pool.rs:1137-1174 | a waiting worker looks again exactly when a queue slot is in use and the pool is not stopping, sleeps exactly when the pool runs and no slot is in use, and leaves through the Shutdown arm exactly when neither a slot is in use nor a submission in flight |
| FixedPoolSweeps.TerminatedExactlyWhen | src/task/service/fixed_thread_pool.rs:703-709 | taken in one state, the five reads of `is_terminated_locked` say terminated exactly if the pool is shut down, every worker is out, no slot is in use, no job is counted as running and nobody is inside `submit` |
| FixedPoolSweeps.ActiveWorkers | src/task/service/worker_queue.rs:75-97 | in every state the workers marked active are exactly those that have started and not begun to leave |
| FixedPoolSubmits.FullOnlyWhenFull | src/task/service/fixed_thread_pool.rs:228-245 | a call that answers that the queue is full was inside at a moment at which every slot was reserved or held by a job not yet running |
| FixedPoolSubmits.ClosedOnlyWhenClosed | src/task/service/fixed_thread_pool.rs:206-221 | a call that answers that the pool is shut down does so only with the gate closed |
| FixedPoolSubmits.OpenTakesAll | src/task/service/fixed_thread_pool.rs:268-281 | with the gate open and no capacity every returned call has taken its job |
| FixedPoolSubmits.JobsHaveCalls | src/task/service/fixed_thread_pool.rs:268-281 | every accepted job was taken by exactly one call |
| FixedPoolSubmits.PlacedByProbes | src/task/service/fixed_thread_pool.rs:287-297 | a job goes to the inbox of a worker that one of the call's probes found active; in a pool of up to four workers it goes to the global queue only after as many failed probes as there are workers, and in a larger one always |
| FixedPoolSubmits.NeverRunAfterStop | src/task/service/fixed_thread_pool.rs:507-529 | a job that is in a queue, or on its way into one, when the stop flag goes up is never run |
| FixedPoolSubmits.ShutdownTakesEffect | src/task/service/fixed_thread_pool.rs:595-603 | once a `shutdown` call has returned the pool is shut down and its gate closed for ever |
| FixedPoolHandles.StoppedEndToEnd | src/task/service/fixed_thread_pool.rs:1050-1074 | after an immediate stop every accepted callable has exactly one published result, its own if it ran, a cancellation otherwise, and a cancelled callable was never invoked, with handles cancelled at any time |
| FixedPoolHandles.GracefulEndToEnd | src/task/service/fixed_thread_pool.rs:1050-1066 | after a graceful shutdown every accepted callable has been through its run callback and has exactly one published result, its own unless its handle was cancelled first |
| FixedPoolHandles.OneOutcome | src/task/service/thread_pool/pool_job.rs:46-59 | at every moment of every run a published result is the only one and agrees with whether the callable was invoked |
| FixedPoolHandles.ResultIsDecided | src/task/task_runner.rs:25-47 | a job's published result is exactly what was decided for it, by its callable's outcome or by a cancellation that came before the start, and at most one thing is ever decided |
| FixedPoolHandles.DecisionIsAnswered | src/task/service/thread_pool/pool_job.rs:46-59 | the outcome a callable yields is published as it is, and a cancellation that finds the task open is its result |
| FixedPoolHandles.ActKeeps | src/task/service/fixed_thread_pool.rs:507-559 | every step of the pool, every callback step and every handle cancellation keeps cells, callbacks and job places in agreement |
| FixedPoolInvariant.BatchMovesQueued | src/task/service/worker_queue.rs:146-163 | a batch steal moves queued jobs only, one into the thief's hands and the others into its own deque, and every job keeps its slot |
| FixedPoolInvariant.BatchIsMove | src/task/service/fixed_thread_pool.rs:426-434 | after a batch steal the thief's position and the jobs it holds still agree |
| FixedPoolInvariant.TakeCounts | src/task/service/worker_queue.rs:255-290 | single and batch steals change no counter and invoke no callback |
| FixedPoolInvariant.BagSize | src/task/service/fixed_thread_pool.rs:642-674 | what a stopping call subtracts from the queued count is exactly the number of jobs it drained over all its passes |
| ThreadPool.ThreadPoolInner.Submit | src/task/service/thread_pool/thread_pool_inner.rs:248-312 | exactly when `submit` is rejected and with which error, and which event an accepted job is; any rejection leaves all counters, queues and registrations as they were, and only a failed spawn moves the worker index |
| ThreadPool.ThreadPoolInner.SubmitToNewWorker | src/task/service/thread_pool/thread_pool_inner.rs:253-257 | core and overflow growth give the job to a new worker; a failed spawn changes nothing but the next index |
| ThreadPool.ThreadPoolInner.SubmitToEmptyPool | src/task/service/thread_pool/thread_pool_inner.rs:280-297 | without a live worker the job is queued and a worker spawned; if that fails `pop_back` takes the same job back and all counters are restored |
| ThreadPool.ThreadPoolInner.SubmitToBusyPool | src/task/service/thread_pool/thread_pool_inner.rs:258-303 | with live workers the job goes to the back of the global queue, or, in a bounded pool without idle workers, to the back of the local queue under the cursor, and a wake-up is owed exactly when somebody is idle |
| ThreadPool.ThreadPoolInner.TryEnqueueWorkerJob | src/task/service/thread_pool/thread_pool_inner.rs:330-345 | round-robin placement puts the job at the back of exactly the queue under the cursor and nowhere else |
| ThreadPool.ThreadPoolInner.PrestartCoreThread | src/task/service/thread_pool/thread_pool_inner.rs:360-370 | each outcome of prestarting; after a failed spawn the pool is consistent if and only if no job was running |
| ThreadPool.ThreadPoolInner.SpawnWorker | src/task/service/thread_pool/thread_pool_inner.rs:405-443 | a spawn registers an empty queue and counts the worker; a failed one undoes both, and decrements the running count whenever it is positive |
| ThreadPool.ThreadPoolInner.RemoveWorkerQueue | src/task/service/thread_pool/thread_pool_inner.rs:468-490 | removing a registration removes that worker's queue only and hands back exactly its jobs |
| ThreadPool.ThreadPoolInner.TryTakeQueuedJob | src/task/service/thread_pool/thread_pool_inner.rs:507-544 | exactly one pending job is taken, from the front of the own queue, else from the first other queue that has one in wrap-around order from the cursor, else from the front of the global queue; `None` only when no job is pending anywhere |
| ThreadPool.ThreadPoolInner.TryStealJob | src/task/service/thread_pool/thread_pool_inner.rs:555-577 | the front job of the first other non-empty queue in wrap-around order from the cursor; `None` only when all other queues are empty |
| ThreadPoolQueues.ScanCovers | src/task/service/thread_pool/thread_pool_inner.rs:567-575 | a scan over all offsets from any start visits every queue |
| ThreadPoolQueues.StealsNewestExactlyWhen | src/task/service/thread_pool/thread_pool_inner.rs:86-100 | the stolen job is the newest of its queue if and only if it is the only one |
| ThreadPoolQueues.StealsOldest | src/task/service/thread_pool/thread_pool_inner.rs:86-100 | from a queue of two jobs the older one is taken |
| ThreadPool.ThreadPoolInner.WaitForJob | src/task/service/thread_pool/thread_pool_inner.rs:836-887 | exactly when one pass of the wait loop yields a job, makes the worker leave (also by retiring after a timed-out wait) or lets it sleep, in terms of the counters and sizes; which job it yields, how long it sleeps, and the step of the machine it is |
| ThreadPool.ThreadPoolInner.IdleWorkerCanRetire | src/task/service/thread_pool/thread_pool_state.rs:141-145 | an idle worker may retire exactly when the pool is above its maximum or core size, or core workers may time out |
| ThreadPool.ThreadPoolInner.UnregisterExitingWorker | src/task/service/thread_pool/thread_pool_inner.rs:913-929 | a leaving worker's queued jobs move to the global queue, so that no pending job is lost |
| ThreadPool.ThreadPoolInner.Elsewhere | src/task/service/thread_pool/thread_pool_inner.rs:805-824 | callbacks, handle cancellations, notifications, wake-ups and termination waits keep the locked record in agreement with the machine |
| ThreadPool.ThreadPoolInner.FinishRunningJob | src/task/service/thread_pool/thread_pool_inner.rs:895-903 | finishing a job is one completion event, and in a consistent pool its checked subtraction never underflows |
| ThreadPool.ThreadPoolInner.ShutDown | src/task/service/thread_pool/thread_pool_inner.rs:602-609 | graceful shutdown never takes a stopping pool back and wakes every sleeper |
| ThreadPool.ThreadPoolInner.ShutDownNow | src/task/service/thread_pool/thread_pool_inner.rs:617-638 | every waiting job is handed to this call exactly once, the queues are empty afterwards, and the report counts exactly those jobs and the running ones |
| ThreadPool.ThreadPoolInner.DrainAllWorkerQueuedJobs | src/task/service/thread_pool/thread_pool_inner.rs:584-595 | all local queues are emptied and every job in them is handed back once |
| ThreadPool.ThreadPoolInner.IsTerminated | src/task/service/thread_pool/thread_pool_state.rs:118-123 | the counters say terminated exactly when the pool has left Running and no task waits or runs and no worker lives |
| ThreadPool.ThreadPoolInner.SetCorePoolSize | src/task/service/thread_pool/thread_pool_inner.rs:691-716 | refused, without effect, exactly above the current maximum; otherwise a resize that changes nothing else |
| ThreadPool.ThreadPoolInner.SetMaximumPoolSize | src/task/service/thread_pool/thread_pool_inner.rs:728-757 | refused, without effect, exactly for zero and below the core size; otherwise a resize that changes nothing else |
| ThreadPool.ThreadPoolInner.constructor | src/task/service/thread_pool/thread_pool_state.rs:82-102 | a pool from a validated configuration has that configuration, empty counters and queues, and is an initial state of the machine |
| ThreadPoolRecord.NoWorkerNoJob | src/task/service/thread_pool/thread_pool_inner.rs:434-436 | without live workers no job is running, which is why a spawn failure in `submit` leaves the running count alone |
| ThreadPoolRuns.ExactlyOnce | src/task/service/thread_pool/thread_pool_inner.rs:248-638 | in every state of every run of the code: queued = global queue + all local queues and within capacity, each waiting job is queued exactly once, submitted is the number of accepted jobs and = queued + running + completed + cancelled, and running = workers holding a job, the running count being short by one for each prestart that failed while a job ran |
| ThreadPoolRuns.ConsistentExactlyWhen | src/task/service/thread_pool/thread_pool_inner.rs:405-443 | counters, queues and registrations agree with the machine in a state if and only if no prestart failed before it while the counters showed a running job |
| ThreadPoolRuns.TerminationIsTruthful | src/task/service/thread_pool/thread_pool_state.rs:118-123 | `is_terminated` computed from the code's own counters is true exactly when the pool has terminated, also when the running count is short |
| ThreadPoolRuns.NeverTerminates | src/task/service/thread_pool/thread_pool_inner.rs:434-436 | after a prestart that failed while a job ran the running count stays short and some worker stays live, and the pool never terminates |
| ThreadPoolRuns.PanicsExactlyWhen | src/task/service/thread_pool/thread_pool_inner.rs:897-900 | reporting a finished job panics if and only if every running job is one the counter has lost; never without a failed prestart |
| ThreadPoolRuns.PanickingRun | src/task/service/thread_pool/thread_pool_inner.rs:360-370 | a run in which a prestart fails below the core size and the last finish panics |
| ThreadPoolRuns.CodeStepKeeps | src/task/service/thread_pool/thread_pool_inner.rs:248-929 | every step of the code, failed spawns and panics included, keeps record and machine in agreement up to the lost running jobs |
| ThreadPoolScenarios.MiscountingPool | src/task/service/thread_pool/thread_pool_inner.rs:360-370 | one submission and one failed prestart bring a pool into a state whose counters are wrong |
| ThreadPoolScenarios.RetiringPool | src/task/service/thread_pool/thread_pool_inner.rs:836-887 | a worker runs and reports its job, waits in vain, retires by timeout, and leaves the pool with exactly one submitted and completed job |
| ThreadPoolQueues.BagEmpty | src/task/service/thread_pool/thread_pool_inner.rs:584-595 | the bag of locally queued jobs is empty exactly when every local queue is |
| ThreadPoolQueues.BagOfRemove | src/task/service/thread_pool/thread_pool_inner.rs:468-490 | unregistering one queue removes exactly its jobs from the bag and its index from the registry |
| PoolInvariant.StepKeeps | src/task/service/thread_pool/thread_pool_inner.rs:248-929 | every critical section, callback step, notification and wake-up keeps the invariant of the dynamic pool |
| PoolTheorems.EveryState | src/task/service/thread_pool/thread_pool_inner.rs:158-175 | the invariant holds in every state of every run |
| PoolTheorems.NoWorkStranded | src/task/service/thread_pool/thread_pool_inner.rs:258-303 | if nobody waits for termination while the pool is running, waiting work always has an awake worker or an owed wake-up |
| PoolTheorems.StrandsExactly | src/task/service/thread_pool/thread_pool_inner.rs:298-303 | with no work stranded before, a step of any kind strands work if and only if it hands the last owed `notify_one` to a thread waiting for termination while work waits in a running pool and no worker is awake |
| PoolTheorems.RescuesExactly | src/task/service/thread_pool/thread_pool_inner.rs:248-303 | stranded work stays so until a submission with a new worker or a new wake-up, a prestart, a shutdown or a worker's own wake-up, and no other event ends it |
| PoolTheorems.StrandedExactlyWhen | src/task/service/thread_pool/thread_pool_inner.rs:663-667 | in every run work is stranded at a state if and only if an earlier event absorbed the last owed wake-up and none since has rescued it |
| PoolTheorems.StrandedRun | src/task/service/thread_pool/thread_pool_inner.rs:663-667 | a run in which a termination waiter absorbs the wake-up and leaves work behind a sleeping worker |
| PoolTheorems.NobodyParkedAfterShutdown | src/task/service/thread_pool/thread_pool_inner.rs:602-632 | once the lifecycle has left Running it never returns, and no worker is parked in that or any later state |
| PoolTheorems.WorkHasWorkers | src/task/service/thread_pool/thread_pool_inner.rs:842-883 | waiting work always has a live worker, and no worker can leave while a job waits |
| PoolTheorems.WorkerBounds | src/task/service/thread_pool/thread_pool_inner.rs:691-751 | under any order of resizing core <= max and 1 <= max; no step raises the live count above the maximum; without core timeout no exit while Running takes it below core |
| PoolTheorems.WorkersSleepAndLeaveRightly | src/task/service/thread_pool/thread_pool_inner.rs:836-887 | in every run a worker sleeps only without waiting work in a running pool that needs it, its wait is timed exactly if it may then be spare, it leaves only from a stopping pool or without waiting work where it is surplus, and only a timed wait times out |
| PoolTheorems.LiveChanges | src/task/service/thread_pool/thread_pool_inner.rs:405-443 | which events change the number of live workers, and by how much |
| PoolTheorems.TerminatedStays | src/task/service/thread_pool/thread_pool_state.rs:118-123 | no event leads out of a terminated state or adds a task to it |
| PoolTheorems.TerminatedExactlyWhen | src/task/service/thread_pool/thread_pool_state.rs:118-123 | a pool has terminated exactly if it is no longer running, every worker is out and every accepted task is completed or cancelled |
| PoolTheorems.TerminationIsFinal | src/task/service/thread_pool/thread_pool_inner.rs:655-667 | once terminated, always terminated; submitted = completed + cancelled; nobody is parked waiting for termination |
| PoolTheorems.NobodyStopsWaiting | src/task/service/thread_pool/thread_pool_inner.rs:663-667 | `wait_for_termination` never returns early: until the pool has terminated every thread that began to wait is parked or about to look again |
| PoolTheorems.EndToEnd | src/task/service/thread_pool/thread_pool.rs:314-322 | after termination and the cancelling of drained jobs every accepted task has exactly one published result, the callable's own or a cancellation, and a cancelled callable was never invoked |
| PoolTheorems.OneOutcome | src/task/service/thread_pool/pool_job.rs:46-59 | in every state a published result is the only one, is the callable's own if that ran once, and a cancellation only if it never ran |
| PoolAnswers.ResultIsDecided | src/task/task_runner.rs:25-47 | a task's published result is exactly what was decided for it, by its callable's outcome or by a cancellation that came before the start, and at most one thing is ever decided |
| PoolAnswers.DecisionIsAnswered | src/task/service/thread_pool/pool_job.rs:46-59 | the outcome a callable yields is published as it is, and a cancellation that finds the task open is its result |
| TaskHandles.TaskHandleInner.Start | src/task/task_handle.rs:214-223 | starting is the `Start` of the completion cell: it loses exactly to a completed task |
| TaskHandles.TaskHandleInner.Finish | src/task/task_handle.rs:286-298 | one call publishes, stores result and flag together, and takes the last waker; every other call changes nothing |
| TaskHandles.TaskHandleInner.Cancel | src/task/task_handle.rs:269-271 | cancelling wins exactly on a task neither started nor completed |
| TaskHandles.TaskHandleInner.Take | src/task/task_handle.rs:104-114 | the published outcome is handed out once; a second retrieval panics |
| TaskHandles.TaskHandleInner.Poll | src/task/task_handle.rs:163-182 | pending exactly before completion, and then the caller's waker replaces the last one; otherwise the published outcome |
| HandleTheorems.OneDecision | src/task/task_handle.rs:214-307 | in every run at most one call publishes; after a won cancel no start wins and after a won start no cancel wins |
| HandleTheorems.OnePublisher | src/task/task_handle.rs:286-307 | two finishing calls never both return true, and the stored outcome is the winner's |
| HandleTheorems.AnswersExactlyWhen | src/task/task_handle.rs:237-261 | a `start_and_complete` call answers what it is documented to answer if and only if no other call published after its won start; otherwise the stored outcome is the other call's |
| HandleTheorems.OnlyCompletersOvertake | src/task/task_runner.rs:42-47 | if all other calls are cancellations, none ever publishes after its won start |
| HandleTheorems.OvertakenRun | src/task/task_handle.rs:252-261 | a run in which a `start_and_complete` call answers true and the published outcome is another call's |
| HandleTheorems.RetrievedIsPublished | src/task/task_handle.rs:163-182 | in every run, with `get` or polls only, whatever was handed out is what the winner stored, and it is handed out once |
| HandleTheorems.GetEndsIn | src/task/task_handle.rs:104-114 | a `get` ends in that outcome, or in a panic exactly because it was handed out before |
| HandleTheorems.DoneMeansStored | src/task/task_handle.rs:122-124 | `is_done`, read without the lock, is never true before the outcome is stored |
| HandleTheorems.CompletionIsFinal | src/task/task_handle.rs:290-298 | after completion the flag stays up, the outcome never changes and no poll is left pending |
| HandleTheorems.LatestWakerWokenOnce | src/task/task_handle.rs:303-305 | only the waker of the last pending poll is woken, at most once and after completion, and exactly once when the winning call has returned |
| HandleTheorems.LastPollIsWoken | src/task/task_handle.rs:163-182 | once the publishing call has returned exactly the waker of the last poll that was pending has been woken, once, and nobody if none was; before that nobody else ever is |
| HandleTheorems.PendingPollIsWoken | src/task/task_handle.rs:303-305 | the waker of a pending poll with no later pending poll is woken exactly once |
| HandleTheorems.RetrievalSucceeds | src/task/task_handle.rs:104-182 | a `get` or poll that finds the task completed hands out its one outcome unless it was handed out before |
| HandleTheorems.NobodyLeftParked | src/lock/monitor.rs:426-436 | a getter parked in a completed state is owed a notification, and none is parked once the winner has returned |
| HandleTheorems.StepRefinesCell | src/task/task_handle.rs:290-298 | the field-by-field protocol refines the one-step completion cell, with the result that each call returns |
| RayonInvariant.StepKeeps | src/task/service/rayon_executor_service.rs:446-523 | every step of submission, runner, cancellation and shutdown keeps the service's invariant |
| RayonTheorems.CountersExact | src/task/service/rayon_executor_service.rs:269-292 | queued and active count exactly the tasks not yet started or cancelled and not yet settled; 0 <= queued <= active |
| RayonTheorems.TasksGoOn | src/task/service/rayon_executor_service.rs:476-483 | over any part of a run a task leaves each counter at most once and a stored result is never replaced |
| RayonTheorems.ReportIsHonest | src/task/service/rayon_executor_service.rs:507-523 | a report counts exactly the tasks its call cancelled, none of which ever started, and never more than it saw queued |
| RayonTheorems.StopLeavesOnlyOthers | src/task/service/rayon_executor_service.rs:515-520 | after a returned `shutdown_now` an undecided task is one whose hook another, unfinished call has drained |
| RayonTheorems.StopDecidesAll | src/task/service/rayon_executor_service.rs:507-523 | when every `shutdown_now` call has returned, every accepted task has been won by a start or a cancellation, for ever after |
| RayonTheorems.TerminationIsTruthful | src/task/service/rayon_executor_service.rs:531-533 | if the flag is read true and later the active count zero, then for ever after both counters are zero, no task is added and every accepted task has one result that never changes |
| RayonTheorems.OneWinner | src/task/service/rayon_executor_service.rs:462-483 | a task's result is a cancellation exactly when it never started |
| RayonAnswers.ResultIsDecided | src/task/service/rayon_executor_service.rs:462-483 | a task's published result is exactly what was decided for it, by its callable's outcome or by a cancellation that came before the start, and at most one thing is ever decided |
| RayonAnswers.CallableIsAnswered | src/task/service/rayon_executor_service.rs:476-483 | what a running callable yields is the published result |
| RayonAnswers.CancellationIsAnswered | src/task/service/rayon_executor_service.rs:462-469 | a cancellation, by handle or by `shutdown_now`, that finds the task open is its result |
| RayonAnswers.ReportIsExact | src/task/service/rayon_executor_service.rs:510-511 | the queued and running numbers of a report are exact at two moments of the call: tasks still counted as queued at the first, and by how many more tasks were unfinished at the second |
| RayonAnswers.ReturnedHasSettled | src/task/service/rayon_executor_service.rs:515-522 | when `shutdown_now` returns, every task it cancelled has left both counters and has its result |
| RayonAnswers.NoHookIsLeft | src/task/service/rayon_executor_service.rs:269-285 | a task that runs, has finished or is settled keeps no hook in the pending map |
| RayonAnswers.ShutdownRefusesAll | src/task/service/rayon_executor_service.rs:452-455 | after either kind of shutdown the service stays shut down and accepts no task |
| Monitors.Monitor.WaitTimeoutWhile | src/lock/monitor.rs:545-571 | `f` is applied once, to the state in which the predicate was found satisfied, or not at all and only with the predicate blocking and the time up; each wait asks for what is left; with a deciding check or only late wake-ups from some round on the number of waits is bounded |
| Monitors.Monitor.WaitTimeoutUntil | src/lock/monitor.rs:633-644 | the same for a predicate that must become true |
| Monitors.Monitor.WaitWhile | src/lock/monitor.rs:426-436 | `f` is applied once, to the first state found in which the predicate does not block |
| Monitors.SucceedsExactlyWhen | src/lock/monitor.rs:557-570 | a timed wait succeeds if and only if some check finds the predicate satisfied and no earlier check finds the time used up |
| Monitors.SucceedsLateExactlyWhen | src/lock/monitor.rs:499-506 | a timed wait succeeds after its limit if and only if the first satisfied check comes after the limit and no earlier check did |
| Monitors.LateSuccess | src/lock/monitor.rs:557-570 | a wait with limit 10 that finds its state changed at time 20 succeeds |
| LifecycleCas.EncodingIsExact | src/task/service/thread_pool/cas.rs:29-57 | decoding undoes encoding and accepts no other tag |
| LifecycleCas.LifecycleStateMachine.TransitionToStopping | src/task/service/thread_pool/cas.rs:115-134 | under any interference it ends in Stopping within three rounds, writes at most once, and returns true exactly when that write was its own |
| LifecycleCas.LifecycleStateMachine.TransitionRunningToShutdown | src/task/service/thread_pool/cas.rs:98-107 | wins exactly from Running and otherwise changes nothing |
| LifecycleCas.TagOnlyRises | src/task/service/thread_pool/cas.rs:59-69 | in every run the tag only rises |
| LifecycleCas.EachTransitionOnce | src/task/service/thread_pool/cas.rs:92-134 | in every run at most one shutdown and at most one stopping call return true; one stopping call has exactly when the pool is stopping |
| LifecycleCas.AtMostThreeRounds | src/task/service/thread_pool/cas.rs:116-133 | no stopping call loses more than two exchanges, because each lost one means that the tag rose |
| AdmissionGate.CounterIsExact | src/task/service/thread_pool/cas.rs:197-221 | the counter is the submitters inside plus those that have yet to decide or roll back, never negative, and at most one close wins |
| AdmissionGate.RejectedOnlyWhenClosed | src/task/service/thread_pool/cas.rs:233-254 | a submitter is turned away only with the gate closed |
| AdmissionGate.EnteredThroughOpenGate | src/task/service/thread_pool/cas.rs:239-242 | a submitter that got inside saw the gate open after it had been counted |
| AdmissionGate.ZeroAfterClosingIsFinal | src/task/service/thread_pool/cas.rs:233-254 | once the gate is closed and the counter was read as zero, no submitter is inside, then or later |
| AdmissionGate.EveryDropIsReportedOnce | src/task/service/thread_pool/cas.rs:262-268 | between any two points of a run each fall of the counter to zero is reported by exactly one leave or roll-back, and nothing else is |

## Left out

- Fixed pool and Rayon service as classes: their state is touched outside any lock, so they are machines over values and not classes; updates in place and aliasing are not captured there, and each atomic access or queue operation is one step.
- FixedPoolSweeps.NothingOverlooked: speaks of workers that nobody stops; a stopped worker drains and cancels what it finds, and where it looks after that depends on where it had taken its last job.
- Fixed pool queue order: queues are sets of jobs, so first-in first-out order within an inbox, deque or the global queue is not stated.
- Fixed pool sleeping and waking: idle counts, wake tokens and notifications are not modelled and workers may wake at any time, which only adds interleavings; wake-up liveness does not hold there, because it notifies without the monitor.
- The own-queue claim flag of `worker_queue.rs`: nothing in the fixed pool uses it. The steal cursor is an arbitrary start of the scan.
- Monitor exclusion in the fixed pool: steps the code takes under the monitor may interleave in the model, so the results hold for more runs than the code has.
- Worker-local deques and injectors inside crossbeam, and retry loops around contended steals: each push, steal and batch steal is one atomic move.
- Memory orderings weaker than sequential consistency, poisoned locks and the internals of the synchronisation libraries.
- Threads, names, stack sizes and clocks: spawning is a parameter that says whether it succeeds, and elapsed time is part of the environment.
- Overflow of `usize` counters, task numbers and cursors: all are unbounded integers.
- Keep-alive durations: whether a wait timed out is a parameter of the pass, and `set_keep_alive` changes nothing else that is modelled.
- prestart_all_core_threads: a loop over `prestart_core_thread` until it answers false.
- PoolInvariant.StepKeeps: a failed prestart while jobs run is not an event of the abstract machine, which has no counters to break; ThreadPoolRuns.CodeStepKeeps covers it.
- ThreadPoolRuns.CodeStepKeeps: the thread of a worker whose finish panics is not marked dead, so the machine may let it try again; this only adds runs.
- Callbacks of rejected jobs: a job whose submission fails is dropped or cancelled after the pool's state is restored; nothing outside it observes that.
- Callbacks that panic: pool callbacks return, which the panic-catching runner ensures for `submit_callable`; jobs passed directly to `submit_job` are assumed to.
- Wake-ups after a setter: the notification that `set_core_pool_size` and the other setters send after resizing is covered by wake-ups that may happen at any time.
- ThreadPool.ThreadPoolInner.WaitForJob: one pass between two waits; that passes repeat until a job or the exit is part of the machine, and that they end is not stated, since a worker may sleep for ever.
- Monitors.Monitor.WaitTimeoutWhile: with early wake-ups for ever and a predicate that never stops blocking in time the code only ends by its clock, which is not modelled as advancing.
- Monitors.Monitor.WaitWhile: some later check must find the predicate satisfied; without that the code waits for ever.
- stop_after_failed_build and the construction of the fixed pool: runs begin with all workers registered.
- Lock wrappers, double-checked execution, the execution-services facade, builders, statistics snapshots, Tokio services, thread-per-task and direct executors: routing and plumbing around the parts modelled here.
