// The dynamic thread pool as the code keeps it: a locked record of counters, one global queue, one local queue per
// worker with round-robin placement and wrap-around stealing. Each public method is one critical section of the pool's
// monitor and is proved to be an event of the abstract machine in PoolSpec.dfy.

module ThreadPool {
  import opened Counting
  import opened Lifecycles
  import opened PoolSpec
  import opened PoolInvariant
  import opened ThreadPoolQueues
  import opened ThreadPoolRecord
  import opened ThreadPoolRuns
  import opened ThreadPoolEvents

  datatype SubmitResult = Accepted | RejectedShutdown | RejectedSaturated | RejectedSpawnFailed

  datatype PrestartResult = Started | NotNeeded | PrestartShutdown | PrestartSpawnFailed

  // What one pass of `wait_for_job` ends in.
  datatype LookResult = GotJob(job: Job) | MustExit | MustPark

  datatype ShutdownReport = ShutdownReport(queued: int, running: int, cancelled: int)

  class ThreadPoolInner {
    var lifecycle: Life
    var queue: seq<Job>
    var queuedTasks: int
    var queueCapacity: Option<int>
    var runningTasks: int
    var liveWorkers: int
    var idleWorkers: int
    var submittedTasks: int
    var completedTasks: int
    var cancelledTasks: int
    var corePoolSize: int
    var maximumPoolSize: int
    var allowCoreThreadTimeout: bool
    var nextWorkerIndex: Id
    var workerQueues: seq<WorkerQueue>
    var nextEnqueueWorker: int
    ghost var spec: Pool

    ghost function Counters(): Tally
      reads this
    {
      Tally(queuedTasks, runningTasks, liveWorkers, idleWorkers, submittedTasks, completedTasks, cancelledTasks)
    }

    /** Counters, queues and machine, as one state of a run. */
    ghost function Now(): Snapshot
      reads this
    {
      Snapshot(Record(Counters(), queue, workerQueues, nextWorkerIndex), spec)
    }

    // The same as it was before a woken worker stopped counting itself as idle.
    ghost function BeforeWaking(worker: Id): Snapshot
      reads this
    {
      var t := Counters().(idle := idleWorkers + Bit(WasWoken(spec, worker)));
      Snapshot(Record(t, queue, workerQueues, nextWorkerIndex), spec)
    }

    /** The fields that are not in the snapshot are those of the machine. */
    ghost predicate Settings()
      reads this
    {
      && lifecycle == spec.life && nextEnqueueWorker >= 0
      && spec.cfg == Config(corePoolSize, maximumPoolSize, queueCapacity, allowCoreThreadTimeout)
    }

    /** The locked record agrees with the machine. */
    ghost predicate Valid()
      reads this
    {
      Good(Now()) && Settings()
    }

    /** The queue is bounded and has reached its capacity. */
    ghost predicate IsSaturated()
      reads this
    {
      queueCapacity.Some? && queuedTasks >= queueCapacity.value
    }

    /** The call took exactly this step of the code. */
    twostate predicate Did(l: Label)
      reads this
    {
      CodeStep(old(Now()), l, Now())
    }

    /** All waiting jobs, wherever they are queued. */
    ghost function Pending(): multiset<Job>
      reads this
    {
      multiset(queue) + LocalBag(workerQueues)
    }

    // ---------------------------------------------------------------- local queues

    /** Round-robin placement: the job goes to the back of exactly one registered queue, if there is any. */
    method TryEnqueueWorkerJob(job: Job) returns (taken: bool)
      requires nextEnqueueWorker >= 0
      modifies this`workerQueues, this`nextEnqueueWorker
      ensures nextEnqueueWorker >= 0
      ensures taken <==> old(workerQueues) != []
      ensures Indices(workerQueues) == Indices(old(workerQueues))
          && (Distinct(old(workerQueues)) ==> Distinct(workerQueues))
      ensures LocalBag(workerQueues) == LocalBag(old(workerQueues)) + if taken then multiset{job} else multiset{}
      ensures !taken ==> workerQueues == old(workerQueues) && nextEnqueueWorker == old(nextEnqueueWorker)
      ensures taken ==> nextEnqueueWorker == old(nextEnqueueWorker) + 1
      ensures taken ==> AtBack(old(workerQueues), old(nextEnqueueWorker) % |old(workerQueues)|, job, workerQueues)
    {
      if workerQueues == [] {
        return false;
      }
      var start := nextEnqueueWorker;
      nextEnqueueWorker := nextEnqueueWorker + 1;
      var slot := start % |workerQueues|;
      BagOfUpdate(workerQueues, slot, workerQueues[slot].jobs + [job]);
      workerQueues := workerQueues[slot := workerQueues[slot].(jobs := workerQueues[slot].jobs + [job])];
      return true;
    }

    /** The position of a worker's queue, or the number of queues if it has none. */
    method PositionOf(index: Id) returns (i: int)
      ensures 0 <= i <= |workerQueues|
      ensures i < |workerQueues| ==> workerQueues[i].index == index
      ensures i == |workerQueues| <==> index !in Indices(workerQueues)
    {
      i := 0;
      while i < |workerQueues| && workerQueues[i].index != index
        invariant 0 <= i <= |workerQueues|
        invariant forall k :: 0 <= k < i ==> workerQueues[k].index != index
      {
        i := i + 1;
      }
    }

    /** Removes one registration and hands back the jobs still queued there. */
    method RemoveWorkerQueue(index: Id) returns (jobs: seq<Job>)
      requires Distinct(workerQueues)
      modifies this`workerQueues
      ensures Distinct(workerQueues) && Indices(workerQueues) == Indices(old(workerQueues)) - {index}
      ensures LocalBag(old(workerQueues)) == LocalBag(workerQueues) + multiset(jobs)
      ensures index in Indices(old(workerQueues)) ==>
                exists i :: RemovedAt(old(workerQueues), i, index, workerQueues) && old(workerQueues)[i].jobs == jobs
    {
      hide LocalBag;
      var i := PositionOf(index);
      if i < |workerQueues| {
        jobs := workerQueues[i].jobs;
        BagOfRemove(workerQueues, i);
        workerQueues := workerQueues[..i] + workerQueues[i + 1..];
        assert RemovedAt(old(workerQueues), i, index, workerQueues);
      } else {
        jobs := [];
      }
    }

    /** Wrap-around stealing: one job from the front of some other worker's queue; None only if those are all empty. */
    method TryStealJob(worker: Id) returns (r: Option<Job>)
      requires nextEnqueueWorker >= 0 && Distinct(workerQueues) && worker in Indices(workerQueues)
      modifies this`workerQueues, this`nextEnqueueWorker
      ensures nextEnqueueWorker >= 0
      ensures Indices(workerQueues) == Indices(old(workerQueues)) && Distinct(workerQueues)
      ensures r.Some? ==> LocalBag(old(workerQueues)) == LocalBag(workerQueues) + multiset{r.value}
      ensures nextEnqueueWorker == old(nextEnqueueWorker) + Bit(|old(workerQueues)| > 1)
      ensures r.Some? ==> Stole(old(workerQueues), worker, old(nextEnqueueWorker), r.value, workerQueues)
      ensures r.None? ==> workerQueues == old(workerQueues)
      ensures r.None? ==> forall i :: 0 <= i < |workerQueues| && workerQueues[i].index != worker ==>
          workerQueues[i].jobs == []
    {
      hide LocalBag;
      var count := |workerQueues|;
      if count <= 1 {
        return None;
      }
      var start := nextEnqueueWorker % count;
      nextEnqueueWorker := nextEnqueueWorker + 1;
      var offset := 0;
      while offset < count
        invariant 0 <= offset <= count == |workerQueues| && workerQueues == old(workerQueues) && nextEnqueueWorker >= 0
        invariant forall k :: 0 <= k < offset ==> Passed(workerQueues, worker, start, k)
      {
        var v := Probe(start, offset, count);
        if workerQueues[v].index != worker && workerQueues[v].jobs != [] {
          var job := workerQueues[v].jobs[0];
          BagOfUpdate(workerQueues, v, workerQueues[v].jobs[1..]);
          FrontOf(workerQueues[v].jobs);
          workerQueues := workerQueues[v := workerQueues[v].(jobs := workerQueues[v].jobs[1..])];
          assert StolenAt(old(workerQueues), worker, old(nextEnqueueWorker), offset, job, workerQueues);
          return Some(job);
        }
        offset := offset + 1;
      }
      ScanCovers(workerQueues, worker, start);
      return None;
    }

    /** One job from the front of the worker's own queue; None only if it is empty. */
    method PopOwnJob(worker: Id) returns (r: Option<Job>)
      requires Distinct(workerQueues) && worker in Indices(workerQueues)
      modifies this`workerQueues
      ensures Indices(workerQueues) == Indices(old(workerQueues)) && Distinct(workerQueues)
      ensures r.Some? ==> LocalBag(old(workerQueues)) == LocalBag(workerQueues) + multiset{r.value}
      ensures r.Some? ==> TookOwn(old(workerQueues), worker, r.value, workerQueues)
      ensures r.None? ==> workerQueues == old(workerQueues) && OwnEmpty(workerQueues, worker)
    {
      hide LocalBag;
      var i := PositionOf(worker);
      var own := workerQueues[i].jobs;
      if own == [] {
        return None;
      }
      BagOfUpdate(workerQueues, i, own[1..]);
      FrontOf(own);
      workerQueues := workerQueues[i := workerQueues[i].(jobs := own[1..])];
      assert FrontTaken(old(workerQueues), i, own[0], workerQueues);
      return Some(own[0]);
    }

    /** The local half of taking a job: the worker's own queue first, then the others'. */
    method TakeLocally(worker: Id) returns (r: Option<Job>)
      requires nextEnqueueWorker >= 0 && Distinct(workerQueues) && worker in Indices(workerQueues)
      modifies this`workerQueues, this`nextEnqueueWorker
      ensures nextEnqueueWorker ==
          old(nextEnqueueWorker) + Bit(OwnEmpty(old(workerQueues), worker) && |old(workerQueues)| > 1)
      ensures r.Some? ==>
        || TookOwn(old(workerQueues), worker, r.value, workerQueues)
        || (OwnEmpty(old(workerQueues), worker)
            && Stole(old(workerQueues), worker, old(nextEnqueueWorker), r.value, workerQueues))
      ensures r.None? ==> workerQueues == old(workerQueues) && LocalBag(workerQueues) == multiset{}
    {
      hide LocalBag, Indices, Distinct;
      r := PopOwnJob(worker);
      if r.None? {
        r := TryStealJob(worker);
        if r.None? {
          assert AllEmpty(workerQueues);
          BagEmpty(workerQueues);
        }
      }
    }

    /** The global half: the job that has waited longest in the global queue. */
    method TakeGlobally() returns (r: Option<Job>)
      modifies this`queue
      ensures r.Some? ==> GlobalFront(old(queue), r.value, queue)
      ensures r.None? ==> queue == old(queue) == []
    {
      if queue == [] {
        return None;
      }
      r := Some(queue[0]);
      queue := queue[1..];
    }

    /** Taking a job: own queue first, then stealing, then the front of the global queue. One waiting job is taken,
        and None is returned only when no job waits anywhere. */
    method TryTakeQueuedJob(worker: Id) returns (r: Option<Job>)
      requires nextEnqueueWorker >= 0 && Distinct(workerQueues) && worker in Indices(workerQueues)
      requires queueCapacity.None? ==> LocalBag(workerQueues) == multiset{}
      modifies this`queue, this`workerQueues, this`nextEnqueueWorker, this`queuedTasks, this`runningTasks
      ensures nextEnqueueWorker >= 0
      ensures Indices(workerQueues) == Indices(old(workerQueues)) && Distinct(workerQueues)
      ensures queueCapacity.None? ==> LocalBag(workerQueues) == multiset{}
      ensures r.Some? ==> old(Pending()) == Pending() + multiset{r.value}
      ensures r.Some? ==> queuedTasks == old(queuedTasks) - 1 && runningTasks == old(runningTasks) + 1
      ensures r.Some? ==>
          TookInOrder(old(queue), old(workerQueues), worker, old(nextEnqueueWorker), r.value, queue, workerQueues)
      ensures nextEnqueueWorker == old(nextEnqueueWorker) +
          Bit(queueCapacity.Some? && OwnEmpty(old(workerQueues), worker) && |old(workerQueues)| > 1)
      ensures queueCapacity.None? ==> workerQueues == old(workerQueues)
      ensures r.None? ==> Pending() == multiset{} && queue == old(queue) && workerQueues == old(workerQueues)
      ensures r.None? ==> queuedTasks == old(queuedTasks) && runningTasks == old(runningTasks)
    {
      hide LocalBag, Indices, Distinct, TookOwn, Stole, OwnEmpty, TookNext, GlobalFront;
      ghost var queue0, queues0 := queue, workerQueues;
      if queueCapacity.Some? {
        r := TakeLocally(worker);
      } else {
        r := None;
      }
      if r.None? {
        r := TakeGlobally();
      }
      if r.Some? {
        queuedTasks := queuedTasks - 1;
        runningTasks := runningTasks + 1;
        InOrderIsNext(queue0, queues0, worker, old(nextEnqueueWorker), r.value, queue, workerQueues);
        NextLeavesBag(queue0, queues0, worker, r.value, queue, workerQueues);
      }
    }

    // ---------------------------------------------------------------- spawning and leaving

    /** Spawning: on failure the registration and the live count are rolled back, and the running count is decremented
        whenever it is positive, whether or not the worker was to carry a job. */
    method SpawnWorker(first: Option<Job>, spawns: bool) returns (ok: bool)
      requires Distinct(workerQueues) && nextWorkerIndex !in Indices(workerQueues) && runningTasks >= 0
      modifies this`nextWorkerIndex, this`liveWorkers, this`runningTasks, this`workerQueues
      ensures ok == spawns && nextWorkerIndex == old(nextWorkerIndex) + 1
      ensures ok ==>
          liveWorkers == old(liveWorkers) + 1 && runningTasks == old(runningTasks) + if first.Some? then 1 else 0
      ensures ok ==> workerQueues == old(workerQueues) + [WorkerQueue(old(nextWorkerIndex), [])]
      ensures !ok ==> liveWorkers == old(liveWorkers) && workerQueues == old(workerQueues)
      ensures !ok ==> runningTasks == if first.None? && old(runningTasks) > 0 then old(runningTasks) - 1
                                      else old(runningTasks)
    {
      hide LocalBag;
      var index := nextWorkerIndex;
      nextWorkerIndex := nextWorkerIndex + 1;
      liveWorkers := liveWorkers + 1;
      if first.Some? {
        runningTasks := runningTasks + 1;
      }
      BagOfAppend(workerQueues, index);
      workerQueues := workerQueues + [WorkerQueue(index, [])];
      if spawns {
        return true;
      }
      var dropped := RemoveWorkerQueue(index);
      liveWorkers := liveWorkers - 1;
      if runningTasks > 0 {
        runningTasks := runningTasks - 1;
      }
      return false;
    }

    /** Leaving: the worker's leftover jobs move to the global queue, so no waiting job is lost. */
    method UnregisterExitingWorker(worker: Id)
      requires Distinct(workerQueues)
      modifies this`queue, this`workerQueues, this`liveWorkers
      ensures Distinct(workerQueues) && Indices(workerQueues) == Indices(old(workerQueues)) - {worker}
      ensures Pending() == old(Pending()) && liveWorkers == old(liveWorkers) - 1
      ensures LocalBag(workerQueues) <= LocalBag(old(workerQueues))
      ensures worker in Indices(old(workerQueues)) ==>
                exists i :: RemovedAt(old(workerQueues), i, worker, workerQueues)
                            && queue == old(queue) + old(workerQueues)[i].jobs
    {
      hide LocalBag;
      var requeued := RemoveWorkerQueue(worker);
      queue := queue + requeued;
      liveWorkers := liveWorkers - 1;
    }

    // ---------------------------------------------------------------- critical sections: submission

    /** Everything a caller can see is as before, except that a worker index may have been used up. */
    twostate predicate OnlyIndexMoved()
      reads this
    {
      && lifecycle == old(lifecycle) && queue == old(queue) && workerQueues == old(workerQueues)
      && Counters() == old(Counters()) && spec == old(spec) && nextEnqueueWorker == old(nextEnqueueWorker)
      && corePoolSize == old(corePoolSize) && maximumPoolSize == old(maximumPoolSize)
      && queueCapacity == old(queueCapacity) && allowCoreThreadTimeout == old(allowCoreThreadTimeout)
    }

    /** Where an accepted job is queued when live workers are there to fetch it: in a bounded pool without idle
        workers at the back of the queue under the cursor, which moves on, and otherwise at the back of the global
        queue. */
    twostate predicate PlacedRoundRobin(job: Job)
      reads this
    {
      if queueCapacity.Some? && old(idleWorkers) == 0 then
        && old(workerQueues) != [] && queue == old(queue) && nextEnqueueWorker == old(nextEnqueueWorker) + 1
        && AtBack(old(workerQueues), old(nextEnqueueWorker) % |old(workerQueues)|, job, workerQueues)
      else
        queue == old(queue) + [job] && workerQueues == old(workerQueues) && nextEnqueueWorker == old(nextEnqueueWorker)
    }

    method SubmitToNewWorker(job: Job, spawns: bool) returns (r: SubmitResult)
      requires Valid() && job !in spec.tasks && lifecycle == Running
      requires liveWorkers < corePoolSize || (IsSaturated() && liveWorkers < maximumPoolSize)
      modifies this
      ensures Valid()
      ensures r == if spawns then Accepted else RejectedSpawnFailed
      ensures Did(if spawns then Does(ESubmitSpawn(job, old(nextWorkerIndex))) else SkipsIndex)
      ensures spawns ==> submittedTasks == old(submittedTasks) + 1 && liveWorkers == old(liveWorkers) + 1
      ensures !spawns ==> OnlyIndexMoved()
      ensures spec.waits == old(spec).waits
    {
      hide Good, CodeStep, Indices, Distinct, LocalBag;
      FreshIndex(Now());
      RunningCountKnown(Now());
      ghost var next := NewWorkerEvent(Now(), job);
      var ok := SpawnWorker(Some(job), spawns);
      if !ok {
        return RejectedSpawnFailed;
      }
      submittedTasks := submittedTasks + 1;
      spec := next.spec;
      assert Now() == next;
      return Accepted;
    }

    /** The queue branch of `submit`, without a live worker: the job is queued and a worker is spawned to fetch it. */
    method SubmitToEmptyPool(job: Job, spawns: bool) returns (r: SubmitResult)
      requires Valid() && job !in spec.tasks && lifecycle == Running
      requires liveWorkers == 0 && corePoolSize == 0 && !IsSaturated()
      modifies this
      ensures Valid()
      ensures r == if spawns then Accepted else RejectedSpawnFailed
      ensures Did(if spawns then Does(ESubmitQueueSpawn(job, old(nextWorkerIndex))) else SkipsIndex)
      ensures spawns ==> submittedTasks == old(submittedTasks) + 1 && liveWorkers == old(liveWorkers) + 1
      ensures !spawns ==> OnlyIndexMoved()
      ensures spec.waits == old(spec).waits
    {
      hide Good, CodeStep, Indices, Distinct, LocalBag;
      FreshIndex(Now());
      ghost var next := EmptyPoolEvent(Now(), job);
      submittedTasks, queuedTasks, queue := submittedTasks + 1, queuedTasks + 1, queue + [job];
      var ok := SpawnWorker(None, spawns);
      if !ok {
        submittedTasks, queuedTasks, queue := submittedTasks - 1, queuedTasks - 1, queue[..|queue| - 1];
        return RejectedSpawnFailed;
      }
      spec := next.spec;
      assert Now() == next;
      return Accepted;
    }

    /** The queue branch of `submit`, with live workers: the job goes to a local queue exactly in a bounded pool without
        idle workers, and one idle worker is owed a wake-up. */
    method SubmitToBusyPool(job: Job) returns (owes: bool)
      requires Valid() && job !in spec.tasks && lifecycle == Running
      requires liveWorkers >= corePoolSize && liveWorkers > 0 && !IsSaturated()
      modifies this
      ensures Valid() && owes == (old(idleWorkers) > 0)
      ensures Did(Does(ESubmitQueue(job))) && PlacedRoundRobin(job)
      ensures submittedTasks == old(submittedTasks) + 1 && queuedTasks == old(queuedTasks) + 1
      ensures spec.waits.owed == old(spec).waits.owed + Bit(owes)
    {
      hide Good, CodeStep, Indices, Distinct, LocalBag;
      ghost var before := Now();
      LiveIsRegistered(before);
      owes := idleWorkers > 0;
      submittedTasks, queuedTasks := submittedTasks + 1, queuedTasks + 1;
      var taken := false;
      if queueCapacity.Some? && idleWorkers == 0 && liveWorkers > 0 {
        taken := TryEnqueueWorkerJob(job);
      }
      if !taken {
        queue := queue + [job];
      }
      ghost var next := BusyPoolEvent(before, job, Now().rec);
      spec := next.spec;
      assert Now() == next;
    }

    /** The states in which `submit` has to spawn: below the core size, without workers, or at capacity below the
        maximum. */
    ghost predicate NeedsSpawn()
      reads this
    {
      && lifecycle == Running
      && (|| liveWorkers < corePoolSize
          || (!IsSaturated() && liveWorkers == 0)
          || (IsSaturated() && liveWorkers < maximumPoolSize))
    }

    /** `submit`: staged admission. A rejected submission changes nothing but the next worker index. */
    method Submit(job: Job, spawns: bool) returns (r: SubmitResult, owes: bool)
      requires Valid() && job !in spec.tasks
      modifies this
      ensures Valid()
      ensures r == RejectedShutdown <==> old(lifecycle) != Running
      ensures r == RejectedSaturated <==>
          old(lifecycle == Running && liveWorkers >= corePoolSize && liveWorkers >= maximumPoolSize
              && queueCapacity.Some? && queuedTasks == queueCapacity.value)
      ensures r == RejectedSpawnFailed <==> !spawns && old(NeedsSpawn())
      ensures r != Accepted ==> OnlyIndexMoved() && !owes
      ensures r == RejectedShutdown || r == RejectedSaturated ==> nextWorkerIndex == old(nextWorkerIndex)
      ensures r == RejectedSpawnFailed ==> Did(SkipsIndex)
      ensures owes <==> r == Accepted && !old(NeedsSpawn()) && old(idleWorkers) > 0
      ensures r == Accepted && !old(NeedsSpawn()) ==> Did(Does(ESubmitQueue(job))) && PlacedRoundRobin(job)
      ensures r == Accepted ==> submittedTasks == old(submittedTasks) + 1
      ensures r == Accepted && old(NeedsSpawn()) ==>
                Did(Does(if old(liveWorkers < corePoolSize || IsSaturated())
                         then ESubmitSpawn(job, old(nextWorkerIndex))
                         else ESubmitQueueSpawn(job, old(nextWorkerIndex))))
      ensures r == Accepted ==> spec.waits.owed == old(spec).waits.owed + Bit(owes)
    {
      hide Good, CodeStep;
      RunningCountKnown(Now());
      owes := false;
      if lifecycle != Running {
        return RejectedShutdown, false;
      }
      if liveWorkers < corePoolSize {
        r := SubmitToNewWorker(job, spawns);
        return;
      }
      if !(queueCapacity.Some? && queuedTasks >= queueCapacity.value) {
        if liveWorkers == 0 {
          r := SubmitToEmptyPool(job, spawns);
        } else {
          owes := SubmitToBusyPool(job);
          r := Accepted;
        }
        return;
      }
      if liveWorkers < maximumPoolSize {
        r := SubmitToNewWorker(job, spawns);
        return;
      }
      return RejectedSaturated, false;
    }

    /** `prestart_core_thread`. A failed spawn keeps the pool consistent exactly when no job is running. */
    method PrestartCoreThread(spawns: bool) returns (r: PrestartResult)
      requires Valid()
      modifies this
      ensures r == if old(lifecycle) != Running then PrestartShutdown
                   else if old(liveWorkers >= corePoolSize) then NotNeeded
                   else if spawns then Started else PrestartSpawnFailed
      ensures r == Started ==>
          Valid() && Did(Does(EPrestart(old(nextWorkerIndex)))) && liveWorkers == old(liveWorkers) + 1
      ensures r == PrestartShutdown || r == NotNeeded ==>
                Valid() && OnlyIndexMoved() && nextWorkerIndex == old(nextWorkerIndex)
      ensures r == PrestartSpawnFailed ==> Did(FailsPrestart) && (Valid() <==> old(runningTasks) == 0)
      ensures r == PrestartSpawnFailed && old(runningTasks) == 0 ==> OnlyIndexMoved()
    {
      hide Good, CodeStep, Indices, Distinct, LocalBag;
      if lifecycle != Running {
        return PrestartShutdown;
      }
      if liveWorkers >= corePoolSize {
        return NotNeeded;
      }
      FreshIndex(Now());
      ghost var failed := FailedPrestart(Now());
      ghost var next := PrestartEvent(Now());
      var ok := SpawnWorker(None, spawns);
      if !ok {
        assert Now() == failed;
        return PrestartSpawnFailed;
      }
      spec := next.spec;
      assert Now() == next;
      return Started;
    }

    // ---------------------------------------------------------------- critical sections: workers

    /** One attempt of a worker to get a job. */
    method TakeForWorker(worker: Id) returns (r: Option<Job>)
      requires Good(BeforeWaking(worker)) && Settings() && Looks(spec, worker) && lifecycle != Stopping
      modifies this
      ensures Settings()
      ensures r.Some? ==> Good(Now()) && CodeStep(old(BeforeWaking(worker)), Does(ETake(worker, r.value)), Now())
      ensures r.Some? <==> old(queuedTasks) > 0
      ensures r.Some? ==>
          TookInOrder(old(queue), old(workerQueues), worker, old(nextEnqueueWorker), r.value, queue, workerQueues)
      ensures r.None? ==> QueuedCount(spec) == 0 && BeforeWaking(worker) == old(BeforeWaking(worker))
      ensures r.None? ==> lifecycle == old(lifecycle) && maximumPoolSize == old(maximumPoolSize)
    {
      hide Good, Step, CodeStep, Indices, Distinct, LocalBag, TookInOrder, TookNext, WasWoken;
      ghost var before := BeforeWaking(worker);
      LookingWorker(before, worker);
      r := TryTakeQueuedJob(worker);
      if r.Some? {
        InOrderIsNext(before.rec.queue, before.rec.queues, worker, old(nextEnqueueWorker), r.value, queue,
            workerQueues);
        ghost var next := TakeEvent(before, worker, r.value, Now().rec);
        spec := next.spec;
        assert Now() == next;
        RunningCountKnown(Now());
      } else {
        NothingPending(before);
        RunningCountKnown(before);
      }
    }

    /** A worker signs off. */
    method Leave(worker: Id)
      requires Good(BeforeWaking(worker)) && Settings() && Looks(spec, worker) && MayExit(spec, worker)
      modifies this
      ensures Valid() && CodeStep(old(BeforeWaking(worker)), Does(EExit(worker)), Now())
      ensures liveWorkers == old(liveWorkers) - 1
    {
      hide Good, Step, CodeStep, Indices, Distinct, LocalBag, WasWoken, MayExit;
      ghost var before := BeforeWaking(worker);
      LookingWorker(before, worker);
      UnregisterExitingWorker(worker);
      ghost var i :| RemovedAt(before.rec.queues, i, worker, workerQueues)
                     && queue == before.rec.queue + before.rec.queues[i].jobs;
      assert Unregistered(before.rec, worker, i, Now().rec);
      ghost var next := ExitEvent(before, worker, Now().rec);
      spec := next.spec;
      assert Now() == next;
    }

    method WorkerWaitIsTimed() returns (timed: bool)
      ensures timed == (allowCoreThreadTimeout || liveWorkers > corePoolSize)
    {
      timed := allowCoreThreadTimeout || liveWorkers > corePoolSize;
    }

    method IdleWorkerCanRetire() returns (may: bool)
      ensures may == (liveWorkers > maximumPoolSize || allowCoreThreadTimeout || liveWorkers > corePoolSize)
    {
      var timed := WorkerWaitIsTimed();
      may := liveWorkers > maximumPoolSize || (timed && (liveWorkers > corePoolSize || allowCoreThreadTimeout));
    }

    /** Going to sleep on the condition variable. */
    method ParkWorker(worker: Id) returns (timed: bool)
      requires Good(BeforeWaking(worker)) && Settings() && Looks(spec, worker)
      requires lifecycle == Running && QueuedCount(spec) == 0
      requires liveWorkers <= maximumPoolSize && !(TimedOut(spec, worker) && CanRetire(spec))
      modifies this
      ensures Valid() && CodeStep(old(BeforeWaking(worker)), Does(EPark(worker)), Now())
      ensures timed == WaitIsTimed(old(spec)) == old(allowCoreThreadTimeout || liveWorkers > corePoolSize)
      ensures worker in spec.workers && spec.workers[worker] == Parked(timed)
    {
      hide Good, Step, CodeStep, LocalBag, WasWoken, CanRetire;
      RunningCountKnown(BeforeWaking(worker));
      ghost var next := ParkEvent(BeforeWaking(worker), worker);
      timed := WorkerWaitIsTimed();
      idleWorkers := idleWorkers + 1;
      spec := next.spec;
      assert Now() == next;
    }

    /** The pass follows a wait that timed out, nothing is queued, and the pool can spare the worker. */
    ghost predicate Retires(woken: Option<bool>)
      reads this
    {
      && woken == Some(true) && queuedTasks == 0
      && (liveWorkers > maximumPoolSize || liveWorkers > corePoolSize || allowCoreThreadTimeout)
    }

    /** One pass of `wait_for_job`, from taking the monitor to a job, to the exit or to the next wait. `woken` tells
        whether the pass follows a wait, and if so whether that wait timed out. */
    method WaitForJob(worker: Id, woken: Option<bool>) returns (r: LookResult)
      requires Valid() && worker in spec.workers
      requires spec.workers[worker] == if woken.Some? then Woken(woken.value) else Looking
      modifies this
      ensures Valid()
      ensures r.GotJob? <==> old(lifecycle != Stopping && queuedTasks > 0)
      ensures r.MustExit? <==>
          old(Retires(woken) || lifecycle == Stopping
              || (queuedTasks == 0 && (lifecycle == Shutdown || liveWorkers > maximumPoolSize)))
      ensures r.MustPark? <==>
          old(lifecycle == Running && queuedTasks == 0 && liveWorkers <= maximumPoolSize && !Retires(woken))
      ensures r.GotJob? ==>
          TookInOrder(old(queue), old(workerQueues), worker, old(nextEnqueueWorker), r.job, queue, workerQueues)
      ensures r.MustPark? ==>
          && worker in spec.workers
          && spec.workers[worker] == Parked(old(allowCoreThreadTimeout || liveWorkers > corePoolSize))
      ensures r.MustExit? ==> liveWorkers == old(liveWorkers) - 1
      ensures r.GotJob? ==> Did(Does(ETake(worker, r.job)))
      ensures r.MustExit? ==> Did(Does(EExit(worker)))
      ensures r.MustPark? ==> Did(Does(EPark(worker)))
    {
      hide Good, CodeStep, QueuedCount;
      RunningCountKnown(Now());
      ghost var before := Now();
      if woken.Some? {
        idleWorkers := idleWorkers - 1;
        assert BeforeWaking(worker) == before;
        var may := IdleWorkerCanRetire();
        if woken.value && queuedTasks == 0 && may {
          Leave(worker);
          return MustExit;
        }
      }
      assert BeforeWaking(worker) == before;
      if lifecycle == Stopping {
        Leave(worker);
        return MustExit;
      }
      var job := TakeForWorker(worker);
      if job.Some? {
        return GotJob(job.value);
      }
      if lifecycle == Shutdown || (liveWorkers > maximumPoolSize && liveWorkers > 0) {
        Leave(worker);
        return MustExit;
      }
      var timed := ParkWorker(worker);
      return MustPark;
    }

    /** `finish_running_job`; the checked subtraction does not underflow. */
    method FinishRunningJob(worker: Id)
      requires Valid() && worker in spec.workers && spec.workers[worker].Back?
      modifies this
      ensures Valid() && Did(Does(EFinish(worker))) && old(runningTasks) > 0
      ensures runningTasks == old(runningTasks) - 1 && completedTasks == old(completedTasks) + 1
    {
      hide Good, CodeStep;
      ghost var next := FinishEvent(Now(), worker);
      runningTasks := runningTasks - 1;
      completedTasks := completedTasks + 1;
      spec := next.spec;
      assert Now() == next;
    }

    // ---------------------------------------------------------------- between critical sections

    /** Callbacks run, handles are cancelled, notifications arrive and waits end: none of it touches the locked
        record. */
    ghost method Elsewhere(e: Event, s': Pool)
      requires Valid() && Step(spec, e, s') && IsElsewhere(e)
      modifies this`spec
      ensures Valid() && spec == s' && Did(Does(e))
    {
      hide Good, Step, CodeStep;
      ElsewhereEvent(Now(), e, s');
      spec := s';
    }

    // ---------------------------------------------------------------- critical sections: lifecycle

    /** A pool from a validated configuration. */
    constructor (core: int, max: int, capacity: Option<int>, allow: bool)
      requires 0 <= core <= max && 1 <= max && (capacity.Some? ==> capacity.value >= 1)
      ensures Valid() && Init(spec) && Now().rec == Record(NoCounts, [], [], 0)
      ensures spec.cfg == Config(core, max, capacity, allow)
    {
      lifecycle := Running;
      queue := [];
      workerQueues := [];
      queueCapacity := capacity;
      queuedTasks, runningTasks, liveWorkers, idleWorkers := 0, 0, 0, 0;
      submittedTasks, completedTasks, cancelledTasks := 0, 0, 0;
      corePoolSize, maximumPoolSize, allowCoreThreadTimeout := core, max, allow;
      nextWorkerIndex, nextEnqueueWorker := 0, 0;
      spec := Pool(Running, Config(core, max, capacity, allow), map[], map[], Waits(0, 0, 0));
      new;
      InitKeeps(spec);
      EmptyAgrees(spec);
    }

    /** `shutdown`. */
    method ShutDown()
      requires Valid()
      modifies this
      ensures Valid() && Did(Does(EShutdown))
      ensures lifecycle == if old(lifecycle) == Running then Shutdown else old(lifecycle)
    {
      hide Good, CodeStep;
      ghost var next := ShutdownEvent(Now());
      if lifecycle == Running {
        lifecycle := Shutdown;
      }
      spec := next.spec;
      assert Now() == next;
    }

    /** Empties every local queue and hands back all their jobs. */
    method DrainAllWorkerQueuedJobs() returns (jobs: seq<Job>)
      modifies this`workerQueues
      ensures DrainedOf(jobs, old(workerQueues), workerQueues)
    {
      hide LocalBag, Indices, Distinct;
      jobs := [];
      var i := 0;
      while i < |workerQueues|
        invariant 0 <= i <= |workerQueues| == |old(workerQueues)|
        invariant multiset(jobs) + LocalBag(workerQueues) == LocalBag(old(workerQueues))
        invariant forall k :: 0 <= k < i ==> workerQueues[k] == WorkerQueue(old(workerQueues)[k].index, [])
        invariant forall k :: i <= k < |workerQueues| ==> workerQueues[k] == old(workerQueues)[k]
      {
        BagOfUpdate(workerQueues, i, []);
        jobs := jobs + workerQueues[i].jobs;
        workerQueues := workerQueues[i := workerQueues[i].(jobs := [])];
        i := i + 1;
      }
      BagEmpty(workerQueues);
    }

    /** `shutdown_now`, up to the release of the monitor: hands back every waiting job, exactly once, to be cancelled by
        call `c`, and reports how many there are. */
    method ShutDownNow(c: Id) returns (jobs: seq<Job>, report: ShutdownReport)
      requires Valid()
      modifies this
      ensures Valid() && Did(Does(EShutdownNow(c)))
      ensures lifecycle == Stopping && queue == [] && queuedTasks == 0
      ensures cancelledTasks == old(cancelledTasks) + |jobs|
      ensures HandedOut(jobs, old(spec), c, spec)
      ensures report == ShutdownReport(|jobs|, old(runningTasks), |jobs|)
    {
      hide Good, CodeStep, DrainedOf, HandedOut;
      ghost var before := Now();
      lifecycle := Stopping;
      var queued := queuedTasks;
      var running := runningTasks;
      var local := DrainAllWorkerQueuedJobs();
      jobs := queue + local;
      queue, queuedTasks, cancelledTasks := [], 0, cancelledTasks + queued;
      ghost var next := DrainEvent(before, c, local, workerQueues);
      spec := next.spec;
      assert Now() == next;
      report := ShutdownReport(queued, running, queued);
    }

    /** `is_terminated`. */
    method IsTerminated() returns (yes: bool)
      requires Valid()
      ensures yes <==> Terminated(spec)
    {
      hide Good;
      RunningCountKnown(Now());
      yes := lifecycle != Running && queuedTasks == 0 && runningTasks == 0 && liveWorkers == 0;
    }

    // ---------------------------------------------------------------- critical sections: resizing

    method Reconfigure(core: int, max: int, allow: bool)
      requires Valid() && 0 <= core <= max && 1 <= max
      modifies this
      ensures Valid() && Did(Does(EResize(core, max, allow)))
      ensures corePoolSize == core && maximumPoolSize == max && allowCoreThreadTimeout == allow
    {
      hide Good, CodeStep;
      ghost var next := ResizeEvent(Now(), core, max, allow);
      corePoolSize, maximumPoolSize, allowCoreThreadTimeout := core, max, allow;
      spec := next.spec;
      assert Now() == next;
    }

    /** `set_core_pool_size`: refused above the current maximum. */
    method SetCorePoolSize(core: int) returns (ok: bool)
      requires Valid() && core >= 0
      modifies this
      ensures Valid() && ok == (core <= old(maximumPoolSize))
      ensures ok ==> Did(Does(EResize(core, old(maximumPoolSize), old(allowCoreThreadTimeout)))) && corePoolSize == core
      ensures maximumPoolSize == old(maximumPoolSize) && allowCoreThreadTimeout == old(allowCoreThreadTimeout)
      ensures !ok ==> OnlyIndexMoved() && nextWorkerIndex == old(nextWorkerIndex)
    {
      hide Good, CodeStep;
      RunningCountKnown(Now());
      if core > maximumPoolSize {
        return false;
      }
      Reconfigure(core, maximumPoolSize, allowCoreThreadTimeout);
      return true;
    }

    /** `set_maximum_pool_size`: refused for zero and below the current core size. */
    method SetMaximumPoolSize(max: int) returns (ok: bool)
      requires Valid() && max >= 0
      modifies this
      ensures Valid() && ok == (max != 0 && old(corePoolSize) <= max)
      ensures ok ==> Did(Does(EResize(old(corePoolSize), max, old(allowCoreThreadTimeout)))) && maximumPoolSize == max
      ensures corePoolSize == old(corePoolSize) && allowCoreThreadTimeout == old(allowCoreThreadTimeout)
      ensures !ok ==> OnlyIndexMoved() && nextWorkerIndex == old(nextWorkerIndex)
    {
      hide Good, CodeStep;
      RunningCountKnown(Now());
      if max == 0 || corePoolSize > max {
        return false;
      }
      Reconfigure(corePoolSize, max, allowCoreThreadTimeout);
      return true;
    }

    /** `allow_core_thread_timeout`. */
    method AllowCoreThreadTimeout(allow: bool)
      requires Valid()
      modifies this
      ensures Valid() && Did(Does(EResize(old(corePoolSize), old(maximumPoolSize), allow)))
      ensures corePoolSize == old(corePoolSize) && maximumPoolSize == old(maximumPoolSize)
      ensures allowCoreThreadTimeout == allow
    {
      hide Good, CodeStep;
      RunningCountKnown(Now());
      Reconfigure(corePoolSize, maximumPoolSize, allow);
    }
  }
}
