// Two lives of a pool through its own methods: a worker that runs a job, times out and retires, and a prestart that
// fails at the wrong moment.

module ThreadPoolScenarios {
  import opened Counting
  import opened Lifecycles
  import opened Completion
  import opened PoolSpec
  import opened ThreadPoolRecord
  import opened ThreadPoolRuns
  import opened ThreadPoolEvents
  import opened ThreadPool

  /** A prestart that fails while a job runs below the core size leaves a pool whose counters are wrong. */
  method MiscountingPool() returns (pool: ThreadPoolInner)
    ensures fresh(pool) && !pool.Valid()
  {
    hide Good, Count;
    pool := new ThreadPoolInner(2, 2, None, false);
    var r, owes := pool.Submit(7, true);
    assert pool.runningTasks == 1 && pool.liveWorkers == 1 && pool.corePoolSize == 2;
    var p := pool.PrestartCoreThread(false);
  }

  /** A worker runs the job it holds, unless it was cancelled, and reports it as finished. */
  method RunHeldJob(pool: ThreadPoolInner, w: Id, j: Job, r: Outcome)
    requires pool.Valid() && pool.lifecycle == Running && r != Cancelled
    requires w in pool.spec.workers && pool.spec.workers[w] == Holding(j)
    requires j in pool.spec.tasks && pool.spec.tasks[j] == NewTask(Carried(w))
    modifies pool
    ensures pool.Valid() && pool.lifecycle == Running && pool.spec.cfg == old(pool.spec.cfg)
    ensures pool.spec.workers == old(pool.spec.workers)[w := Looking]
    ensures pool.spec.tasks == old(pool.spec.tasks)[j := Task(Finished, Cell(true, true, [r]), 1, Some(r))]
    ensures pool.Counters() == old(pool.Counters().(running := pool.runningTasks - 1,
        completed := pool.completedTasks + 1))
  {
    hide Good, Count, QueuesMove;
    ghost var s := pool.spec;
    ghost var started := s.tasks[j].(cell := Cell(true, false, []), invoked := 1);
    ghost var s1 := s.(tasks := s.tasks[j := started], workers := s.workers[w := Calling(j)]);
    assert Step(s, ERunStart(w), s1);
    ghost var done := started.(cell := Complete(started.cell, r).1, own := Some(r));
    ghost var s2 := s1.(tasks := s1.tasks[j := done], workers := s1.workers[w := Back(j)]);
    assert Step(s1, ERunEnd(w, r), s2);
    assert done.cell == Cell(true, true, [r]);
    hide Step;
    pool.Elsewhere(ERunStart(w), s1);
    pool.Elsewhere(ERunEnd(w, r), s2);
    pool.FinishRunningJob(w);
    FinishWhileRunning(s2, w, pool.spec);
  }

  lemma FinishWhileRunning(s: Pool, w: Id, s': Pool)
    requires Step(s, EFinish(w), s') && s.life == Running
    ensures var j := s.workers[w].job;
      s' == s.(tasks := s.tasks[j := s.tasks[j].(place := Finished)], workers := s.workers[w := Looking])
  {
    hide Count;
  }

  lemma ExitWhileRunning(s: Pool, w: Id, s': Pool)
    requires Step(s, EExit(w), s') && s.life == Running
    ensures s' == s.(workers := s.workers[w := Exited])
  {
    hide Count;
  }

  /** A worker of a pool in which core workers time out finds nothing to do, waits in vain and retires. */
  method RetireIdleWorker(pool: ThreadPoolInner, w: Id)
    requires pool.Valid() && pool.lifecycle == Running && pool.allowCoreThreadTimeout
    requires w in pool.spec.workers && pool.spec.workers[w] == Looking
    requires pool.queuedTasks == 0 && pool.liveWorkers <= pool.maximumPoolSize
    modifies pool
    ensures pool.Valid() && pool.lifecycle == Running && pool.spec.cfg == old(pool.spec.cfg)
    ensures pool.spec.workers == old(pool.spec.workers)[w := Exited] && pool.spec.tasks == old(pool.spec.tasks)
    ensures pool.Counters() == old(pool.Counters().(live := pool.liveWorkers - 1))
  {
    hide Good, Count, QueuesMove;
    RunningCountKnown(pool.Now());
    var look := pool.WaitForJob(w, None);
    ghost var s := pool.spec;
    NothingQueued(old(pool.spec));
    assert look == MustPark;
    ghost var s' := s.(workers := s.workers[w := Woken(true)]);
    assert Step(s, EWake(w, true), s');
    pool.Elsewhere(EWake(w, true), s');
    look := pool.WaitForJob(w, Some(true));
    assert look == MustExit;
    ExitWhileRunning(s', w, pool.spec);
  }

  lemma NothingQueued(s: Pool)
    requires QueuedCount(s) == 0
    ensures forall j :: j in s.tasks ==> !s.tasks[j].place.Queued?
  {
    CountZero(s.tasks, IsQueued);
  }

  /** A whole life: one job is submitted, run and reported, and its worker retires. Only the books remember it. */
  method RetiringPool() returns (pool: ThreadPoolInner)
    ensures fresh(pool) && pool.Valid() && pool.Counters() == Tally(0, 0, 0, 0, 1, 1, 0)
    ensures pool.spec.workers == map[0 := Exited]
    ensures pool.spec.tasks == map[7 := Task(Finished, Cell(true, true, [Value(1)]), 1, Some(Value(1)))]
  {
    hide Good, Count, QueuesMove;
    pool := new ThreadPoolInner(1, 1, None, true);
    var r, owes := pool.Submit(7, true);
    hide Step, CodeStep;
    RunHeldJob(pool, 0, 7, Value(1));
    RetireIdleWorker(pool, 0);
  }
}
