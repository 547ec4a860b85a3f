// What every event of the dynamic pool keeps.

module PoolInvariant {
  import opened Counting
  import opened Lifecycles
  import opened Completion
  import opened PoolSpec

  // ---------------------------------------------------------------- the invariant

  /** The cell of a task and the history of its callable agree. */
  ghost predicate CellOk(t: Task) {
    Honest(t.cell, t.invoked, t.own)
  }

  /** The cell is as far as the place of the job says. */
  ghost predicate TaskOk(workers: map<Id, Phase>, j: Job, t: Task) {
    && CellOk(t)
    && (t.place.Queued? || t.place.Draining? || t.place.Dropped? ==> !t.cell.started)
    && (t.place.Finished? || t.place.Dropped? ==> t.cell.completed)
    && (t.place.Carried? ==> t.place.w in workers && CarriedBy(workers[t.place.w], j, t.cell))
  }

  predicate CarriedBy(p: Phase, j: Job, c: Cell) {
    match p
    case Holding(k) => k == j && !c.started
    case Calling(k) => k == j && c.started && !c.completed
    case Back(k) => k == j && c.completed
    case _ => false
  }

  ghost predicate TasksOk(s: Pool) {
    forall j :: j in s.tasks ==> TaskOk(s.workers, j, s.tasks[j])
  }

  ghost predicate WorkersOk(s: Pool) {
    forall w :: w in s.workers && HasJob(s.workers[w]) ==>
      s.workers[w].job in s.tasks && s.tasks[s.workers[w].job].place == Carried(w)
  }

  ghost predicate SizesOk(s: Pool) {
    && 0 <= s.cfg.core <= s.cfg.max && 1 <= s.cfg.max
    && (s.cfg.capacity.Some? ==> QueuedCount(s) <= s.cfg.capacity.value)
    && RunningCount(s) == Count(s.workers, HasJob)
    && s.waits.owed >= 0 && s.waits.termParked >= 0 && s.waits.termWoken >= 0
  }

  /** Work in the queue always has a live worker, and an abrupt stop leaves no work in the queue. */
  ghost predicate SupplyOk(s: Pool) {
    && (QueuedCount(s) > 0 ==> LiveCount(s) > 0)
    && (s.life == Stopping ==> QueuedCount(s) == 0)
  }

  /** After shutdown nobody sleeps on for work, and after termination nobody sleeps on for termination. */
  ghost predicate AwakeOk(s: Pool) {
    && (s.life != Running ==> forall w :: w in s.workers ==> !s.workers[w].Parked?)
    && (Terminated(s) ==> s.waits.termParked == 0)
  }

  ghost predicate Inv(s: Pool) {
    TasksOk(s) && WorkersOk(s) && SizesOk(s) && SupplyOk(s) && AwakeOk(s)
  }

  // ---------------------------------------------------------------- notifications change no count

  lemma NotifyKeepsCounts(s: Pool)
    ensures Count(NotifyAll(s).workers, HasJob) == Count(s.workers, HasJob)
    ensures LiveCount(NotifyAll(s)) == LiveCount(s) && IdleCount(NotifyAll(s)) == IdleCount(s)
    ensures Terminated(NotifyAll(s)) == Terminated(s)
  {
    hide Count;
    var woken := NotifyAll(s).workers;
    assert forall w :: w in s.workers ==> HasJob(s.workers[w]) == HasJob(woken[w]);
    assert forall w :: w in s.workers ==> IsLive(s.workers[w]) == IsLive(woken[w]);
    assert forall w :: w in s.workers ==> IsIdle(s.workers[w]) == IsIdle(woken[w]);
    CountSame(s.workers, NotifyAll(s).workers, HasJob);
    CountSame(s.workers, NotifyAll(s).workers, IsLive);
    CountSame(s.workers, NotifyAll(s).workers, IsIdle);
  }

  lemma NotifyKeepsRest(s: Pool)
    requires TasksOk(s) && WorkersOk(s)
    ensures TasksOk(NotifyAll(s)) && WorkersOk(NotifyAll(s))
  {
  }

  lemma WorkerMoves(s: Pool, w: Id, p: Phase)
    ensures Count(s.workers[w := p], HasJob) ==
            Count(s.workers, HasJob) - Bit(w in s.workers && HasJob(s.workers[w])) + Bit(HasJob(p))
    ensures Count(s.workers[w := p], IsLive) ==
            Count(s.workers, IsLive) - Bit(w in s.workers && IsLive(s.workers[w])) + Bit(IsLive(p))
  {
    CountUpdate(s.workers, w, p, HasJob);
    CountUpdate(s.workers, w, p, IsLive);
  }

  lemma TaskMoves(s: Pool, j: Job, t: Task)
    ensures Count(s.tasks[j := t], IsQueued) ==
            Count(s.tasks, IsQueued) - Bit(j in s.tasks && IsQueued(s.tasks[j])) + Bit(IsQueued(t))
    ensures Count(s.tasks[j := t], IsCarried) ==
            Count(s.tasks, IsCarried) - Bit(j in s.tasks && IsCarried(s.tasks[j])) + Bit(IsCarried(t))
  {
    CountUpdate(s.tasks, j, t, IsQueued);
    CountUpdate(s.tasks, j, t, IsCarried);
  }

  // ---------------------------------------------------------------- submission

  lemma SubmitKeepsTasks(s: Pool, e: Event, s': Pool)
    requires TasksOk(s) && WorkersOk(s) && Step(s, e, s')
    requires e.ESubmitSpawn? || e.ESubmitQueue? || e.ESubmitQueueSpawn? || e.EPrestart?
    ensures TasksOk(s') && WorkersOk(s')
  {
    hide Count;
  }

  lemma SubmitKeepsCounts(s: Pool, e: Event, s': Pool)
    requires SizesOk(s) && SupplyOk(s) && AwakeOk(s) && Step(s, e, s')
    requires e.ESubmitSpawn? || e.ESubmitQueue? || e.ESubmitQueueSpawn? || e.EPrestart?
    ensures SizesOk(s') && SupplyOk(s') && AwakeOk(s')
  {
    hide Count;
    if !e.EPrestart? {
      TaskMoves(s, e.j, s'.tasks[e.j]);
    }
    if !e.ESubmitQueue? {
      WorkerMoves(s, e.w, s'.workers[e.w]);
    }
  }

  // ---------------------------------------------------------------- workers

  lemma LookKeepsTasks(s: Pool, e: Event, s': Pool)
    requires TasksOk(s) && WorkersOk(s) && Step(s, e, s')
    requires e.EPark? || e.EWake? || e.ENotifyWorker?
    ensures TasksOk(s') && WorkersOk(s')
  {
    hide Count, Terminated, CellOk;
  }

  lemma TakeKeepsTasks(s: Pool, w: Id, j: Job, s': Pool)
    requires TasksOk(s) && WorkersOk(s) && Take(s, w, j, s')
    ensures TasksOk(s') && WorkersOk(s')
  {
    hide Count;
  }

  lemma ExitKeepsTasks(s: Pool, w: Id, s': Pool)
    requires TasksOk(s) && WorkersOk(s) && Exit(s, w, s')
    ensures TasksOk(s') && WorkersOk(s')
  {
    hide Count, Terminated, MayExit, CellOk;
    var left := s.(workers := s.workers[w := Exited]);
    assert TasksOk(left) && WorkersOk(left);
    NotifyKeepsRest(left);
  }

  lemma LookKeepsCounts(s: Pool, e: Event, s': Pool)
    requires SizesOk(s) && SupplyOk(s) && AwakeOk(s) && Step(s, e, s')
        && (e.ETake? || e.EPark? || e.EWake? || e.ENotifyWorker?)
    ensures SizesOk(s') && SupplyOk(s') && AwakeOk(s')
  {
    hide Count;
    if e.ETake? {
      TaskMoves(s, e.j, s'.tasks[e.j]);
    }
    WorkerMoves(s, e.w, s'.workers[e.w]);
  }

  lemma ExitKeepsCounts(s: Pool, w: Id, s': Pool)
    requires SizesOk(s) && SupplyOk(s) && AwakeOk(s) && Exit(s, w, s')
    ensures SizesOk(s') && SupplyOk(s') && AwakeOk(s')
  {
    hide Count;
    WorkerMoves(s, w, Exited);
    NotifyKeepsCounts(s.(workers := s.workers[w := Exited]));
  }

  lemma FinishKeeps(s: Pool, w: Id, s': Pool)
    requires Inv(s) && FinishJob(s, w, s')
    ensures Inv(s')
  {
    hide Count;
    var j := s.workers[w].job;
    var done := s.(tasks := s.tasks[j := s.tasks[j].(place := Finished)], workers := s.workers[w := Looking]);
    TaskMoves(s, j, done.tasks[j]);
    WorkerMoves(s, w, Looking);
    CountPositive(done.workers, w, IsLive);
    assert s' == done;
  }

  // ---------------------------------------------------------------- callbacks and cancellation

  lemma CellKeepsTasks(s: Pool, e: Event, s': Pool)
    requires TasksOk(s) && WorkersOk(s) && Step(s, e, s')
    requires e.ERunStart? || e.ERunEnd? || e.EHandleCancel? || e.ECancelDrained?
    ensures TasksOk(s') && WorkersOk(s')
  {
    hide Count;
  }

  lemma CellKeepsCounts(s: Pool, e: Event, s': Pool)
    requires SizesOk(s) && SupplyOk(s) && AwakeOk(s) && WorkersOk(s) && Step(s, e, s')
    requires e.ERunStart? || e.ERunEnd? || e.EHandleCancel? || e.ECancelDrained?
    ensures SizesOk(s') && SupplyOk(s') && AwakeOk(s')
  {
    hide Count;
    var j := if e.ERunStart? || e.ERunEnd? then s.workers[e.w].job else e.j;
    TaskMoves(s, j, s'.tasks[j]);
    if e.ERunStart? || e.ERunEnd? {
      WorkerMoves(s, e.w, s'.workers[e.w]);
    }
  }

  // ---------------------------------------------------------------- shutdown, resizing, waiting for termination

  lemma ShutdownKeeps(s: Pool, s': Pool)
    requires Inv(s) && ShutdownStep(s, s')
    ensures Inv(s')
  {
    hide Count, TaskOk;
    var mid := s.(life := if s.life == Running then Shutdown else s.life);
    NotifyKeepsCounts(mid);
    assert TasksOk(s') && WorkersOk(s') by {
      assert TasksOk(mid) by { SameTasks(s, mid); }
      NotifyKeepsRest(mid);
    }
    hide TasksOk, WorkersOk;
  }

  lemma SameTasks(s: Pool, s': Pool)
    requires TasksOk(s) && s'.tasks == s.tasks && s'.workers == s.workers
    ensures TasksOk(s')
  {
  }

  lemma ShutdownNowKeeps(s: Pool, c: Id, s': Pool)
    requires Inv(s) && ShutdownNow(s, c, s')
    ensures Inv(s')
  {
    hide Count, TaskOk;
    var mid := s.(life := Stopping, tasks := Drained(s.tasks, c));
    assert TasksOk(s') && WorkersOk(s') by {
      assert TasksOk(mid) by { DrainKeepsTasks(s, c, mid); }
      NotifyKeepsRest(mid);
    }
    hide TasksOk, WorkersOk;
    NotifyKeepsCounts(mid);
    CountZero(mid.tasks, IsQueued);
    assert forall j :: j in s.tasks ==> IsCarried(s.tasks[j]) == IsCarried(mid.tasks[j]);
    CountSame(s.tasks, mid.tasks, IsCarried);
  }

  lemma DrainKeepsTasks(s: Pool, c: Id, mid: Pool)
    requires TasksOk(s) && mid == s.(life := Stopping, tasks := Drained(s.tasks, c))
    ensures TasksOk(mid)
  {
  }

  lemma WaitKeeps(s: Pool, e: Event, s': Pool)
    requires Inv(s) && Step(s, e, s')
    requires e.EResize? || e.ENotifyTermination? || e.ENotifyNobody? || e.EWakeTerm? || e.EAwaitTerm? || e.ERecheckTerm?
    ensures Inv(s')
  {
    hide Count;
  }

  /** Every event keeps the invariant. */
  lemma StepKeeps(s: Pool, e: Event, s': Pool)
    requires Inv(s) && Step(s, e, s')
    ensures Inv(s')
  {
    hide Count, TasksOk, WorkersOk, SizesOk, SupplyOk, AwakeOk, Terminated;
    match e
    case ESubmitSpawn(_, _) => SubmitKeepsTasks(s, e, s'); SubmitKeepsCounts(s, e, s');
    case ESubmitQueue(_) => SubmitKeepsTasks(s, e, s'); SubmitKeepsCounts(s, e, s');
    case ESubmitQueueSpawn(_, _) => SubmitKeepsTasks(s, e, s'); SubmitKeepsCounts(s, e, s');
    case EPrestart(_) => SubmitKeepsTasks(s, e, s'); SubmitKeepsCounts(s, e, s');
    case ETake(w, j) => TakeKeepsTasks(s, w, j, s'); LookKeepsCounts(s, e, s');
    case EPark(_) => LookKeepsTasks(s, e, s'); LookKeepsCounts(s, e, s');
    case EWake(_, _) => LookKeepsTasks(s, e, s'); LookKeepsCounts(s, e, s');
    case ENotifyWorker(_) => LookKeepsTasks(s, e, s'); LookKeepsCounts(s, e, s');
    case EExit(w) => ExitKeepsTasks(s, w, s'); ExitKeepsCounts(s, w, s');
    case EFinish(w) => FinishKeeps(s, w, s');
    case ERunStart(_) => CellKeepsTasks(s, e, s'); CellKeepsCounts(s, e, s');
    case ERunEnd(_, _) => CellKeepsTasks(s, e, s'); CellKeepsCounts(s, e, s');
    case EHandleCancel(_) => CellKeepsTasks(s, e, s'); CellKeepsCounts(s, e, s');
    case ECancelDrained(_, _) => CellKeepsTasks(s, e, s'); CellKeepsCounts(s, e, s');
    case EShutdown => ShutdownKeeps(s, s');
    case EShutdownNow(c) => ShutdownNowKeeps(s, c, s');
    case _ => WaitKeeps(s, e, s');
  }

  lemma InitKeeps(s: Pool)
    requires Init(s)
    ensures Inv(s)
  {
  }
}
