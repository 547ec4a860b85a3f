// From what a critical section reads and writes to the event it is: one lemma for each, over values.
// Each takes a snapshot in which record and machine agree and returns the next one, with everything the code writes.

module ThreadPoolEvents {
  import opened Counting
  import opened Lifecycles
  import opened PoolSpec
  import opened PoolInvariant
  import opened ThreadPoolQueues
  import opened ThreadPoolRecord
  import opened ThreadPoolRuns

  /** Record and machine agree. */
  ghost predicate Good(c: Snapshot) {
    Inv(c.spec) && Agrees(c.rec, c.spec)
  }

  predicate Full(t: Tally, cfg: Config) {
    cfg.capacity.Some? && t.queued >= cfg.capacity.value
  }

  lemma Follows(c: Snapshot, e: Event, c': Snapshot)
    requires Good(c) && CodeStep(c, Does(e), c')
    ensures Good(c') && c'.spec.cfg.capacity == c.spec.cfg.capacity
    ensures !e.EShutdown? && !e.EShutdownNow? ==> c'.spec.life == c.spec.life
    ensures !e.EResize? ==> c'.spec.cfg == c.spec.cfg
  {
    hide CountsAgree, ContentAgrees, RegistryAgrees, Inv;
    RunningCountKnown(c);
    assert WithSlips(c.rec, 0) == c.rec && WithSlips(c'.rec, 0) == c'.rec;
    EventKeeps(c, e, c', 0);
    hide CodeInv, QueuesMove, Count;
  }

  lemma RunningCountKnown(c: Snapshot)
    requires Good(c)
    ensures c.rec.t.running == RunningCount(c.spec) >= 0 && c.rec.t.live == LiveCount(c.spec)
    ensures c.rec.t.queued == QueuedCount(c.spec) && c.rec.t.idle == IdleCount(c.spec)
    ensures 0 <= c.spec.cfg.core <= c.spec.cfg.max && 1 <= c.spec.cfg.max
    ensures c.rec.t.live == 0 ==> c.rec.t.running == 0
    ensures c.spec.cfg.capacity.Some? ==> c.rec.t.queued <= c.spec.cfg.capacity.value
  {
    if c.rec.t.live == 0 {
      NoWorkerNoJob(c.spec);
    }
  }

  /** The next index is new. */
  lemma FreshIndex(c: Snapshot)
    requires Good(c)
    ensures Distinct(c.rec.queues) && c.rec.next !in Indices(c.rec.queues) && c.rec.next !in c.spec.workers
    ensures Good(c.(rec := c.rec.(next := c.rec.next + 1)))
    ensures c.spec.life == Running ==> CodeStep(c, SkipsIndex, c.(rec := c.rec.(next := c.rec.next + 1)))
  {
    hide Inv, CountsAgree, ContentAgrees;
    SkipIndex(c.rec.queues, c.rec.next, c.spec);
  }

  lemma NewWorkerEvent(c: Snapshot, j: Job) returns (c': Snapshot)
    requires Good(c) && c.spec.life == Running && j !in c.spec.tasks
    requires c.rec.t.live < c.spec.cfg.core || (Full(c.rec.t, c.spec.cfg) && c.rec.t.live < c.spec.cfg.max)
    ensures Good(c') && CodeStep(c, Does(ESubmitSpawn(j, c.rec.next)), c')
    ensures c'.spec.life == c.spec.life && c'.spec.cfg == c.spec.cfg && c'.spec.waits == c.spec.waits
    ensures var t := c.rec.t;
      c'.rec == Record(t.(running := t.running + 1, live := t.live + 1, submitted := t.submitted + 1),
                       c.rec.queue, c.rec.queues + [WorkerQueue(c.rec.next, [])], c.rec.next + 1)
  {
    hide Good, Count;
    var r, s, w, e := c.rec, c.spec, c.rec.next, ESubmitSpawn(j, c.rec.next);
    RunningCountKnown(c);
    FreshIndex(c);
    c' := Snapshot(Record(Follow(r.t, s, e), r.queue, r.queues + [WorkerQueue(w, [])], w + 1),
                   s.(tasks := s.tasks[j := NewTask(Carried(w))], workers := s.workers[w := Holding(j)]));
    Follows(c, e, c');
  }

  lemma EmptyPoolEvent(c: Snapshot, j: Job) returns (c': Snapshot)
    requires Good(c) && c.spec.life == Running && j !in c.spec.tasks
    requires c.rec.t.live == 0 && c.spec.cfg.core == 0 && !Full(c.rec.t, c.spec.cfg)
    ensures Good(c') && CodeStep(c, Does(ESubmitQueueSpawn(j, c.rec.next)), c') && c.rec.t.running == 0
    ensures c'.spec.life == c.spec.life && c'.spec.cfg == c.spec.cfg && c'.spec.waits == c.spec.waits
    ensures var t := c.rec.t;
      c'.rec == Record(t.(queued := t.queued + 1, live := t.live + 1, submitted := t.submitted + 1),
                       c.rec.queue + [j], c.rec.queues + [WorkerQueue(c.rec.next, [])], c.rec.next + 1)
  {
    hide Good, Count;
    var r, s, w, e := c.rec, c.spec, c.rec.next, ESubmitQueueSpawn(j, c.rec.next);
    RunningCountKnown(c);
    FreshIndex(c);
    c' := Snapshot(Record(Follow(r.t, s, e), r.queue + [j], r.queues + [WorkerQueue(w, [])], w + 1),
                   s.(tasks := s.tasks[j := NewTask(Queued)], workers := s.workers[w := Looking]));
    Follows(c, e, c');
  }

  lemma BusyPoolEvent(c: Snapshot, j: Job, r': Record) returns (c': Snapshot)
    requires Good(c) && c.spec.life == Running && j !in c.spec.tasks
    requires c.rec.t.live >= c.spec.cfg.core && c.rec.t.live > 0 && !Full(c.rec.t, c.spec.cfg)
    requires Placed(c.rec, c.spec, j, r') && r'.next == c.rec.next
    requires r'.t == c.rec.t.(queued := c.rec.t.queued + 1, submitted := c.rec.t.submitted + 1)
    ensures Good(c') && CodeStep(c, Does(ESubmitQueue(j)), c') && c'.rec == r'
    ensures c'.spec.life == c.spec.life && c'.spec.cfg == c.spec.cfg
    ensures c'.spec.waits.owed == c.spec.waits.owed + Bit(c.rec.t.idle > 0)
  {
    hide Good, Count, Placed;
    var s := c.spec;
    RunningCountKnown(c);
    c' := Snapshot(r', s.(tasks := s.tasks[j := NewTask(Queued)],
                          waits := s.waits.(owed := s.waits.owed + Bit(IdleCount(s) > 0))));
    Follows(c, ESubmitQueue(j), c');
  }

  /** A pool with live workers has registered queues. */
  lemma LiveIsRegistered(c: Snapshot)
    requires Good(c) && c.rec.t.live > 0
    ensures c.rec.queues != []
  {
    var w := CountWitness(c.spec.workers, IsLive);
    assert w in Keys(c.spec.workers, IsLive);
    assert w in Indices(c.rec.queues);
  }

  /** A failed prestart: the record stays right exactly when no job was running. */
  lemma FailedPrestart(c: Snapshot) returns (c': Snapshot)
    requires Good(c) && c.spec.life == Running && c.rec.t.live < c.spec.cfg.core
    ensures CodeStep(c, FailsPrestart, c') && (Good(c') <==> c.rec.t.running == 0) && c.rec.t.running >= 0
    ensures c' == c.(rec := c.rec.(next := c.rec.next + 1, t := c.rec.t.(running := Rollback(c.rec.t.running))))
  {
    hide Good;
    RunningCountKnown(c);
    FreshIndex(c);
    c' := c.(rec := c.rec.(next := c.rec.next + 1, t := c.rec.t.(running := Rollback(c.rec.t.running))));
    if Good(c') {
      RunningCountKnown(c');
    }
  }

  lemma PrestartEvent(c: Snapshot) returns (c': Snapshot)
    requires Good(c) && c.spec.life == Running && c.rec.t.live < c.spec.cfg.core
    ensures Good(c') && CodeStep(c, Does(EPrestart(c.rec.next)), c')
    ensures c'.spec.life == c.spec.life && c'.spec.cfg == c.spec.cfg
    ensures c'.rec == Record(c.rec.t.(live := c.rec.t.live + 1), c.rec.queue,
                             c.rec.queues + [WorkerQueue(c.rec.next, [])], c.rec.next + 1)
  {
    hide Good, Count;
    var r, s, w := c.rec, c.spec, c.rec.next;
    RunningCountKnown(c);
    FreshIndex(c);
    c' := Snapshot(Record(Follow(r.t, s, EPrestart(w)), r.queue, r.queues + [WorkerQueue(w, [])], w + 1),
                   s.(workers := s.workers[w := Looking]));
    Follows(c, EPrestart(w), c');
  }

  /** What a worker that looks for work may rely on. */
  lemma LookingWorker(c: Snapshot, w: Id)
    requires Good(c) && Looks(c.spec, w)
    ensures Distinct(c.rec.queues) && w in Indices(c.rec.queues)
    ensures c.spec.cfg.capacity.None? ==> LocalBag(c.rec.queues) == multiset{}
  {
    hide Inv, CountsAgree, LocalBag;
    RegisteredWorker(c.rec.queues, c.rec.next, c.spec, w);
  }

  lemma TakeEvent(c: Snapshot, w: Id, j: Job, r': Record) returns (c': Snapshot)
    requires Good(c) && Looks(c.spec, w) && c.spec.life != Stopping
    requires TookNext(c.rec.queue, c.rec.queues, w, j, r'.queue, r'.queues) && r'.next == c.rec.next
    requires c.spec.cfg.capacity.None? ==> r'.queues == c.rec.queues
    requires var t := c.rec.t;
      r'.t == t.(queued := t.queued - 1, running := t.running + 1, idle := t.idle - Bit(WasWoken(c.spec, w)))
    ensures Good(c') && CodeStep(c, Does(ETake(w, j)), c') && c'.rec == r'
    ensures c'.spec.life == c.spec.life && c'.spec.cfg == c.spec.cfg
  {
    hide Inv, Count, TookNext, LocalBag, CountsAgree, RegistryAgrees, ContentAgrees;
    var s := c.spec;
    NextLeavesBag(c.rec.queue, c.rec.queues, w, j, r'.queue, r'.queues);
    WaitingMember(c.rec.queue, c.rec.queues, r'.queue, r'.queues, s, j);
    c' := Snapshot(r', s.(tasks := s.tasks[j := s.tasks[j].(place := Carried(w))],
        workers := s.workers[w := Holding(j)]));
    hide Good;
    Follows(c, ETake(w, j), c');
  }

  lemma NothingPending(c: Snapshot)
    requires Good(c) && multiset(c.rec.queue) + LocalBag(c.rec.queues) == multiset{}
    ensures QueuedCount(c.spec) == 0
  {
    hide Inv;
    NothingWaits(c.rec.queue, c.rec.queues, c.spec);
  }

  lemma ExitEvent(c: Snapshot, w: Id, r': Record) returns (c': Snapshot)
    requires Good(c) && Looks(c.spec, w) && MayExit(c.spec, w)
    requires (exists i :: Unregistered(c.rec, w, i, r')) && r'.next == c.rec.next
    requires r'.t == c.rec.t.(live := c.rec.t.live - 1, idle := c.rec.t.idle - Bit(WasWoken(c.spec, w)))
    ensures Good(c') && CodeStep(c, Does(EExit(w)), c') && c'.rec == r'
    ensures c'.spec.life == c.spec.life && c'.spec.cfg == c.spec.cfg
  {
    hide Good, Count, Unregistered, MayExit, Terminated;
    c' := Snapshot(r', NotifyIfTerminated(c.spec.(workers := c.spec.workers[w := Exited])));
    Follows(c, EExit(w), c');
  }

  lemma ParkEvent(c: Snapshot, w: Id) returns (c': Snapshot)
    requires Good(c) && Looks(c.spec, w) && c.spec.life == Running && QueuedCount(c.spec) == 0
    requires c.rec.t.live <= c.spec.cfg.max && !(TimedOut(c.spec, w) && CanRetire(c.spec))
    ensures Good(c') && CodeStep(c, Does(EPark(w)), c')
    ensures w in c'.spec.workers && c'.spec.workers[w] == Parked(WaitIsTimed(c.spec))
    ensures c'.spec.life == c.spec.life && c'.spec.cfg == c.spec.cfg
    ensures c'.rec == c.rec.(t := c.rec.t.(idle := c.rec.t.idle + 1 - Bit(WasWoken(c.spec, w))))
  {
    hide Good, Count, CanRetire;
    RunningCountKnown(c);
    var s := c.spec;
    c' := Snapshot(c.rec.(t := Follow(c.rec.t, s, EPark(w))), s.(workers := s.workers[w := Parked(WaitIsTimed(s))]));
    Follows(c, EPark(w), c');
  }

  lemma FinishEvent(c: Snapshot, w: Id) returns (c': Snapshot)
    requires Good(c) && w in c.spec.workers && c.spec.workers[w].Back?
    ensures Good(c') && CodeStep(c, Does(EFinish(w)), c') && c.rec.t.running > 0
    ensures c'.spec.life == c.spec.life && c'.spec.cfg == c.spec.cfg
    ensures c'.rec == c.rec.(t := c.rec.t.(running := c.rec.t.running - 1, completed := c.rec.t.completed + 1))
  {
    hide Good, Count, Terminated;
    var s := c.spec;
    BackIsRunning(c, w);
    var j := s.workers[w].job;
    c' := Snapshot(c.rec.(t := Follow(c.rec.t, s, EFinish(w))),
                   NotifyIfTerminated(s.(tasks := s.tasks[j := s.tasks[j].(place := Finished)],
                                         workers := s.workers[w := Looking])));
    Follows(c, EFinish(w), c');
  }

  /** A job that is back from its callback is counted as running, so reporting it finished cannot underflow. */
  lemma BackIsRunning(c: Snapshot, w: Id)
    requires Good(c) && w in c.spec.workers && c.spec.workers[w].Back?
    ensures c.rec.t.running > 0 && c.spec.workers[w].job in c.spec.tasks
  {
    CountPositive(c.spec.workers, w, HasJob);
  }

  lemma ShutdownEvent(c: Snapshot) returns (c': Snapshot)
    requires Good(c)
    ensures Good(c') && CodeStep(c, Does(EShutdown), c') && c'.rec == c.rec && c'.spec.cfg == c.spec.cfg
    ensures c'.spec.life == if c.spec.life == Running then Shutdown else c.spec.life
  {
    hide Good, Count;
    c' := Snapshot(c.rec, NotifyAll(c.spec.(life := if c.spec.life == Running then Shutdown else c.spec.life)));
    Follows(c, EShutdown, c');
  }

  /** The jobs that an immediate shutdown takes out of the queues are the waiting tasks, each once. */
  lemma DrainEvent(c: Snapshot, call: Id, local: seq<Job>, queues': seq<WorkerQueue>) returns (c': Snapshot)
    requires Good(c) && DrainedOf(local, c.rec.queues, queues')
    ensures Good(c') && CodeStep(c, Does(EShutdownNow(call)), c')
    ensures c'.spec.life == Stopping && c'.spec.cfg == c.spec.cfg
    ensures var t := c.rec.t;
      c'.rec == Record(t.(queued := 0, cancelled := t.cancelled + t.queued), [], queues', c.rec.next)
    ensures HandedOut(c.rec.queue + local, c.spec, call, c'.spec) && |c.rec.queue + local| == c.rec.t.queued
  {
    hide Good, Count, Emptied, LocalBag;
    c' := Snapshot(Record(Follow(c.rec.t, c.spec, EShutdownNow(call)), [], queues', c.rec.next),
                   NotifyAll(c.spec.(life := Stopping, tasks := Drained(c.spec.tasks, call))));
    PendingIsWaiting(c, local);
    Follows(c, EShutdownNow(call), c');
  }

  /** The jobs are the tasks that were waiting, each once, and all of them are now in the hands of the call. */
  ghost predicate HandedOut(jobs: seq<Job>, s: Pool, call: Id, s': Pool) {
    && multiset(jobs) == multiset(Keys(s.tasks, IsQueued))
    && forall j :: j in jobs ==> j in s'.tasks && s'.tasks[j].place == Draining(call)
  }

  lemma PendingIsWaiting(c: Snapshot, local: seq<Job>)
    requires Good(c) && multiset(local) == LocalBag(c.rec.queues)
    ensures var jobs := c.rec.queue + local;
      && multiset(jobs) == multiset(Keys(c.spec.tasks, IsQueued)) && |jobs| == c.rec.t.queued
      && forall j :: j in jobs ==> j in c.spec.tasks && IsQueued(c.spec.tasks[j])
  {
    hide Inv, LocalBag;
    var jobs, waiting := c.rec.queue + local, Keys(c.spec.tasks, IsQueued);
    assert |multiset(jobs)| == |jobs| && |multiset(waiting)| == |waiting|;
    forall j | j in jobs
      ensures j in c.spec.tasks && IsQueued(c.spec.tasks[j])
    {
      assert j in multiset(jobs);
      assert j in waiting;
    }
  }

  lemma ResizeEvent(c: Snapshot, core: int, max: int, allow: bool) returns (c': Snapshot)
    requires Good(c) && 0 <= core <= max && 1 <= max
    ensures Good(c') && CodeStep(c, Does(EResize(core, max, allow)), c')
    ensures c'.rec == c.rec && c'.spec.life == c.spec.life
    ensures c'.spec.cfg == Config(core, max, c.spec.cfg.capacity, allow)
  {
    hide Good, Count;
    c' := Snapshot(c.rec, c.spec.(cfg := c.spec.cfg.(core := core, max := max, allowCoreTimeout := allow)));
    Follows(c, EResize(core, max, allow), c');
  }

  lemma ElsewhereEvent(c: Snapshot, e: Event, s': Pool)
    requires Good(c) && Step(c.spec, e, s') && IsElsewhere(e)
    ensures Good(Snapshot(c.rec, s')) && CodeStep(c, Does(e), Snapshot(c.rec, s'))
    ensures s'.life == c.spec.life && s'.cfg == c.spec.cfg
  {
    hide Good, Count, Step;
    Follows(c, e, Snapshot(c.rec, s'));
  }
}
