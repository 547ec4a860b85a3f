// The locked record of the dynamic pool as a value: its counters and its queues, when they agree with the abstract
// machine, and how each event moves them.

module ThreadPoolRecord {
  import opened Counting
  import opened Lifecycles
  import opened PoolSpec
  import opened PoolInvariant
  import opened ThreadPoolQueues

  datatype Tally = Tally(queued: int, running: int, live: int, idle: int, submitted: int, completed: int,
      cancelled: int)

  /** Every counter counts what it is meant to count. */
  ghost predicate CountsAgree(t: Tally, s: Pool) {
    && t.queued == QueuedCount(s) && t.running == RunningCount(s)
    && t.live == LiveCount(s) && t.idle == IdleCount(s)
    && t.submitted == |s.tasks.Keys|
    && t.completed == Count(s.tasks, IsFinished) && t.cancelled == Count(s.tasks, IsCancelled)
  }

  /** The queues hold each waiting job once and nothing else; without a capacity the local queues stay empty. */
  ghost predicate ContentAgrees(queue: seq<Job>, queues: seq<WorkerQueue>, s: Pool) {
    && multiset(queue) + LocalBag(queues) == multiset(Keys(s.tasks, IsQueued))
    && (s.cfg.capacity.None? ==> LocalBag(queues) == multiset{})
  }

  /** Exactly the live workers have a registered queue, and the next index is new. */
  ghost predicate RegistryAgrees(queues: seq<WorkerQueue>, next: Id, s: Pool) {
    && Distinct(queues) && Indices(queues) == Keys(s.workers, IsLive)
    && (forall w :: w in s.workers ==> w < next)
  }

  // ---------------------------------------------------------------- how events change the counters

  /** The counters after one event, given the counters before it. */
  ghost function Follow(t: Tally, s: Pool, e: Event): Tally {
    match e
    case ESubmitSpawn(_, _) => t.(running := t.running + 1, live := t.live + 1, submitted := t.submitted + 1)
    case ESubmitQueue(_) => t.(queued := t.queued + 1, submitted := t.submitted + 1)
    case ESubmitQueueSpawn(_, _) => t.(queued := t.queued + 1, submitted := t.submitted + 1, live := t.live + 1)
    case EPrestart(_) => t.(live := t.live + 1)
    case ETake(w, _) => t.(queued := t.queued - 1, running := t.running + 1, idle := t.idle - Bit(WasWoken(s, w)))
    case EPark(w) => t.(idle := t.idle + 1 - Bit(WasWoken(s, w)))
    case EExit(w) => t.(live := t.live - 1, idle := t.idle - Bit(WasWoken(s, w)))
    case EFinish(_) => t.(running := t.running - 1, completed := t.completed + 1)
    case EShutdownNow(_) => t.(queued := 0, cancelled := t.cancelled + t.queued)
    case _ => t
  }

  ghost predicate WasWoken(s: Pool, w: Id) {
    w in s.workers && s.workers[w].Woken?
  }

  lemma TaskCounts(s: Pool, j: Job, task: Task)
    ensures var s' := s.(tasks := s.tasks[j := task]);
      && QueuedCount(s') == QueuedCount(s) - Bit(j in s.tasks && IsQueued(s.tasks[j])) + Bit(IsQueued(task))
      && RunningCount(s') == RunningCount(s) - Bit(j in s.tasks && IsCarried(s.tasks[j])) + Bit(IsCarried(task))
      && Count(s'.tasks, IsFinished) ==
         Count(s.tasks, IsFinished) - Bit(j in s.tasks && IsFinished(s.tasks[j])) + Bit(IsFinished(task))
      && Count(s'.tasks, IsCancelled) ==
         Count(s.tasks, IsCancelled) - Bit(j in s.tasks && IsCancelled(s.tasks[j])) + Bit(IsCancelled(task))
      && |s'.tasks.Keys| == |s.tasks.Keys| + Bit(j !in s.tasks)
  {
    hide Count;
    CountUpdate(s.tasks, j, task, IsQueued);
    CountUpdate(s.tasks, j, task, IsCarried);
    CountUpdate(s.tasks, j, task, IsFinished);
    CountUpdate(s.tasks, j, task, IsCancelled);
    assert s.tasks[j := task].Keys == s.tasks.Keys + {j};
  }

  lemma WorkerCounts(s: Pool, w: Id, p: Phase)
    ensures var s' := s.(workers := s.workers[w := p]);
      && LiveCount(s') == LiveCount(s) - Bit(w in s.workers && IsLive(s.workers[w])) + Bit(IsLive(p))
      && IdleCount(s') == IdleCount(s) - Bit(w in s.workers && IsIdle(s.workers[w])) + Bit(IsIdle(p))
  {
    hide Count;
    CountUpdate(s.workers, w, p, IsLive);
    CountUpdate(s.workers, w, p, IsIdle);
  }

  /** The counters of the code follow the events of the abstract machine. */
  lemma CountsFollow(t: Tally, s: Pool, e: Event, s': Pool)
    requires CountsAgree(t, s) && WorkersOk(s) && Step(s, e, s')
    requires e.ESubmitSpawn? || e.ESubmitQueue? || e.ESubmitQueueSpawn? || e.EPrestart? || e.ETake? || e.EPark?
    ensures CountsAgree(Follow(t, s, e), s')
  {
    hide Count;
    if !e.EPrestart? && !e.EPark? {
      TaskCounts(s, e.j, s'.tasks[e.j]);
    }
    if !e.ESubmitQueue? {
      WorkerCounts(s, e.w, s'.workers[e.w]);
    }
  }

  lemma CountsFollowNotify(t: Tally, s: Pool)
    requires CountsAgree(t, s)
    ensures CountsAgree(t, NotifyAll(s)) && CountsAgree(t, NotifyIfTerminated(s))
  {
    hide Count;
    NotifyKeepsCounts(s);
  }

  lemma CountsFollowExit(t: Tally, s: Pool, w: Id, s': Pool)
    requires CountsAgree(t, s) && Exit(s, w, s')
    ensures CountsAgree(Follow(t, s, EExit(w)), s')
  {
    hide Count;
    WorkerCounts(s, w, Exited);
    CountsFollowNotify(Follow(t, s, EExit(w)), s.(workers := s.workers[w := Exited]));
  }

  lemma CountsFollowFinish(t: Tally, s: Pool, w: Id, s': Pool)
    requires CountsAgree(t, s) && WorkersOk(s) && FinishJob(s, w, s')
    ensures CountsAgree(Follow(t, s, EFinish(w)), s')
  {
    hide Count;
    var j := s.workers[w].job;
    TaskCounts(s, j, s.tasks[j].(place := Finished));
    WorkerCounts(s, w, Looking);
    CountsFollowNotify(Follow(t, s, EFinish(w)),
      s.(tasks := s.tasks[j := s.tasks[j].(place := Finished)], workers := s.workers[w := Looking]));
  }

  lemma CountsFollowDrain(t: Tally, s: Pool, c: Id, s': Pool)
    requires CountsAgree(t, s) && ShutdownNow(s, c, s')
    ensures CountsAgree(Follow(t, s, EShutdownNow(c)), s')
  {
    hide Count, Keys;
    var mid := s.(life := Stopping, tasks := Drained(s.tasks, c));
    assert forall j :: j in s.tasks ==> IsCarried(s.tasks[j]) == IsCarried(mid.tasks[j]);
    assert forall j :: j in s.tasks ==> IsFinished(s.tasks[j]) == IsFinished(mid.tasks[j]);
    CountSame(s.tasks, mid.tasks, IsCarried);
    CountSame(s.tasks, mid.tasks, IsFinished);
    CountZero(mid.tasks, IsQueued);
    DrainGains(s, c);
    CountsFollowNotify(Follow(t, s, EShutdownNow(c)), mid);
  }

  lemma DrainGains(s: Pool, c: Id)
    ensures Count(Drained(s.tasks, c), IsCancelled) == Count(s.tasks, IsCancelled) + Count(s.tasks, IsQueued)
  {
    var gone := Keys(s.tasks, IsQueued);
    assert forall j :: j in s.tasks ==> IsCancelled(s.tasks[j]) == (IsCancelled(Drained(s.tasks, c)[j]) && j !in gone);
    CountLoses(Drained(s.tasks, c), s.tasks, gone, IsCancelled);
  }

  // ---------------------------------------------------------------- how events change the queues

  lemma WaitingGains(s: Pool, j: Job, s': Pool)
    requires j !in s.tasks && s'.tasks == s.tasks[j := NewTask(Queued)]
    ensures multiset(Keys(s'.tasks, IsQueued)) == multiset(Keys(s.tasks, IsQueued)) + multiset{j}
  {
    assert Keys(s'.tasks, IsQueued) == Keys(s.tasks, IsQueued) + {j};
  }

  lemma WaitingLoses(s: Pool, w: Id, j: Job, s': Pool)
    requires Take(s, w, j, s')
    ensures multiset(Keys(s.tasks, IsQueued)) == multiset(Keys(s'.tasks, IsQueued)) + multiset{j}
  {
    assert Keys(s.tasks, IsQueued) == Keys(s'.tasks, IsQueued) + {j} && j !in Keys(s'.tasks, IsQueued);
  }

  lemma WaitingSame(s: Pool, s': Pool)
    requires s'.tasks.Keys == s.tasks.Keys
    requires forall j :: j in s.tasks ==> IsQueued(s'.tasks[j]) == IsQueued(s.tasks[j])
    ensures Keys(s'.tasks, IsQueued) == Keys(s.tasks, IsQueued)
  {
    assert forall j :: j in Keys(s'.tasks, IsQueued) <==> j in s.tasks && IsQueued(s.tasks[j]);
  }

  lemma LiveGains(s: Pool, w: Id, p: Phase)
    requires IsLive(p)
    ensures Keys(s.workers[w := p], IsLive) == Keys(s.workers, IsLive) + {w}
  {
  }

  lemma LiveLoses(s: Pool, w: Id)
    requires w in s.workers
    ensures Keys(s.workers[w := Exited], IsLive) == Keys(s.workers, IsLive) - {w}
  {
  }

  lemma LiveNotified(s: Pool)
    ensures Keys(NotifyAll(s).workers, IsLive) == Keys(s.workers, IsLive)
    ensures Keys(NotifyIfTerminated(s).workers, IsLive) == Keys(s.workers, IsLive)
  {
    hide Count;
    var woken := NotifyAll(s).workers;
    assert forall w :: w in s.workers ==> IsLive(woken[w]) == IsLive(s.workers[w]);
    assert forall w :: w in Keys(woken, IsLive) <==> w in s.workers && IsLive(s.workers[w]);
  }

  // ---------------------------------------------------------------- events that move no counter and no queue

  /** Callback steps, cancellations, notifications, wake-ups, termination waits, graceful shutdown and resizing. */
  predicate IsQuiet(e: Event) {
    IsElsewhere(e) || e.EShutdown? || e.EResize?
  }

  /** The events that are not a critical section of the pool: other threads take them, or the condition variable. */
  predicate IsElsewhere(e: Event) {
    || e.ERunStart? || e.ERunEnd? || e.EHandleCancel? || e.ECancelDrained?
    || e.ENotifyWorker? || e.ENotifyTermination? || e.ENotifyNobody? || e.EWake?
    || e.EWakeTerm? || e.EAwaitTerm? || e.ERecheckTerm?
  }

  predicate SameKind(t: Task, t': Task) {
    && IsQueued(t) == IsQueued(t') && IsCarried(t) == IsCarried(t')
    && IsFinished(t) == IsFinished(t') && IsCancelled(t) == IsCancelled(t')
  }

  predicate SameStanding(p: Phase, p': Phase) {
    IsLive(p) == IsLive(p') && IsIdle(p) == IsIdle(p')
  }

  ghost predicate AlikeTasks(s: Pool, s': Pool) {
    s'.tasks.Keys == s.tasks.Keys && forall j :: j in s.tasks ==> SameKind(s.tasks[j], s'.tasks[j])
  }

  ghost predicate AlikeWorkers(s: Pool, s': Pool) {
    s'.workers.Keys == s.workers.Keys && forall w :: w in s.workers ==> SameStanding(s.workers[w], s'.workers[w])
  }

  /** The two pools differ in nothing that a counter or a queue tells. */
  ghost predicate Alike(s: Pool, s': Pool) {
    s'.cfg.capacity == s.cfg.capacity && AlikeTasks(s, s') && AlikeWorkers(s, s')
  }

  lemma QuietIsAlike(s: Pool, e: Event, s': Pool)
    requires Step(s, e, s') && IsQuiet(e)
    ensures Alike(s, s')
  {
    hide Count, Terminated, Step;
    if e.ERunStart? || e.ERunEnd? || e.EHandleCancel? || e.ECancelDrained? {
      CallbackIsAlike(s, e, s');
    } else {
      WakeIsAlike(s, e, s');
    }
  }

  lemma CallbackIsAlike(s: Pool, e: Event, s': Pool)
    requires Step(s, e, s') && (e.ERunStart? || e.ERunEnd? || e.EHandleCancel? || e.ECancelDrained?)
    ensures Alike(s, s')
  {
  }

  lemma WakeIsAlike(s: Pool, e: Event, s': Pool)
    requires Step(s, e, s') && IsQuiet(e)
    requires !e.ERunStart? && !e.ERunEnd? && !e.EHandleCancel? && !e.ECancelDrained?
    ensures Alike(s, s')
  {
    hide Count, Terminated;
    assert s'.tasks == s.tasks;
  }

  lemma AlikeTaskCounts(s: Pool, s': Pool)
    requires AlikeTasks(s, s')
    ensures Keys(s'.tasks, IsQueued) == Keys(s.tasks, IsQueued)
    ensures QueuedCount(s') == QueuedCount(s) && RunningCount(s') == RunningCount(s)
    ensures Count(s'.tasks, IsFinished) == Count(s.tasks, IsFinished)
    ensures Count(s'.tasks, IsCancelled) == Count(s.tasks, IsCancelled)
  {
    assert forall j :: j in s.tasks ==> SameKind(s.tasks[j], s'.tasks[j]);
    hide AlikeTasks, Count;
    assert Keys(s'.tasks, IsQueued) == Keys(s.tasks, IsQueued);
    hide Keys;
    CountSame(s.tasks, s'.tasks, IsQueued);
    CountSame(s.tasks, s'.tasks, IsCarried);
    CountSame(s.tasks, s'.tasks, IsFinished);
    CountSame(s.tasks, s'.tasks, IsCancelled);
  }

  lemma AlikeWorkerCounts(s: Pool, s': Pool)
    requires AlikeWorkers(s, s')
    ensures Keys(s'.workers, IsLive) == Keys(s.workers, IsLive)
    ensures LiveCount(s') == LiveCount(s) && IdleCount(s') == IdleCount(s)
  {
    assert forall w :: w in s.workers ==> SameStanding(s.workers[w], s'.workers[w]);
    hide AlikeWorkers, Count;
    assert Keys(s'.workers, IsLive) == Keys(s.workers, IsLive);
    hide Keys;
    CountSame(s.workers, s'.workers, IsLive);
    CountSame(s.workers, s'.workers, IsIdle);
  }

  lemma AlikeCounts(t: Tally, s: Pool, s': Pool)
    requires CountsAgree(t, s) && Alike(s, s')
    ensures CountsAgree(t, s')
  {
    hide Count, AlikeTasks, AlikeWorkers;
    AlikeTaskCounts(s, s');
    AlikeWorkerCounts(s, s');
    assert s'.tasks.Keys == s.tasks.Keys by { AlikeDomains(s, s'); }
  }

  lemma AlikeDomains(s: Pool, s': Pool)
    requires Alike(s, s')
    ensures s'.tasks.Keys == s.tasks.Keys && s'.workers.Keys == s.workers.Keys
  {
  }

  lemma AlikeAgrees(t: Tally, queue: seq<Job>, queues: seq<WorkerQueue>, next: Id, s: Pool, s': Pool)
    requires CountsAgree(t, s) && ContentAgrees(queue, queues, s) && RegistryAgrees(queues, next, s) && Alike(s, s')
    ensures CountsAgree(t, s') && ContentAgrees(queue, queues, s') && RegistryAgrees(queues, next, s')
  {
    hide Count, LocalBag, Keys, AlikeTasks, AlikeWorkers, CountsAgree;
    AlikeCounts(t, s, s');
    AlikeTaskCounts(s, s');
    AlikeWorkerCounts(s, s');
    assert s'.tasks.Keys == s.tasks.Keys && s'.workers.Keys == s.workers.Keys by { AlikeDomains(s, s'); }
  }

  // ---------------------------------------------------------------- queues and registrations around an event

  lemma SkipIndex(queues: seq<WorkerQueue>, next: Id, s: Pool)
    requires RegistryAgrees(queues, next, s)
    ensures RegistryAgrees(queues, next + 1, s) && next !in Indices(queues) && Distinct(queues) && next !in s.workers
  {
  }

  lemma SpawnRegistry(queues: seq<WorkerQueue>, next: Id, s: Pool, p: Phase, s': Pool)
    requires RegistryAgrees(queues, next, s) && IsLive(p) && s'.workers == s.workers[next := p]
    ensures RegistryAgrees(queues + [WorkerQueue(next, [])], next + 1, s') && next !in s.workers
    ensures LocalBag(queues + [WorkerQueue(next, [])]) == LocalBag(queues)
  {
    hide LocalBag;
    BagOfAppend(queues, next);
    LiveGains(s, next, p);
  }

  lemma CarriedNotQueued(queue: seq<Job>, queues: seq<WorkerQueue>, s: Pool, j: Job, w: Id, s': Pool)
    requires ContentAgrees(queue, queues, s) && j !in s.tasks && s'.cfg == s.cfg
    requires s'.tasks == s.tasks[j := NewTask(Carried(w))] && Distinct(queues) && w !in Indices(queues)
    ensures ContentAgrees(queue, queues + [WorkerQueue(w, [])], s')
  {
    hide LocalBag;
    BagOfAppend(queues, w);
    assert Keys(s'.tasks, IsQueued) == Keys(s.tasks, IsQueued);
  }

  lemma QueuedGlobally(queue: seq<Job>, queues: seq<WorkerQueue>, s: Pool, j: Job, s': Pool, queues': seq<WorkerQueue>)
    requires ContentAgrees(queue, queues, s) && j !in s.tasks && s'.cfg == s.cfg
    requires s'.tasks == s.tasks[j := NewTask(Queued)] && LocalBag(queues') == LocalBag(queues)
    ensures ContentAgrees(queue + [j], queues', s')
  {
    hide LocalBag, Keys;
    WaitingGains(s, j, s');
  }

  lemma QueuedLocally(queue: seq<Job>, queues: seq<WorkerQueue>, s: Pool, j: Job, s': Pool, queues': seq<WorkerQueue>)
    requires ContentAgrees(queue, queues, s) && j !in s.tasks && s'.cfg == s.cfg && s.cfg.capacity.Some?
    requires s'.tasks == s.tasks[j := NewTask(Queued)] && LocalBag(queues') == LocalBag(queues) + multiset{j}
    ensures ContentAgrees(queue, queues', s')
  {
    hide LocalBag, Keys;
    WaitingGains(s, j, s');
  }

  lemma SameContent(queue: seq<Job>, queues: seq<WorkerQueue>, s: Pool, queues': seq<WorkerQueue>, s': Pool)
    requires ContentAgrees(queue, queues, s) && LocalBag(queues') == LocalBag(queues)
    requires s'.tasks == s.tasks && s'.cfg == s.cfg
    ensures ContentAgrees(queue, queues', s')
  {
  }

  lemma SameRegistry(queues: seq<WorkerQueue>, queues': seq<WorkerQueue>, next: Id, s: Pool, s': Pool)
    requires RegistryAgrees(queues, next, s) && s'.workers == s.workers
    requires Indices(queues') == Indices(queues) && (Distinct(queues) ==> Distinct(queues'))
    ensures RegistryAgrees(queues', next, s')
  {
  }

  lemma RegisteredWorker(queues: seq<WorkerQueue>, next: Id, s: Pool, w: Id)
    requires RegistryAgrees(queues, next, s) && w in s.workers && IsLive(s.workers[w])
    ensures Distinct(queues) && w in Indices(queues)
  {
  }

  /** A job found in the queues is a waiting job. */
  lemma WaitingMember(queue: seq<Job>, queues: seq<WorkerQueue>, queue': seq<Job>, queues': seq<WorkerQueue>,
      s: Pool, j: Job)
    requires ContentAgrees(queue, queues, s)
    requires multiset(queue) + LocalBag(queues) == multiset(queue') + LocalBag(queues') + multiset{j}
    ensures j in s.tasks && s.tasks[j].place == Queued
  {
    hide LocalBag;
    assert j in multiset(Keys(s.tasks, IsQueued));
  }

  lemma TakenContent(queue: seq<Job>, queues: seq<WorkerQueue>, queue': seq<Job>, queues': seq<WorkerQueue>,
                     s: Pool, w: Id, j: Job, s': Pool)
    requires ContentAgrees(queue, queues, s) && Take(s, w, j, s')
    requires multiset(queue) + LocalBag(queues) == multiset(queue') + LocalBag(queues') + multiset{j}
    requires s.cfg.capacity.None? ==> LocalBag(queues') == multiset{}
    ensures ContentAgrees(queue', queues', s')
  {
    hide LocalBag, Keys;
    WaitingLoses(s, w, j, s');
    Cancellation(multiset(queue') + LocalBag(queues'), multiset(Keys(s'.tasks, IsQueued)), j);
  }

  lemma Cancellation(a: multiset<Job>, b: multiset<Job>, j: Job)
    requires a + multiset{j} == b + multiset{j}
    ensures a == b
  {
    forall x
      ensures a[x] == b[x]
    {
      assert (a + multiset{j})[x] == (b + multiset{j})[x];
    }
  }

  /** No job in the queues means that no task is waiting. */
  lemma NothingWaits(queue: seq<Job>, queues: seq<WorkerQueue>, s: Pool)
    requires ContentAgrees(queue, queues, s) && multiset(queue) + LocalBag(queues) == multiset{}
    ensures QueuedCount(s) == 0
  {
    hide LocalBag;
    assert |multiset(Keys(s.tasks, IsQueued))| == 0;
  }

  lemma SwapRegistry(queues: seq<WorkerQueue>, queues': seq<WorkerQueue>, next: Id, s: Pool, w: Id, s': Pool)
    requires RegistryAgrees(queues, next, s) && w in s.workers && IsLive(s.workers[w])
    requires w in s'.workers && s'.workers == s.workers[w := s'.workers[w]] && IsLive(s'.workers[w])
    requires Indices(queues') == Indices(queues) && (Distinct(queues) ==> Distinct(queues'))
    ensures RegistryAgrees(queues', next, s')
  {
    LiveGains(s, w, s'.workers[w]);
  }

  lemma LeftContent(queue: seq<Job>, queues: seq<WorkerQueue>, queue': seq<Job>, queues': seq<WorkerQueue>, s: Pool,
      s': Pool)
    requires ContentAgrees(queue, queues, s) && s'.tasks == s.tasks && s'.cfg == s.cfg
    requires multiset(queue') + LocalBag(queues') == multiset(queue) + LocalBag(queues)
        && LocalBag(queues') <= LocalBag(queues)
    ensures ContentAgrees(queue', queues', s')
  {
    hide LocalBag, Keys;
  }

  lemma LeftRegistry(queues: seq<WorkerQueue>, queues': seq<WorkerQueue>, next: Id, s: Pool, w: Id)
    requires RegistryAgrees(queues, next, s) && w in s.workers
    requires Indices(queues') == Indices(queues) - {w} && Distinct(queues')
    ensures RegistryAgrees(queues', next, NotifyIfTerminated(s.(workers := s.workers[w := Exited])))
  {
    hide Count;
    LiveLoses(s, w);
    LiveNotified(s.(workers := s.workers[w := Exited]));
  }

  lemma FinishedContent(queue: seq<Job>, queues: seq<WorkerQueue>, next: Id, s: Pool, w: Id, mid: Pool, s': Pool)
    requires ContentAgrees(queue, queues, s) && RegistryAgrees(queues, next, s) && WorkersOk(s)
    requires w in s.workers && HasJob(s.workers[w])
    requires var j := s.workers[w].job;
      mid == s.(tasks := s.tasks[j := s.tasks[j].(place := Finished)], workers := s.workers[w := Looking])
    requires s' == NotifyIfTerminated(mid)
    ensures ContentAgrees(queue, queues, s') && RegistryAgrees(queues, next, s')
  {
    hide Count, LocalBag, Terminated;
    WaitingSame(s, mid);
    LiveGains(s, w, Looking);
    LiveNotified(mid);
  }

  lemma EmptyAgrees(s: Pool)
    requires s.tasks == map[] && s.workers == map[]
    ensures CountsAgree(Tally(0, 0, 0, 0, 0, 0, 0), s) && ContentAgrees([], [], s) && RegistryAgrees([], 0, s)
  {
    assert Keys(s.tasks, IsQueued) == {} && Keys(s.workers, IsLive) == {} && Indices([]) == {};
  }

  /** Without live workers no job is running. */
  lemma NoWorkerNoJob(s: Pool)
    requires Inv(s) && LiveCount(s) == 0
    ensures RunningCount(s) == 0
  {
    CountZero(s.workers, IsLive);
    assert forall w :: w in s.workers ==> !IsLive(s.workers[w]) && !HasJob(s.workers[w]);
    CountZero(s.workers, HasJob);
  }

}
