// The dynamic thread pool as an abstract machine.
//
// One event is one critical section of the pool's monitor, one notification or wake-up, or one step a thread takes
// outside the monitor (starting a callable, publishing its outcome, cancelling a drained job). Waiting jobs are a plain
// set here: how the queues order and spread them is the business of the class in ThreadPoolInner.dfy.

module PoolSpec {
  import opened Counting
  import opened Lifecycles
  import opened Completion

  type Job = int
  type Id = int

  datatype Place = Queued | Carried(w: Id) | Draining(c: Id) | Finished | Dropped

  // One accepted task: where its job is, its completion cell, how often its callable was invoked and what it yielded.
  datatype Task = Task(place: Place, cell: Cell, invoked: int, own: Option<Outcome>)

  // A live worker carries a job (before, during or after its callback), is about to look for one, waits on the
  // condition variable, or has left the wait set and must reacquire the monitor.
  datatype Phase =
    | Holding(job: Job)
    | Calling(job: Job)
    | Back(job: Job)
    | Looking
    | Parked(timed: bool)
    | Woken(timedOut: bool)
    | Exited

  datatype Config = Config(core: int, max: int, capacity: Option<int>, allowCoreTimeout: bool)

  // Submitters that still owe a `notify_one`, and threads waiting for termination.
  datatype Waits = Waits(owed: int, termParked: int, termWoken: int)

  datatype Pool = Pool(life: Life, cfg: Config, tasks: map<Job, Task>, workers: map<Id, Phase>, waits: Waits)

  // ---------------------------------------------------------------- counts

  predicate IsQueued(t: Task) { t.place.Queued? }
  predicate IsCarried(t: Task) { t.place.Carried? }
  predicate IsFinished(t: Task) { t.place.Finished? }
  predicate IsCancelled(t: Task) { t.place.Draining? || t.place.Dropped? }

  predicate HasJob(p: Phase) { p.Holding? || p.Calling? || p.Back? }
  predicate IsLive(p: Phase) { !p.Exited? }
  predicate IsIdle(p: Phase) { p.Parked? || p.Woken? }

  ghost function QueuedCount(s: Pool): int { Count(s.tasks, IsQueued) }
  ghost function RunningCount(s: Pool): int { Count(s.tasks, IsCarried) }
  ghost function LiveCount(s: Pool): int { Count(s.workers, IsLive) }
  ghost function IdleCount(s: Pool): int { Count(s.workers, IsIdle) }

  ghost predicate Saturated(s: Pool) {
    s.cfg.capacity.Some? && QueuedCount(s) >= s.cfg.capacity.value
  }

  ghost predicate Terminated(s: Pool) {
    s.life != Running && QueuedCount(s) == 0 && RunningCount(s) == 0 && LiveCount(s) == 0
  }

  ghost predicate WaitIsTimed(s: Pool) {
    s.cfg.allowCoreTimeout || LiveCount(s) > s.cfg.core
  }

  ghost predicate CanRetire(s: Pool) {
    LiveCount(s) > s.cfg.max || (WaitIsTimed(s) && (LiveCount(s) > s.cfg.core || s.cfg.allowCoreTimeout))
  }

  // ---------------------------------------------------------------- notifications

  function WakePhase(p: Phase): Phase {
    if p.Parked? then Woken(false) else p
  }

  function WakeWorkers(workers: map<Id, Phase>): map<Id, Phase> {
    map w | w in workers :: WakePhase(workers[w])
  }

  function WakeTermination(waits: Waits): Waits {
    waits.(termParked := 0, termWoken := waits.termWoken + waits.termParked)
  }

  /** `notify_all` under the monitor. */
  function NotifyAll(s: Pool): Pool {
    s.(workers := WakeWorkers(s.workers), waits := WakeTermination(s.waits))
  }

  ghost function NotifyIfTerminated(s: Pool): Pool {
    if Terminated(s) then NotifyAll(s) else s
  }

  // ---------------------------------------------------------------- submission

  function NewTask(p: Place): Task {
    Task(p, Fresh, 0, None)
  }

  ghost predicate SubmitSpawn(s: Pool, j: Job, w: Id, s': Pool) {
    && s.life == Running && j !in s.tasks && w !in s.workers
    && (LiveCount(s) < s.cfg.core || (Saturated(s) && LiveCount(s) < s.cfg.max))
    && s' == s.(tasks := s.tasks[j := NewTask(Carried(w))], workers := s.workers[w := Holding(j)])
  }

  ghost predicate SubmitQueue(s: Pool, j: Job, s': Pool) {
    && s.life == Running && j !in s.tasks && LiveCount(s) >= s.cfg.core && LiveCount(s) > 0 && !Saturated(s)
    && s' == s.(tasks := s.tasks[j := NewTask(Queued)],
                waits := s.waits.(owed := s.waits.owed + Bit(IdleCount(s) > 0)))
  }

  ghost predicate SubmitQueueSpawn(s: Pool, j: Job, w: Id, s': Pool) {
    && s.life == Running && j !in s.tasks && w !in s.workers
    && LiveCount(s) >= s.cfg.core && LiveCount(s) == 0 && !Saturated(s)
    && s' == s.(tasks := s.tasks[j := NewTask(Queued)], workers := s.workers[w := Looking])
  }

  ghost predicate Prestart(s: Pool, w: Id, s': Pool) {
    && s.life == Running && w !in s.workers && LiveCount(s) < s.cfg.core
    && s' == s.(workers := s.workers[w := Looking])
  }

  // ---------------------------------------------------------------- workers

  // A worker about to run the loop body of `wait_for_job`.
  ghost predicate Looks(s: Pool, w: Id) {
    w in s.workers && (s.workers[w].Looking? || s.workers[w].Woken?)
  }

  ghost predicate TimedOut(s: Pool, w: Id) {
    w in s.workers && s.workers[w] == Woken(true)
  }

  ghost predicate Take(s: Pool, w: Id, j: Job, s': Pool) {
    && Looks(s, w) && s.life != Stopping
    && j in s.tasks && s.tasks[j].place == Queued
    && s' == s.(tasks := s.tasks[j := s.tasks[j].(place := Carried(w))], workers := s.workers[w := Holding(j)])
  }

  ghost predicate Park(s: Pool, w: Id, s': Pool) {
    && Looks(s, w) && s.life == Running && QueuedCount(s) == 0
    && LiveCount(s) <= s.cfg.max && !(TimedOut(s, w) && CanRetire(s))
    && s' == s.(workers := s.workers[w := Parked(WaitIsTimed(s))])
  }

  ghost predicate MayExit(s: Pool, w: Id) {
    || s.life == Stopping
    || (QueuedCount(s) == 0 && (s.life == Shutdown || LiveCount(s) > s.cfg.max || (TimedOut(s, w) && CanRetire(s))))
  }

  ghost predicate Exit(s: Pool, w: Id, s': Pool) {
    && Looks(s, w) && MayExit(s, w)
    && s' == NotifyIfTerminated(s.(workers := s.workers[w := Exited]))
  }

  ghost predicate FinishJob(s: Pool, w: Id, s': Pool) {
    && w in s.workers && s.workers[w].Back? && s.workers[w].job in s.tasks
    && var j := s.workers[w].job;
    s' == NotifyIfTerminated(s.(tasks := s.tasks[j := s.tasks[j].(place := Finished)],
                                workers := s.workers[w := Looking]))
  }

  // ---------------------------------------------------------------- the callback of a carried job

  ghost predicate RunStart(s: Pool, w: Id, s': Pool) {
    && w in s.workers && s.workers[w].Holding? && s.workers[w].job in s.tasks
    && var j := s.workers[w].job;
    var t := s.tasks[j];
    var (won, cell) := Start(t.cell);
    s' == s.(tasks := s.tasks[j := t.(cell := cell, invoked := t.invoked + Bit(won))],
             workers := s.workers[w := if won then Calling(j) else Back(j)])
  }

  ghost predicate RunEnd(s: Pool, w: Id, r: Outcome, s': Pool) {
    && w in s.workers && s.workers[w].Calling? && s.workers[w].job in s.tasks && r != Cancelled
    && var j := s.workers[w].job;
    var t := s.tasks[j];
    s' == s.(tasks := s.tasks[j := t.(cell := Complete(t.cell, r).1, own := Some(r))],
             workers := s.workers[w := Back(j)])
  }

  // `TaskHandle::cancel`, called by anyone at any time.
  ghost predicate HandleCancel(s: Pool, j: Job, s': Pool) {
    && j in s.tasks
    && s' == s.(tasks := s.tasks[j := s.tasks[j].(cell := Cancel(s.tasks[j].cell).1)])
  }

  // ---------------------------------------------------------------- shutdown

  ghost predicate ShutdownStep(s: Pool, s': Pool) {
    s' == NotifyAll(s.(life := if s.life == Running then Shutdown else s.life))
  }

  function Drained(tasks: map<Job, Task>, c: Id): map<Job, Task> {
    map j | j in tasks :: if IsQueued(tasks[j]) then tasks[j].(place := Draining(c)) else tasks[j]
  }

  ghost predicate ShutdownNow(s: Pool, c: Id, s': Pool) {
    s' == NotifyAll(s.(life := Stopping, tasks := Drained(s.tasks, c)))
  }

  ghost predicate CancelDrained(s: Pool, c: Id, j: Job, s': Pool) {
    && j in s.tasks && s.tasks[j].place == Draining(c)
    && s' == s.(tasks := s.tasks[j := s.tasks[j].(place := Dropped, cell := Cancel(s.tasks[j].cell).1)])
  }

  // ---------------------------------------------------------------- resizing

  ghost predicate Resize(s: Pool, core: int, max: int, allow: bool, s': Pool) {
    && 0 <= core <= max && 1 <= max
    && s' == s.(cfg := s.cfg.(core := core, max := max, allowCoreTimeout := allow))
  }

  // ---------------------------------------------------------------- the condition variable

  // A `notify_one` reaches one parked thread, if there is any.
  ghost predicate NotifyWorker(s: Pool, w: Id, s': Pool) {
    && s.waits.owed > 0 && w in s.workers && s.workers[w].Parked?
    && s' == s.(workers := s.workers[w := Woken(false)], waits := s.waits.(owed := s.waits.owed - 1))
  }

  ghost predicate NotifyTermination(s: Pool, s': Pool) {
    && s.waits.owed > 0 && s.waits.termParked > 0
    && s' == s.(waits := s.waits.(owed := s.waits.owed - 1, termParked := s.waits.termParked - 1,
                                  termWoken := s.waits.termWoken + 1))
  }

  ghost predicate NotifyNobody(s: Pool, s': Pool) {
    && s.waits.owed > 0 && s.waits.termParked == 0 && (forall w :: w in s.workers ==> !s.workers[w].Parked?)
    && s' == s.(waits := s.waits.(owed := s.waits.owed - 1))
  }

  // A wait may also end by itself: spuriously, by a setter's late notification, or by timeout.
  ghost predicate Wake(s: Pool, w: Id, timedOut: bool, s': Pool) {
    && w in s.workers && s.workers[w].Parked? && (timedOut ==> s.workers[w].timed)
    && s' == s.(workers := s.workers[w := Woken(timedOut)])
  }

  ghost predicate WakeTerm(s: Pool, s': Pool) {
    && s.waits.termParked > 0
    && s' == s.(waits := s.waits.(termParked := s.waits.termParked - 1, termWoken := s.waits.termWoken + 1))
  }

  // `wait_for_termination`: park unless terminated, and check again after every wake-up.
  ghost predicate AwaitTerm(s: Pool, s': Pool) {
    !Terminated(s) && s' == s.(waits := s.waits.(termParked := s.waits.termParked + 1))
  }

  ghost predicate RecheckTerm(s: Pool, s': Pool) {
    && s.waits.termWoken > 0
    && s' == s.(waits := s.waits.(termWoken := s.waits.termWoken - 1,
                                  termParked := s.waits.termParked + Bit(!Terminated(s))))
  }

  // ---------------------------------------------------------------- runs

  datatype Event =
    | ESubmitSpawn(j: Job, w: Id) | ESubmitQueue(j: Job) | ESubmitQueueSpawn(j: Job, w: Id) | EPrestart(w: Id)
    | ETake(w: Id, j: Job) | EPark(w: Id) | EExit(w: Id) | EFinish(w: Id)
    | ERunStart(w: Id) | ERunEnd(w: Id, r: Outcome) | EHandleCancel(j: Job)
    | EShutdown | EShutdownNow(c: Id) | ECancelDrained(c: Id, j: Job)
    | EResize(core: int, max: int, allow: bool)
    | ENotifyWorker(w: Id) | ENotifyTermination | ENotifyNobody
    | EWake(w: Id, timedOut: bool) | EWakeTerm | EAwaitTerm | ERecheckTerm

  ghost predicate Step(s: Pool, e: Event, s': Pool) {
    match e
    case ESubmitSpawn(j, w) => SubmitSpawn(s, j, w, s')
    case ESubmitQueue(j) => SubmitQueue(s, j, s')
    case ESubmitQueueSpawn(j, w) => SubmitQueueSpawn(s, j, w, s')
    case EPrestart(w) => Prestart(s, w, s')
    case ETake(w, j) => Take(s, w, j, s')
    case EPark(w) => Park(s, w, s')
    case EExit(w) => Exit(s, w, s')
    case EFinish(w) => FinishJob(s, w, s')
    case ERunStart(w) => RunStart(s, w, s')
    case ERunEnd(w, r) => RunEnd(s, w, r, s')
    case EHandleCancel(j) => HandleCancel(s, j, s')
    case EShutdown => ShutdownStep(s, s')
    case EShutdownNow(c) => ShutdownNow(s, c, s')
    case ECancelDrained(c, j) => CancelDrained(s, c, j, s')
    case EResize(core, max, allow) => Resize(s, core, max, allow, s')
    case ENotifyWorker(w) => NotifyWorker(s, w, s')
    case ENotifyTermination => NotifyTermination(s, s')
    case ENotifyNobody => NotifyNobody(s, s')
    case EWake(w, timedOut) => Wake(s, w, timedOut, s')
    case EWakeTerm => WakeTerm(s, s')
    case EAwaitTerm => AwaitTerm(s, s')
    case ERecheckTerm => RecheckTerm(s, s')
  }

  ghost predicate Init(s: Pool) {
    && s.life == Running && 0 <= s.cfg.core <= s.cfg.max && 1 <= s.cfg.max
    && (s.cfg.capacity.Some? ==> s.cfg.capacity.value >= 1)
    && s.tasks == map[] && s.workers == map[] && s.waits == Waits(0, 0, 0)
  }

  ghost predicate Next(s: Pool, s': Pool) {
    exists e :: Step(s, e, s')
  }

  ghost predicate IsRun(run: seq<Pool>) {
    && |run| > 0
    && Init(run[0])
    && forall i :: 0 <= i < |run| - 1 ==> Next(run[i], run[i + 1])
  }
}
