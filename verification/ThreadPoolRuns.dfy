// Runs of the dynamic pool with the code's own counters and queues as state, failed prestarts included.
//
// A snapshot pairs the locked record with the abstract pool. The events that the guards allow move the abstract pool;
// the record moves by the increments, decrements and queue operations of the code. Whether the two agree has to be
// proved.

module ThreadPoolRuns {
  import opened Counting
  import opened Lifecycles
  import opened Completion
  import opened PoolSpec
  import opened PoolInvariant
  import opened ThreadPoolQueues
  import opened ThreadPoolRecord
  import PoolTheorems

  datatype Record = Record(t: Tally, queue: seq<Job>, queues: seq<WorkerQueue>, next: Id)

  datatype Snapshot = Snapshot(rec: Record, spec: Pool)

  // What happens next: an event, a submission or a prestart whose spawn fails, or a worker whose checked subtraction
  // panics when it reports its job as finished; that worker's thread is gone and its job is never accounted for.
  datatype Label = Does(e: Event) | SkipsIndex | FailsPrestart | Panics(w: Id)

  const NoCounts := Tally(0, 0, 0, 0, 0, 0, 0)

  ghost predicate Agrees(r: Record, s: Pool) {
    CountsAgree(r.t, s) && ContentAgrees(r.queue, r.queues, s) && RegistryAgrees(r.queues, r.next, s)
  }

  /** `is_terminated`, from the counters alone. */
  predicate SaysTerminated(t: Tally, life: Life) {
    life != Running && t.queued == 0 && t.running == 0 && t.live == 0
  }

  // ---------------------------------------------------------------- queues and registrations

  predicate SpawnsWorker(e: Event) {
    e.ESubmitSpawn? || e.ESubmitQueueSpawn? || e.EPrestart?
  }

  /** A job submitted to live workers: to the back of a local queue in a bounded pool without idle workers, else of the
      global one. */
  ghost predicate Placed(r: Record, s: Pool, j: Job, r': Record) {
    if s.cfg.capacity.Some? && r.t.idle == 0 then
      r'.queue == r.queue && exists i :: AtBack(r.queues, i, j, r'.queues)
    else
      r'.queue == r.queue + [j] && r'.queues == r.queues
  }

  /** The leaver's queue disappears and its jobs go to the back of the global queue. */
  ghost predicate Unregistered(r: Record, w: Id, i: int, r': Record) {
    RemovedAt(r.queues, i, w, r'.queues) && r'.queue == r.queue + r.queues[i].jobs
  }

  /** How the code's queues and registrations change with an event. */
  ghost predicate QueuesMove(r: Record, s: Pool, e: Event, r': Record) {
    && r'.next == (if SpawnsWorker(e) then r.next + 1 else r.next)
    && match e
       case ESubmitSpawn(_, w) => w == r.next && r'.queue == r.queue && r'.queues == r.queues + [WorkerQueue(w, [])]
       case EPrestart(w) => w == r.next && r'.queue == r.queue && r'.queues == r.queues + [WorkerQueue(w, [])]
       case ESubmitQueueSpawn(j, w) =>
         w == r.next && r'.queue == r.queue + [j] && r'.queues == r.queues + [WorkerQueue(w, [])]
       case ESubmitQueue(j) => Placed(r, s, j, r')
       case ETake(w, j) =>
         && TookNext(r.queue, r.queues, w, j, r'.queue, r'.queues)
         && (s.cfg.capacity.None? ==> r'.queues == r.queues)
       case EExit(w) => exists i :: Unregistered(r, w, i, r')
       case EShutdownNow(_) => r'.queue == [] && Emptied(r.queues, r'.queues)
       case _ => r'.queue == r.queue && r'.queues == r.queues
  }

  // ---------------------------------------------------------------- steps and runs

  /** One step of the code, in any state its counters may be in. */
  ghost predicate CodeStep(c: Snapshot, l: Label, c': Snapshot) {
    match l
    case Does(e) =>
      && Step(c.spec, e, c'.spec)
      && (e.EFinish? ==> c.rec.t.running > 0)
      && c'.rec.t == Follow(c.rec.t, c.spec, e)
      && QueuesMove(c.rec, c.spec, e, c'.rec)
    case SkipsIndex => c.spec.life == Running && c' == c.(rec := c.rec.(next := c.rec.next + 1))
    case FailsPrestart =>
      && c.spec.life == Running && c.rec.t.live < c.spec.cfg.core
      && c' == c.(rec := c.rec.(next := c.rec.next + 1, t := c.rec.t.(running := Rollback(c.rec.t.running))))
    case Panics(w) => w in c.spec.workers && c.spec.workers[w].Back? && c.rec.t.running == 0 && c' == c
  }

  /** The spawn-failure branch: one less, unless there is nothing to take away. */
  function Rollback(running: int): int {
    if running > 0 then running - 1 else running
  }

  ghost predicate CodeRun(run: seq<Snapshot>, labels: seq<Label>) {
    && |run| == |labels| + 1
    && run[0].rec == Record(NoCounts, [], [], 0) && Init(run[0].spec)
    && forall i :: 0 <= i < |labels| ==> CodeStep(run[i], labels[i], run[i + 1])
  }

  /** A prestart fails while the counters say that a job is running. */
  predicate Slip(c: Snapshot, l: Label) {
    l.FailsPrestart? && c.rec.t.running > 0
  }

  /** How many such prestarts happened before state `k`. */
  ghost function Slips(run: seq<Snapshot>, labels: seq<Label>, k: nat): nat
    requires |run| == |labels| + 1 && k <= |labels|
  {
    if k == 0 then 0 else Slips(run, labels, k - 1) + Bit(Slip(run[k - 1], labels[k - 1]))
  }

  // ---------------------------------------------------------------- what every step keeps

  /** Everything agrees, except that the running count is short by the number of slips. */
  ghost predicate CodeInv(c: Snapshot, slips: int) {
    && Inv(c.spec) && c.rec.t.running >= 0
    && Agrees(c.rec.(t := c.rec.t.(running := c.rec.t.running + slips)), c.spec)
  }

  lemma FollowIsAdditive(t: Tally, s: Pool, e: Event, slips: int)
    ensures Follow(t.(running := t.running + slips), s, e) ==
            Follow(t, s, e).(running := Follow(t, s, e).running + slips)
  {
  }

  /** The queue operations of one event keep the queues in step with the waiting tasks and the live workers. */
  ghost predicate QueuesAgree(r: Record, s: Pool) {
    ContentAgrees(r.queue, r.queues, s) && RegistryAgrees(r.queues, r.next, s)
  }

  lemma SpawnKeepsQueues(r: Record, s: Pool, e: Event, r': Record, s': Pool)
    requires QueuesAgree(r, s) && Step(s, e, s') && QueuesMove(r, s, e, r') && SpawnsWorker(e)
    ensures QueuesAgree(r', s')
  {
    hide Count, LocalBag, ContentAgrees, RegistryAgrees;
    SkipIndex(r.queues, r.next, s);
    SpawnRegistry(r.queues, r.next, s, s'.workers[e.w], s');
    match e
    case ESubmitSpawn(j, w) => CarriedNotQueued(r.queue, r.queues, s, j, w, s');
    case ESubmitQueueSpawn(j, _) => QueuedGlobally(r.queue, r.queues, s, j, s', r'.queues);
    case EPrestart(_) => SameContent(r.queue, r.queues, s, r'.queues, s');
  }

  lemma PlaceKeepsQueues(r: Record, s: Pool, j: Job, r': Record, s': Pool)
    requires QueuesAgree(r, s) && SubmitQueue(s, j, s') && Placed(r, s, j, r') && r'.next == r.next
    ensures QueuesAgree(r', s')
  {
    hide Count, LocalBag, ContentAgrees, RegistryAgrees, Indices, Distinct;
    if s.cfg.capacity.Some? && r.t.idle == 0 {
      var i :| AtBack(r.queues, i, j, r'.queues);
      BagOfUpdate(r.queues, i, r.queues[i].jobs + [j]);
      QueuedLocally(r.queue, r.queues, s, j, s', r'.queues);
    } else {
      QueuedGlobally(r.queue, r.queues, s, j, s', r'.queues);
    }
    SameRegistry(r.queues, r'.queues, r.next, s, s');
  }

  /** Taking the next job takes exactly that job out of the bag of pending jobs. */
  lemma NextLeavesBag(queue: seq<Job>, queues: seq<WorkerQueue>, w: Id, j: Job, queue': seq<Job>,
      queues': seq<WorkerQueue>)
    requires TookNext(queue, queues, w, j, queue', queues')
    ensures multiset(queue) + LocalBag(queues) == multiset(queue') + LocalBag(queues') + multiset{j}
    ensures Indices(queues') == Indices(queues) && (Distinct(queues) ==> Distinct(queues'))
  {
    hide LocalBag, Indices, Distinct;
    if queue == [j] + queue' && queues' == queues {
      FrontOf(queue);
    } else {
      var i :| FrontTaken(queues, i, j, queues');
      BagOfUpdate(queues, i, queues[i].jobs[1..]);
      FrontOf(queues[i].jobs);
    }
  }

  lemma TakeKeepsQueues(r: Record, s: Pool, w: Id, j: Job, r': Record, s': Pool)
    requires QueuesAgree(r, s) && Take(s, w, j, s') && QueuesMove(r, s, ETake(w, j), r')
    ensures QueuesAgree(r', s')
  {
    hide Count, LocalBag, RegistryAgrees, Indices, Distinct, TookNext;
    NextLeavesBag(r.queue, r.queues, w, j, r'.queue, r'.queues);
    TakenContent(r.queue, r.queues, r'.queue, r'.queues, s, w, j, s');
    SwapRegistry(r.queues, r'.queues, r.next, s, w, s');
  }

  lemma ExitKeepsQueues(r: Record, s: Pool, w: Id, r': Record, s': Pool)
    requires QueuesAgree(r, s) && Exit(s, w, s') && QueuesMove(r, s, EExit(w), r')
    ensures QueuesAgree(r', s')
  {
    hide Count, LocalBag, ContentAgrees, Indices, Distinct;
    var i :| Unregistered(r, w, i, r');
    BagOfRemove(r.queues, i);
    LeftContent(r.queue, r.queues, r'.queue, r'.queues, s, s');
    LeftRegistry(r.queues, r'.queues, r.next, s, w);
  }

  lemma DrainKeepsQueues(r: Record, s: Pool, c: Id, r': Record, s': Pool)
    requires QueuesAgree(r, s) && ShutdownNow(s, c, s') && QueuesMove(r, s, EShutdownNow(c), r')
    ensures QueuesAgree(r', s')
  {
    hide Count, LocalBag;
    BagEmpty(r'.queues);
    LiveNotified(s.(life := Stopping, tasks := Drained(s.tasks, c)));
    assert Keys(s'.tasks, IsQueued) == {};
    SameIndices(r.queues, r'.queues);
  }

  lemma ParkKeepsQueues(r: Record, s: Pool, w: Id, r': Record, s': Pool)
    requires QueuesAgree(r, s) && Park(s, w, s') && QueuesMove(r, s, EPark(w), r')
    ensures QueuesAgree(r', s')
  {
    hide Count, LocalBag;
    SameContent(r.queue, r.queues, s, r'.queues, s');
    SwapRegistry(r.queues, r'.queues, r.next, s, w, s');
  }

  lemma FinishKeepsQueues(r: Record, s: Pool, w: Id, r': Record, s': Pool)
    requires Inv(s) && QueuesAgree(r, s) && FinishJob(s, w, s') && QueuesMove(r, s, EFinish(w), r')
    ensures QueuesAgree(r', s')
  {
    hide Count, LocalBag, ContentAgrees, RegistryAgrees;
    var j := s.workers[w].job;
    var mid := s.(tasks := s.tasks[j := s.tasks[j].(place := Finished)], workers := s.workers[w := Looking]);
    FinishedContent(r.queue, r.queues, r.next, s, w, mid, s');
  }

  /** Whatever happens elsewhere leaves counters and queues in agreement, although they do not move. */
  lemma QuietKeepsAgreement(r: Record, s: Pool, e: Event, s': Pool)
    requires Agrees(r, s) && Step(s, e, s') && IsQuiet(e)
    ensures Agrees(r, s')
  {
    hide Step, Count, CountsAgree, ContentAgrees, RegistryAgrees, Alike;
    QuietIsAlike(s, e, s');
    AlikeAgrees(r.t, r.queue, r.queues, r.next, s, s');
  }

  lemma QueuesFollow(r: Record, s: Pool, e: Event, r': Record, s': Pool)
    requires Inv(s) && Agrees(r, s) && Step(s, e, s') && QueuesMove(r, s, e, r')
    ensures QueuesAgree(r', s')
  {
    hide Inv, CountsAgree, ContentAgrees, RegistryAgrees;
    match e
    case ESubmitSpawn(_, _) => SpawnKeepsQueues(r, s, e, r', s');
    case ESubmitQueueSpawn(_, _) => SpawnKeepsQueues(r, s, e, r', s');
    case EPrestart(_) => SpawnKeepsQueues(r, s, e, r', s');
    case ESubmitQueue(j) => PlaceKeepsQueues(r, s, j, r', s');
    case ETake(w, j) => TakeKeepsQueues(r, s, w, j, r', s');
    case EPark(w) => ParkKeepsQueues(r, s, w, r', s');
    case EExit(w) => ExitKeepsQueues(r, s, w, r', s');
    case EFinish(w) => FinishKeepsQueues(r, s, w, r', s');
    case EShutdownNow(c) => DrainKeepsQueues(r, s, c, r', s');
    case _ => QuietKeepsAgreement(r, s, e, s');
  }

  lemma CountsFollowAll(t: Tally, s: Pool, e: Event, s': Pool)
    requires CountsAgree(t, s) && WorkersOk(s) && Step(s, e, s')
    ensures CountsAgree(Follow(t, s, e), s')
  {
    hide CountsAgree, WorkersOk;
    match e
    case EExit(w) => CountsFollowExit(t, s, w, s');
    case EFinish(w) => CountsFollowFinish(t, s, w, s');
    case EShutdownNow(c) => CountsFollowDrain(t, s, c, s');
    case ESubmitSpawn(_, _) => CountsFollow(t, s, e, s');
    case ESubmitQueue(_) => CountsFollow(t, s, e, s');
    case ESubmitQueueSpawn(_, _) => CountsFollow(t, s, e, s');
    case EPrestart(_) => CountsFollow(t, s, e, s');
    case ETake(_, _) => CountsFollow(t, s, e, s');
    case EPark(_) => CountsFollow(t, s, e, s');
    case _ =>
      QuietIsAlike(s, e, s');
      AlikeCounts(t, s, s');
  }

  ghost function WithSlips(r: Record, slips: int): Record {
    r.(t := r.t.(running := r.t.running + slips))
  }

  lemma EventKeeps(c: Snapshot, e: Event, c': Snapshot, slips: int)
    requires CodeInv(c, slips) && CodeStep(c, Does(e), c')
    ensures CodeInv(c', slips)
  {
    hide Inv, CountsAgree, ContentAgrees, RegistryAgrees, Step, QueuesMove;
    PoolInvariant.StepKeeps(c.spec, e, c'.spec);
    var r := WithSlips(c.rec, slips);
    assert QueuesMove(r, c.spec, e, c'.rec) by { SlipsMoveNothing(c.rec, c.spec, e, c'.rec, slips); }
    QueuesFollow(r, c.spec, e, c'.rec, c'.spec);
    CountsFollowAll(r.t, c.spec, e, c'.spec) by { InvParts(c.spec); }
    FollowIsAdditive(c.rec.t, c.spec, e, slips);
    assert c'.rec.t.running >= 0;
  }

  lemma InvParts(s: Pool)
    requires Inv(s)
    ensures WorkersOk(s) && SizesOk(s)
  {
  }

  lemma SlipsMoveNothing(r: Record, s: Pool, e: Event, r': Record, slips: int)
    requires QueuesMove(r, s, e, r')
    ensures QueuesMove(WithSlips(r, slips), s, e, r')
  {
    hide TookNext, AtBack;
    if e.EExit? {
      var i :| Unregistered(r, e.w, i, r');
      assert Unregistered(WithSlips(r, slips), e.w, i, r');
    }
  }

  /** Every step of the code keeps everything in agreement; each slip makes the running count one shorter. */
  lemma CodeStepKeeps(c: Snapshot, l: Label, c': Snapshot, slips: int)
    requires CodeInv(c, slips) && CodeStep(c, l, c')
    ensures CodeInv(c', slips + Bit(Slip(c, l)))
  {
    hide Inv, CountsAgree, ContentAgrees, RegistryAgrees;
    match l
    case Does(e) => EventKeeps(c, e, c', slips);
    case SkipsIndex => SkipIndex(c.rec.queues, c.rec.next, c.spec);
    case FailsPrestart =>
      SkipIndex(c.rec.queues, c.rec.next, c.spec);
      assert c'.rec.t.running + slips + Bit(Slip(c, l)) == c.rec.t.running + slips;
    case Panics(_) =>
  }

  lemma {:induction false} EverySnapshot(run: seq<Snapshot>, labels: seq<Label>, k: nat)
    requires CodeRun(run, labels) && k <= |labels|
    ensures CodeInv(run[k], Slips(run, labels, k))
  {
    hide CodeInv, CodeStep, Init;
    if k == 0 {
      FirstSnapshot(run[0]);
    } else {
      EverySnapshot(run, labels, k - 1);
      assert CodeStep(run[k - 1], labels[k - 1], run[k - 1 + 1]);
      CodeStepKeeps(run[k - 1], labels[k - 1], run[k], Slips(run, labels, k - 1));
    }
  }

  lemma FirstSnapshot(c: Snapshot)
    requires c.rec == Record(NoCounts, [], [], 0) && Init(c.spec)
    ensures CodeInv(c, 0)
  {
    InitKeeps(c.spec);
    EmptyAgrees(c.spec);
  }

  // ---------------------------------------------------------------- exactly once

  /** Exactly once, for the code's own counters and queues, in every state of every run: the queued count is what the
      queues hold, every waiting job is in them once, no capacity is exceeded, and the accepted jobs are the queued,
      running, completed and cancelled ones, with the running count short by one for each slip. */
  lemma ExactlyOnce(run: seq<Snapshot>, labels: seq<Label>, k: nat, j: Job)
    requires CodeRun(run, labels) && k <= |labels|
    ensures var r, s, slips := run[k].rec, run[k].spec, Slips(run, labels, k);
      && r.t.queued == |r.queue| + |LocalBag(r.queues)|
      && (s.cfg.capacity.Some? ==> r.t.queued <= s.cfg.capacity.value)
      && (s.cfg.capacity.None? ==> AllEmpty(r.queues))
      && (multiset(r.queue) + LocalBag(r.queues))[j] == Bit(j in s.tasks && IsQueued(s.tasks[j]))
      && 0 <= r.t.running && r.t.running + slips == Count(s.workers, HasJob) <= r.t.live
      && r.t.submitted == |s.tasks.Keys| == r.t.queued + r.t.running + slips + r.t.completed + r.t.cancelled
      && 0 <= r.t.idle && 0 <= r.t.completed && 0 <= r.t.cancelled
  {
    EverySnapshot(run, labels, k);
    AddsUp(WithSlips(run[k].rec, Slips(run, labels, k)), run[k].spec, j);
  }

  lemma AddsUp(r: Record, s: Pool, j: Job)
    requires Agrees(r, s) && Inv(s)
    ensures r.t.queued == |r.queue| + |LocalBag(r.queues)|
    ensures s.cfg.capacity.Some? ==> r.t.queued <= s.cfg.capacity.value
    ensures s.cfg.capacity.None? ==> AllEmpty(r.queues)
    ensures (multiset(r.queue) + LocalBag(r.queues))[j] == Bit(j in s.tasks && IsQueued(s.tasks[j]))
    ensures r.t.running == Count(s.workers, HasJob) <= r.t.live
    ensures r.t.submitted == |s.tasks.Keys| == r.t.queued + r.t.running + r.t.completed + r.t.cancelled
    ensures 0 <= r.t.idle && 0 <= r.t.completed && 0 <= r.t.cancelled
  {
    var waiting := Keys(s.tasks, IsQueued);
    assert |multiset(r.queue) + LocalBag(r.queues)| == |multiset(waiting)| == |waiting|;
    BagEmpty(r.queues);
    hide LocalBag, Count;
    PoolTheorems.Conservation(s);
    CountImplies(s.workers, HasJob, IsLive);
  }

  /** The counters are right in state `k` exactly when no prestart failed before it while a job was running. */
  lemma ConsistentExactlyWhen(run: seq<Snapshot>, labels: seq<Label>, k: nat)
    requires CodeRun(run, labels) && k <= |labels|
    ensures Agrees(run[k].rec, run[k].spec) <==> forall i :: 0 <= i < k ==> !Slip(run[i], labels[i])
  {
    EverySnapshot(run, labels, k);
    NoSlips(run, labels, k);
    hide ContentAgrees, RegistryAgrees, Inv, Count;
  }

  lemma {:induction false} NoSlips(run: seq<Snapshot>, labels: seq<Label>, k: nat)
    requires |run| == |labels| + 1 && k <= |labels|
    ensures Slips(run, labels, k) == 0 <==> forall i :: 0 <= i < k ==> !Slip(run[i], labels[i])
  {
    if k > 0 {
      NoSlips(run, labels, k - 1);
    }
  }

  // ---------------------------------------------------------------- termination, with and without slips

  /** The code's own answer to `is_terminated` is the truth in every state, also in states whose running count is
      short. */
  lemma TerminationIsTruthful(run: seq<Snapshot>, labels: seq<Label>, k: nat)
    requires CodeRun(run, labels) && k <= |labels|
    ensures SaysTerminated(run[k].rec.t, run[k].spec.life) <==> Terminated(run[k].spec)
    ensures Terminated(run[k].spec) ==> Slips(run, labels, k) == 0
  {
    EverySnapshot(run, labels, k);
    hide CountsAgree, ContentAgrees, RegistryAgrees, Inv;
    ExactlyOnce(run, labels, k, 0);
    assert CountsAgree(WithSlips(run[k].rec, Slips(run, labels, k)).t, run[k].spec);
    RunningIsLive(WithSlips(run[k].rec, Slips(run, labels, k)).t, run[k].spec);
  }

  lemma RunningIsLive(t: Tally, s: Pool)
    requires CountsAgree(t, s)
    ensures t.queued == QueuedCount(s) && t.running == RunningCount(s) && t.live == LiveCount(s)
  {
  }

  lemma {:induction false} SlipsStay(run: seq<Snapshot>, labels: seq<Label>, i: nat, k: nat)
    requires CodeRun(run, labels) && i <= k <= |labels|
    ensures Slips(run, labels, i) <= Slips(run, labels, k)
    decreases k
  {
    hide CodeStep;
    if i < k {
      SlipsStay(run, labels, i, k - 1);
    }
  }

  lemma SlipCounts(run: seq<Snapshot>, labels: seq<Label>, i: nat)
    requires CodeRun(run, labels) && i < |labels| && Slip(run[i], labels[i])
    ensures Slips(run, labels, i + 1) >= 1
  {
    hide CodeStep;
  }

  /** After one slip the pool never terminates: some job stays carried, its worker stays live, and the code never
      answers that it is done, whatever is shut down. */
  lemma NeverTerminates(run: seq<Snapshot>, labels: seq<Label>, i: nat, k: nat)
    requires CodeRun(run, labels) && i < k <= |labels| && Slip(run[i], labels[i])
    ensures RunningCount(run[k].spec) > run[k].rec.t.running && run[k].rec.t.live > 0
    ensures !Terminated(run[k].spec) && !SaysTerminated(run[k].rec.t, run[k].spec.life)
  {
    hide CodeRun, Slips, Slip, Count, LocalBag, AllEmpty, HasJob, Terminated, SaysTerminated, RunningCount, IsQueued;
    SlipCounts(run, labels, i);
    SlipsStay(run, labels, i + 1, k);
    ExactlyOnce(run, labels, k, 0);
    ShortBySlips(run, labels, k);
    TerminationIsTruthful(run, labels, k);
  }

  lemma ShortBySlips(run: seq<Snapshot>, labels: seq<Label>, k: nat)
    requires CodeRun(run, labels) && k <= |labels|
    ensures RunningCount(run[k].spec) == run[k].rec.t.running + Slips(run, labels, k)
  {
    EverySnapshot(run, labels, k);
    hide CodeRun, Slips, Inv, ContentAgrees, RegistryAgrees;
  }

  /** When the report of a finished job panics: exactly when every running job is one of those the counter lost. */
  lemma PanicsExactlyWhen(run: seq<Snapshot>, labels: seq<Label>, k: nat, w: Id)
    requires CodeRun(run, labels) && k <= |labels|
    requires w in run[k].spec.workers && run[k].spec.workers[w].Back?
    ensures CodeStep(run[k], Panics(w), run[k]) <==> RunningCount(run[k].spec) == Slips(run, labels, k)
    ensures Slips(run, labels, k) == 0 ==> !CodeStep(run[k], Panics(w), run[k])
  {
    EverySnapshot(run, labels, k);
    hide ContentAgrees, RegistryAgrees;
    CountPositive(run[k].spec.workers, w, HasJob);
    ExactlyOnce(run, labels, k, 0);
  }

  lemma ExtendRun(run: seq<Snapshot>, labels: seq<Label>, l: Label, c: Snapshot)
    requires CodeRun(run, labels) && CodeStep(run[|run| - 1], l, c)
    ensures CodeRun(run + [c], labels + [l])
  {
    hide CodeStep, Init;
    var run', labels' := run + [c], labels + [l];
    forall i | 0 <= i < |labels'|
      ensures CodeStep(run'[i], labels'[i], run'[i + 1])
    {
      assert i < |labels| ==> CodeStep(run[i], labels[i], run[i + 1]);
    }
  }

  /** A prestart fails below the core size while a job is running. */
  lemma SlippingRun() returns (run: seq<Snapshot>, labels: seq<Label>)
    ensures CodeRun(run, labels) && |run| == 3 && |labels| == 2 && Slip(run[1], labels[1])
    ensures run[2].rec == Record(NoCounts.(live := 1, submitted := 1), [], [WorkerQueue(0, [])], 2)
    ensures run[2].spec == Pool(Running, Config(2, 2, None, false), map[7 := NewTask(Carried(0))], map[0 := Holding(7)],
                                Waits(0, 0, 0))
  {
    hide Count, CodeRun, LocalBag;
    var s0 := Pool(Running, Config(2, 2, None, false), map[], map[], Waits(0, 0, 0));
    var c0 := Snapshot(Record(NoCounts, [], [], 0), s0);
    assert CodeRun([c0], []) by { StartRun(c0); }
    CountZero(s0.workers, IsLive);
    var s1 := s0.(tasks := s0.tasks[7 := NewTask(Carried(0))], workers := s0.workers[0 := Holding(7)]);
    var t1 := NoCounts.(running := 1, live := 1, submitted := 1);
    var c1 := Snapshot(Record(t1, [], [WorkerQueue(0, [])], 1), s1);
    assert CodeStep(c0, Does(ESubmitSpawn(7, 0)), c1);
    ExtendRun([c0], [], Does(ESubmitSpawn(7, 0)), c1);
    run, labels := [c0] + [c1], [] + [Does(ESubmitSpawn(7, 0))];
    var c2 := Snapshot(Record(t1.(running := 0), [], [WorkerQueue(0, [])], 2), s1);
    ExtendRun(run, labels, FailsPrestart, c2);
    run, labels := run + [c2], labels + [FailsPrestart];
  }

  /** It happens: after that failed prestart, reporting the job as finished panics. */
  lemma PanickingRun() returns (run: seq<Snapshot>, labels: seq<Label>)
    ensures CodeRun(run, labels) && |labels| == 5 && labels[4].Panics?
  {
    hide Count, CodeRun, LocalBag;
    run, labels := SlippingRun();
    var c2 := run[2];
    var started := c2.spec.tasks[7].(cell := Cell(true, false, []), invoked := 1);
    var c3 := c2.(spec := c2.spec.(tasks := c2.spec.tasks[7 := started], workers := c2.spec.workers[0 := Calling(7)]));
    assert CodeStep(c2, Does(ERunStart(0)), c3);
    ExtendRun(run, labels, Does(ERunStart(0)), c3);
    run, labels := run + [c3], labels + [Does(ERunStart(0))];
    var done := started.(cell := Complete(started.cell, Value(1)).1, own := Some(Value(1)));
    var c4 := c3.(spec := c3.spec.(tasks := c3.spec.tasks[7 := done], workers := c3.spec.workers[0 := Back(7)]));
    assert CodeStep(c3, Does(ERunEnd(0, Value(1))), c4);
    ExtendRun(run, labels, Does(ERunEnd(0, Value(1))), c4);
    run, labels := run + [c4], labels + [Does(ERunEnd(0, Value(1)))];
    ExtendRun(run, labels, Panics(0), c4);
    run, labels := run + [c4], labels + [Panics(0)];
  }

  lemma StartRun(c: Snapshot)
    requires c.rec == Record(NoCounts, [], [], 0) && Init(c.spec)
    ensures CodeRun([c], [])
  {
  }
}
