// What every step of the fixed pool keeps.

module FixedPoolInvariant {
  import opened Counting
  import opened Lifecycles
  import opened FixedPool

  // ---------------------------------------------------------------- classification of positions and places

  ghost predicate InFlight(pc: SubmitPc) {
    !pc.Checked? && !pc.Returned?
  }

  ghost predicate HoldsSlot(pc: SubmitPc) {
    pc.Reserved? || pc.Rollback? || pc.Committed?
  }

  // Positions reached only after the gate was seen open for the second time.
  ghost predicate Inside(pc: SubmitPc) {
    InFlight(pc) && !pc.Incremented? && !pc.Backing?
  }

  // Positions reached only after the gate was seen open for the third time: the job will be published.
  ghost predicate WillPublish(pc: SubmitPc) {
    pc.Committed? || pc.Probe? || pc.Push?
  }

  ghost predicate InSlot(p: Place) {
    p.Publishing? || p.Global? || p.Inbox? || p.Local? || (p.Held? && (p.stage == Claimed || p.stage == Bagged))
  }

  ghost predicate InQueue(p: Place) {
    p.Global? || p.Inbox? || p.Local?
  }

  ghost predicate IsRunning(p: Place) {
    p.Held? && (p.stage == Counted || p.stage == Invoked)
  }

  ghost predicate IsCompleted(p: Place) {
    p.Completed?
  }

  ghost predicate CancelCounted(p: Place) {
    p.Cancelled? || (p.Held? && p.stage == Cancelling)
  }

  ghost predicate HasRun(p: Place) {
    p.Completed? || (p.Held? && (p.stage == Invoked || p.stage == Ran))
  }

  // Jobs a stopping call has drained, whatever it has done with them since.
  ghost predicate Drained(c: Id, p: Place) {
    (p.Held? && p.holder == Stopper(c)) || p == Cancelled(Stopper(c))
  }

  ghost function TakenBy(c: Id): Place -> bool {
    p => Drained(c, p)
  }

  ghost predicate IsLive(pc: WorkerPc) {
    !pc.Exited?
  }

  ghost function StageOf(pc: WorkerPc): Stage
    requires Busy(pc)
  {
    match pc
    case MarkAdd(_) => Between
    case Run(_) => Counted
    case FinishSub(_) => Invoked
    case FinishAdd(_) => Ran
    case CancelAdd(_, _) => Uncounted
    case CancelCall(_, _) => Cancelling
    case _ => Claimed
  }

  ghost predicate Cancels(pc: WorkerPc) {
    || pc.CancelSub? || pc.CancelAdd? || pc.CancelCall?
    || pc.CancelLocal? || pc.DrainDeque? || pc.DrainInbox? || pc.CancelBag? || pc.Resume?
  }

  ghost predicate HasBag(pc: WorkerPc) {
    || pc.DrainDeque? || pc.DrainInbox? || pc.CancelBag?
    || ((pc.CancelSub? || pc.CancelAdd? || pc.CancelCall?) && pc.fromBag)
  }

  // Positions in which the worker's own deque may hold jobs.
  ghost predicate MayHaveLocal(pc: WorkerPc) {
    || pc.Top? || pc.PopLocal? || pc.CancelLocal?
    || (Busy(pc) && !((pc.CancelSub? || pc.CancelAdd? || pc.CancelCall?) && pc.fromBag))
  }

  // Positions only a pool with worker-local queues has.
  ghost predicate NeedsLocal(pc: WorkerPc) {
    pc.PopLocal? || TakesBatch(pc) || pc.ScanStart? || pc.Scan?
  }

  // Positions reached only after the queued count was read as zero with the lifecycle at Shutdown.
  ghost predicate SawDry(pc: WorkerPc) {
    || pc.ExitCheck? || pc.ExitInflight?
    || ((pc.Deactivate? || pc.Unregister? || pc.Exited?) && pc.drained)
  }

  ghost predicate LeftOnStop(pc: WorkerPc) {
    (pc.Deactivate? || pc.Unregister? || pc.Exited?) && !pc.drained
  }

  ghost function Rank(pc: StopPc): nat {
    match pc
    case CloseGate => 0
    case RaiseFlag => 1
    case ReadRunning => 2
    case SetStopping => 3
    case AwaitInflight => 4
    case TakeGlobal => 5
    case TakeDeque(_) => 5
    case TakeInbox(_) => 5
    case SubQueued => 6
    case AddCancelled => 7
    case CallCancel => 8
    case Done => 9
  }

  // ---------------------------------------------------------------- the invariant

  /** Every atomic counter equals what it is meant to count, in every interleaving. */
  ghost predicate Counters(s: State) {
    && s.n.inflight == Count(s.subs, InFlight)
    && s.n.queued == Count(s.subs, HoldsSlot) + Count(s.jobs, InSlot)
    && s.n.running == Count(s.jobs, IsRunning)
    && s.n.submitted == |s.jobs.Keys|
    && s.n.completed == Count(s.jobs, IsCompleted)
    && s.n.cancelled == Count(s.jobs, CancelCounted)
    && s.n.live == Count(s.workers, IsLive)
  }

  /** A stopping call knows how many jobs it has drained. */
  ghost predicate Taken(s: State) {
    forall c :: c in s.stops ==> s.stops[c].taken == Count(s.jobs, TakenBy(c))
  }

  ghost predicate Capacity(s: State) {
    && (s.cfg.capacity.Some? ==> s.n.queued <= s.cfg.capacity.value)
    && (forall t :: t in s.subs && s.subs[t].Loaded? ==>
         s.cfg.capacity.Some? && s.subs[t].current < s.cfg.capacity.value)
  }

  /** Every callback is invoked at most once, and a job never both runs and is cancelled. */
  ghost predicate Callbacks(s: State) {
    forall j ::
      && s.calls.runs[j] == Bit(j in s.jobs && HasRun(s.jobs[j]))
      && s.calls.cancels[j] == Bit(j in s.jobs && s.jobs[j].Cancelled?)
  }

  /** The flags only move one way, and positions past a write of a flag have seen it. */
  ghost predicate Gate(s: State) {
    && (s.flags.stopNow || s.flags.life != Running || s.flags.closing > 0 ==> !s.flags.accepting)
    && (s.flags.life == Stopping ==> s.flags.stopNow)
    && (s.flags.stopNow ==> s.stops.Keys != {})
    && (forall c :: c in s.stops ==>
         && (Rank(s.stops[c].pc) > 0 ==> !s.flags.accepting)
         && (Rank(s.stops[c].pc) > 1 ==> s.flags.stopNow)
         && (Rank(s.stops[c].pc) > 3 ==> s.flags.life == Stopping))
    && (forall w :: w in s.workers ==>
         && (Cancels(s.workers[w]) ==> s.flags.stopNow)
         && (LeftOnStop(s.workers[w]) ==> s.flags.life == Stopping))
  }

  ghost predicate PlaceOk(s: State, j: Job, p: Place) {
    && (p.Publishing? ==> p.t in s.subs && (s.subs[p.t].Probe? || s.subs[p.t].Push?) && s.subs[p.t].job == j)
    && (p.Inbox? ==> 0 <= p.w < s.cfg.size && UseLocal(s.cfg))
    && (p.Local? ==> p.w in s.workers && UseLocal(s.cfg) && MayHaveLocal(s.workers[p.w]))
    && (p.Held? && p.holder.Worker? ==> p.holder.w in s.workers && WorkerHolds(s.workers[p.holder.w], j, p.stage))
    && (p.Held? && p.holder.Stopper? ==> p.holder.c in s.stops && StopperHolds(s.stops[p.holder.c].pc, p.stage))
    && (p.Cancelled? && p.who.Worker? ==> s.flags.stopNow)
    && (p.Cancelled? && p.who.Stopper? ==> p.who.c in s.stops && Rank(s.stops[p.who.c].pc) >= 8)
  }

  ghost predicate WorkerHolds(pc: WorkerPc, j: Job, st: Stage) {
    || (Busy(pc) && pc.job == j && st == StageOf(pc))
    || (HasBag(pc) && st == Bagged)
  }

  ghost predicate StopperHolds(pc: StopPc, st: Stage) {
    match st
    case Bagged => 5 <= Rank(pc) <= 6
    case Uncounted => pc == AddCancelled
    case Cancelling => pc == CallCancel
    case _ => false
  }

  /** A job is where the positions of the threads say it is. */
  ghost predicate Placed(s: State) {
    forall j :: j in s.jobs ==> PlaceOk(s, j, s.jobs[j])
  }

  /** The job a thread is working on is where that thread left it. */
  ghost predicate Hands(s: State) {
    && s.cfg.size >= 1
    && (forall w :: w in s.workers <==> 0 <= w < s.cfg.size)
    && (forall w :: w in s.workers && Busy(s.workers[w]) ==>
         At(s.jobs, s.workers[w].job, Held(Worker(w), StageOf(s.workers[w]))))
    && (forall w :: w in s.workers && NeedsLocal(s.workers[w]) ==> UseLocal(s.cfg))
    && (forall t :: t in s.subs ==> SubmitterHands(s, t, s.subs[t]))
  }

  ghost predicate SubmitterHands(s: State, t: Id, pc: SubmitPc) {
    && (pc.Probe? || pc.Push? ==> At(s.jobs, pc.job, Publishing(t)))
    && (pc.Probe? ==> UseLocal(s.cfg))
    && (pc.Push? ==> pc.dest == Global || (pc.dest.Inbox? && 0 <= pc.dest.w < s.cfg.size && UseLocal(s.cfg)))
  }

  /** Once a stopping call has read zero submissions in flight, nobody is inside, then or later. */
  ghost predicate Quiet(s: State) {
    forall c, t :: c in s.stops && t in s.subs ==> Rank(s.stops[c].pc) < 5 || !Inside(s.subs[t])
  }

  /** What a draining call found empty stays empty. */
  ghost predicate DrainedSoFar(s: State) {
    forall c, j :: c in s.stops && j in s.jobs ==> Cleared(s.stops[c].pc, s.jobs[j])
  }

  ghost predicate Cleared(pc: StopPc, p: Place) {
    && (pc.TakeDeque? ==> p != Global && (p.Inbox? ==> p.w >= pc.i))
    && (pc.TakeInbox? ==> p != Global && (p.Inbox? ==> p.w >= pc.i))
    && (Rank(pc) >= 6 ==> p != Global && !p.Inbox?)
  }

  /** Once a worker saw the queued count at zero after the gate closed, the queues stay empty for good. */
  ghost predicate Dry(s: State) {
    forall w :: w in s.workers && SawDry(s.workers[w]) ==> IsDry(s)
  }

  ghost predicate IsDry(s: State) {
    && !s.flags.accepting
    && (forall j :: j in s.jobs ==> !InSlot(s.jobs[j]))
    && (forall t :: t in s.subs ==> !WillPublish(s.subs[t]))
  }

  ghost predicate Inv(s: State) {
    && Counters(s) && Taken(s) && Capacity(s) && Callbacks(s)
    && Gate(s) && Placed(s) && Hands(s) && Quiet(s) && DrainedSoFar(s) && Dry(s)
  }

  // ---------------------------------------------------------------- steps of workers

  /** The invariant as one worker sees it: its position agrees with the jobs it holds. */
  ghost predicate Agrees(s: State, w: Id, pc: WorkerPc, jobs: map<Job, Place>) {
    && (forall k :: k in jobs && jobs[k] == Local(w) ==> UseLocal(s.cfg) && MayHaveLocal(pc))
    && (forall k :: k in jobs && jobs[k].Held? && jobs[k].holder == Worker(w) ==> WorkerHolds(pc, k, jobs[k].stage))
    && (Busy(pc) ==> At(jobs, pc.job, Held(Worker(w), StageOf(pc))))
  }

  ghost predicate Allowed(s: State, pc: WorkerPc) {
    && (NeedsLocal(pc) ==> UseLocal(s.cfg))
    && (Cancels(pc) ==> s.flags.stopNow)
    && (LeftOnStop(pc) ==> s.flags.life == Stopping)
  }

  /** What a worker step may do to the jobs: take queued jobs and move the ones in its hands forward. */
  ghost predicate Forward(s: State, w: Id, s': State) {
    && s'.jobs.Keys == s.jobs.Keys
    && forall k :: k in s.jobs && s'.jobs[k] != s.jobs[k] ==>
         && (InQueue(s.jobs[k]) || (s.jobs[k].Held? && s.jobs[k].holder == Worker(w)))
         && (InSlot(s'.jobs[k]) ==> InSlot(s.jobs[k]))
         && (|| s'.jobs[k] == Local(w)
             || (s'.jobs[k].Held? && s'.jobs[k].holder == Worker(w))
             || s'.jobs[k] == Completed
             || (s'.jobs[k] == Cancelled(Worker(w)) && s.flags.stopNow))
  }

  /** The shape of every worker step. */
  ghost predicate WorkerMove(s: State, w: Id, pc: WorkerPc, s': State) {
    && w in s.workers && s'.workers == s.workers[w := pc]
    && s'.subs == s.subs && s'.stops == s.stops && s'.cfg == s.cfg
    && s'.flags == s.flags.(active := s'.flags.active)
    && Forward(s, w, s')
    && (SawDry(pc) ==> SawDry(s.workers[w]) || (s.n.queued <= 0 && s.flags.life != Running))
  }

  lemma WorkerMoveKeepsPlaced(s: State, w: Id, pc: WorkerPc, s': State)
    requires Placed(s) && WorkerMove(s, w, pc, s') && Agrees(s, w, pc, s'.jobs)
    ensures Placed(s')
  {
  }

  lemma WorkerMoveKeepsFlags(s: State, w: Id, pc: WorkerPc, s': State)
    requires Hands(s) && Gate(s) && Quiet(s) && WorkerMove(s, w, pc, s') && Agrees(s, w, pc, s'.jobs) && Allowed(s, pc)
    ensures Hands(s') && Gate(s') && Quiet(s')
  {
  }

  lemma WorkerMoveKeepsDry(s: State, w: Id, pc: WorkerPc, s': State)
    requires Counters(s) && Hands(s) && Gate(s) && DrainedSoFar(s) && Dry(s) && WorkerMove(s, w, pc, s')
    ensures DrainedSoFar(s') && Dry(s')
  {
    CountZero(s.subs, HoldsSlot);
    CountZero(s.jobs, InSlot);
  }

  lemma WorkerAgrees(s: State, w: Id)
    requires Placed(s) && Hands(s) && Gate(s) && w in s.workers
    ensures Agrees(s, w, s.workers[w], s.jobs) && Allowed(s, s.workers[w])
  {
  }

  lemma MissIsMove(s: State, w: Id, s': State)
    requires MissStep(s, w, s') && Agrees(s, w, s.workers[w], s.jobs) && Allowed(s, s.workers[w])
    ensures WorkerMove(s, w, s'.workers[w], s') && Agrees(s, w, s'.workers[w], s'.jobs) && Allowed(s, s'.workers[w])
  {
  }

  lemma HitIsMove(s: State, w: Id, j: Job, s': State)
    requires HitStep(s, w, j, s') && Agrees(s, w, s.workers[w], s.jobs) && Allowed(s, s.workers[w])
    ensures WorkerMove(s, w, s'.workers[w], s') && Agrees(s, w, s'.workers[w], s'.jobs) && Allowed(s, s'.workers[w])
  {
  }

  /** A batch steal moves queued jobs only: one into the thief's hands, the others into its own deque. */
  lemma BatchMovesQueued(s: State, w: Id, j: Job, more: set<Job>, s': State)
    requires BatchStep(s, w, j, more, s')
    ensures s'.jobs.Keys == s.jobs.Keys && s'.jobs[j] == Held(Worker(w), Claimed)
    ensures forall k :: k in s.jobs ==> InSlot(s'.jobs[k]) == InSlot(s.jobs[k])
    ensures forall k :: k in s.jobs && s'.jobs[k] != s.jobs[k] ==>
      InQueue(s.jobs[k]) && s'.jobs[k] == if k == j then Held(Worker(w), Claimed) else Local(w)
  {
    hide Source, Victim;
    BatchSource(s.cfg, w, s.workers[w]);
  }

  lemma BatchIsMove(s: State, w: Id, j: Job, more: set<Job>, s': State)
    requires BatchStep(s, w, j, more, s') && Agrees(s, w, s.workers[w], s.jobs) && Allowed(s, s.workers[w])
    ensures WorkerMove(s, w, s'.workers[w], s') && Agrees(s, w, s'.workers[w], s'.jobs) && Allowed(s, s'.workers[w])
  {
    hide Source, Victim, Batched, InSlot;
    BatchMovesQueued(s, w, j, more, s');
    hide Looks;
  }

  lemma BatchSource(cfg: Config, w: Id, pc: WorkerPc)
    requires Looks(pc) && TakesBatch(pc)
    ensures InQueue(Source(cfg, w, pc))
  {
  }

  lemma WorkIsMove(s: State, w: Id, s': State)
    requires WorkStep(s, w, s') && Agrees(s, w, s.workers[w], s.jobs) && Allowed(s, s.workers[w])
    ensures WorkerMove(s, w, s'.workers[w], s') && Allowed(s, s'.workers[w])
  {
    hide MayHaveLocal, HasBag, WorkerHolds;
    assert s.jobs[s.workers[w].job] == Held(Worker(w), StageOf(s.workers[w]));
    hide Agrees;
  }

  lemma WorkAgrees(s: State, w: Id, s': State)
    requires WorkStep(s, w, s') && Agrees(s, w, s.workers[w], s.jobs)
    ensures Agrees(s, w, s'.workers[w], s'.jobs)
  {
  }

  lemma SteerIsMove(s: State, w: Id, pick: int, s': State)
    requires SteerStep(s, w, pick, s') && Allowed(s, s.workers[w])
    ensures WorkerMove(s, w, s'.workers[w], s') && Allowed(s, s'.workers[w])
  {
  }

  lemma SteerAgrees(s: State, w: Id, pick: int, s': State)
    requires SteerStep(s, w, pick, s') && Agrees(s, w, s.workers[w], s.jobs)
    ensures Agrees(s, w, s'.workers[w], s'.jobs)
  {
  }

  // ---------------------------------------------------------------- counting: what one job adds to the counters

  datatype Share = Share(queued: int, running: int, completed: int, cancelled: int, run: int, called: int)

  ghost function ShareOf(p: Place): Share {
    Share(Bit(InSlot(p)), Bit(IsRunning(p)), Bit(IsCompleted(p)), Bit(CancelCounted(p)),
          Bit(HasRun(p)), Bit(p.Cancelled?))
  }

  ghost function Shift(n: Tally, from: Share, to: Share): Tally {
    n.(queued := n.queued - from.queued + to.queued,
       running := n.running - from.running + to.running,
       completed := n.completed - from.completed + to.completed,
       cancelled := n.cancelled - from.cancelled + to.cancelled)
  }

  /** Moving one job between places shifts the counters by the shares of the two places. */
  lemma JobMoves(s: State, j: Job, p: Place, s': State)
    requires Counters(s) && j in s.jobs
    requires s'.jobs == s.jobs[j := p] && s'.n == Shift(s.n, ShareOf(s.jobs[j]), ShareOf(p)) && s'.subs == s.subs
    requires Count(s'.workers, IsLive) == Count(s.workers, IsLive)
    ensures Counters(s')
  {
    hide Count;
    CountUpdate(s.jobs, j, p, InSlot);
    CountUpdate(s.jobs, j, p, IsRunning);
    CountUpdate(s.jobs, j, p, IsCompleted);
    CountUpdate(s.jobs, j, p, CancelCounted);
    assert s'.jobs.Keys == s.jobs.Keys;
  }

  /** Moving jobs between places with equal shares changes no counter. */
  lemma SameShares(s: State, s': State)
    requires Counters(s) && Callbacks(s)
    requires s'.n == s.n && s'.calls == s.calls && s'.jobs.Keys == s.jobs.Keys
    requires forall k :: k in s.jobs ==> ShareOf(s'.jobs[k]) == ShareOf(s.jobs[k])
    requires Count(s'.subs, HoldsSlot) == Count(s.subs, HoldsSlot)
        && Count(s'.subs, InFlight) == Count(s.subs, InFlight)
    requires Count(s'.workers, IsLive) == Count(s.workers, IsLive)
    ensures Counters(s') && Callbacks(s')
  {
    hide Count;
    assert forall k :: k in s.jobs ==> ShareOf(s'.jobs[k]) == ShareOf(s.jobs[k]);
    CountSame(s.jobs, s'.jobs, InSlot);
    CountSame(s.jobs, s'.jobs, IsRunning);
    CountSame(s.jobs, s'.jobs, IsCompleted);
    CountSame(s.jobs, s'.jobs, CancelCounted);
  }

  /** If no job enters or leaves the bag of a stopping call, the number it has drained stays right. */
  lemma SameTaken(s: State, s': State)
    requires Taken(s) && s'.jobs.Keys == s.jobs.Keys && s'.stops.Keys == s.stops.Keys
    requires forall c :: c in s.stops ==> s'.stops[c].taken == s.stops[c].taken
    requires forall c, k :: c in s.stops && k in s.jobs ==> Drained(c, s'.jobs[k]) == Drained(c, s.jobs[k])
    ensures Taken(s')
  {
    hide Count;
    forall c | c in s'.stops
      ensures s'.stops[c].taken == Count(s'.jobs, TakenBy(c))
    {
      assert c in s.stops;
      assert forall k :: k in s.jobs ==> Drained(c, s'.jobs[k]) == Drained(c, s.jobs[k]);
      CountSame(s.jobs, s'.jobs, TakenBy(c));
    }
  }

  // ---------------------------------------------------------------- counting: workers

  lemma HandleShares(s: State, w: Id, pc: WorkerPc)
    requires Busy(pc)
    ensures var work := Handle(s, w, pc);
      && work.n == Shift(s.n, ShareOf(Held(Worker(w), StageOf(pc))), ShareOf(work.place))
      && IsLive(work.pc)
  {
  }

  lemma HandleCalls(s: State, w: Id, pc: WorkerPc)
    requires Busy(pc)
    ensures var work := Handle(s, w, pc);
      var from, to := ShareOf(Held(Worker(w), StageOf(pc))), ShareOf(work.place);
      && (forall k :: k != pc.job ==>
           work.calls.runs[k] == s.calls.runs[k] && work.calls.cancels[k] == s.calls.cancels[k])
      && work.calls.runs[pc.job] == s.calls.runs[pc.job] - from.run + to.run
      && work.calls.cancels[pc.job] == s.calls.cancels[pc.job] - from.called + to.called
  {
  }

  lemma WorkCounts(s: State, w: Id, s': State)
    requires Counters(s) && WorkStep(s, w, s')
    requires At(s.jobs, s.workers[w].job, Held(Worker(w), StageOf(s.workers[w])))
    ensures Counters(s')
  {
    hide Count;
    HandleShares(s, w, s.workers[w]);
    CountUpdate(s.workers, w, s'.workers[w], IsLive);
    JobMoves(s, s.workers[w].job, Handle(s, w, s.workers[w]).place, s');
  }

  lemma WorkCalls(s: State, w: Id, s': State)
    requires Callbacks(s) && WorkStep(s, w, s')
    requires At(s.jobs, s.workers[w].job, Held(Worker(w), StageOf(s.workers[w])))
    ensures Callbacks(s')
  {
    HandleCalls(s, w, s.workers[w]);
  }

  lemma SteerCounts(s: State, w: Id, pick: int, s': State)
    requires Counters(s) && SteerStep(s, w, pick, s')
    ensures Counters(s')
  {
    hide Count;
    CountUpdate(s.workers, w, s'.workers[w], IsLive);
  }

  lemma SourceShare(s: State, w: Id, pc: WorkerPc)
    requires Looks(pc)
    ensures ShareOf(Source(s.cfg, w, pc)) == ShareOf(Local(w)) == ShareOf(Held(Worker(w), HitStage(pc)))
    ensures ShareOf(Local(w)) == ShareOf(Held(Worker(w), Claimed))
    ensures IsLive(OnMiss(s.cfg, pc)) && (forall j :: IsLive(OnHit(pc, j)))
  {
  }

  lemma MissCounts(s: State, w: Id, s': State)
    requires Counters(s) && MissStep(s, w, s')
    ensures Counters(s')
  {
    hide Count;
    SourceShare(s, w, s.workers[w]);
    CountUpdate(s.workers, w, s'.workers[w], IsLive);
  }

  lemma TakeCounts(s: State, w: Id, j: Job, more: set<Job>, s': State)
    requires Counters(s) && Callbacks(s)
    requires HitStep(s, w, j, s') || BatchStep(s, w, j, more, s')
    ensures Counters(s') && Callbacks(s')
  {
    hide Count, ShareOf, Source, OnHit, HitStage;
    SourceShare(s, w, s.workers[w]);
    CountUpdate(s.workers, w, s'.workers[w], IsLive);
    SameShares(s, s');
  }

  // ---------------------------------------------------------------- steps of submitters

  lemma AdmitCounts(s: State, t: Id, w: Id, s': State)
    requires Counters(s) && (BeginSubmit(s, t, s') || AdmitStep(s, t, s') || ProbeStep(s, t, w, s'))
    ensures Counters(s')
  {
    hide Count;
    CountUpdate(s.subs, t, s'.subs[t], InFlight);
    CountUpdate(s.subs, t, s'.subs[t], HoldsSlot);
  }

  lemma AcceptCounts(s: State, t: Id, j: Job, s': State)
    requires Counters(s) && AcceptStep(s, t, j, s')
    ensures Counters(s')
  {
    hide Count;
    CountUpdate(s.subs, t, s'.subs[t], InFlight);
    CountUpdate(s.subs, t, s'.subs[t], HoldsSlot);
    CountUpdate(s.jobs, j, Publishing(t), InSlot);
    CountUpdate(s.jobs, j, Publishing(t), IsRunning);
    CountUpdate(s.jobs, j, Publishing(t), IsCompleted);
    CountUpdate(s.jobs, j, Publishing(t), CancelCounted);
    assert s'.jobs.Keys == s.jobs.Keys + {j};
  }

  lemma AcceptTaken(s: State, t: Id, j: Job, s': State)
    requires Callbacks(s) && Taken(s) && AcceptStep(s, t, j, s')
    ensures Callbacks(s') && Taken(s')
  {
    hide Count;
    forall c | c in s.stops
      ensures Count(s'.jobs, TakenBy(c)) == Count(s.jobs, TakenBy(c))
    {
      CountUpdate(s.jobs, j, Publishing(t), TakenBy(c));
    }
  }

  lemma PushCounts(s: State, t: Id, s': State)
    requires Counters(s) && Callbacks(s) && Hands(s) && PushStep(s, t, s')
    ensures Counters(s') && Callbacks(s')
  {
    hide Count;
    CountUpdate(s.subs, t, s'.subs[t], InFlight);
    CountUpdate(s.subs, t, s'.subs[t], HoldsSlot);
    assert SubmitterHands(s, t, s.subs[t]);
    SameShares(s, s');
  }

  lemma SubmitterKeepsPlaced(s: State, e: Event, s': State)
    requires Placed(s) && Hands(s) && Step(s, e, s') && OfSubmitter(e)
    ensures Placed(s')
  {
    hide WorkerHolds, StopperHolds, MayHaveLocal, Rank;
  }

  lemma SubmitterKeepsHands(s: State, e: Event, s': State)
    requires Placed(s) && Hands(s) && Step(s, e, s') && OfSubmitter(e)
    ensures Hands(s')
  {
    hide WorkerHolds, StopperHolds, MayHaveLocal, Rank, StageOf, NeedsLocal;
  }

  lemma SubmitterKeepsFlags(s: State, e: Event, s': State)
    requires Capacity(s) && Gate(s) && Quiet(s) && Step(s, e, s') && OfSubmitter(e)
    ensures Capacity(s') && Gate(s') && Quiet(s')
  {
  }

  lemma SubmitterKeepsDry(s: State, e: Event, s': State)
    requires Hands(s) && Quiet(s) && DrainedSoFar(s) && Dry(s) && Step(s, e, s') && OfSubmitter(e)
    ensures DrainedSoFar(s') && Dry(s')
  {
  }

  predicate OfSubmitter(e: Event) {
    e.Begin? || e.Admission? || e.Accepted? || e.Probed? || e.Pushed?
  }

  predicate OfWorker(e: Event) {
    e.Miss? || e.Hit? || e.Batch? || e.Worked? || e.Steered?
  }

  // ---------------------------------------------------------------- steps of stopping calls

  predicate IsFlagEvent(e: Event) {
    e.Close? || e.MarkShutdown? || e.StopBegin? || e.Stop?
  }

  /** What a step that only writes flags leaves alone. */
  lemma FlagStepFrame(s: State, e: Event, s': State)
    requires Step(s, e, s') && IsFlagEvent(e)
    ensures s'.cfg == s.cfg && s'.n == s.n && s'.jobs == s.jobs && s'.subs == s.subs && s'.workers == s.workers
    ensures s'.calls == s.calls && s'.flags.active == s.flags.active && (s'.flags.accepting ==> s.flags.accepting)
    ensures forall c :: c in s.stops ==> c in s'.stops && s'.stops[c].taken == s.stops[c].taken
    ensures forall c :: c in s'.stops ==>
      || (c in s.stops && s'.stops[c] == s.stops[c])
      || ((e.StopBegin? || e.Stop?) && e.c == c && (c in s.stops <==> e.Stop?) && Rank(s'.stops[c].pc) <= 5)
  {
  }

  lemma FlagStepKeepsGate(s: State, e: Event, s': State)
    requires Gate(s) && Step(s, e, s') && IsFlagEvent(e)
    ensures Gate(s')
  {
    hide Cancels, LeftOnStop;
    if e.StopBegin? || e.Stop? {
      assert e.c in s'.stops.Keys;
    }
  }

  lemma FlagStepKeepsQuiet(s: State, e: Event, s': State)
    requires Counters(s) && Quiet(s) && Step(s, e, s') && IsFlagEvent(e)
    ensures Quiet(s')
  {
    CountZero(s.subs, InFlight);
    assert s.n.inflight <= 0 ==> forall t :: t in s.subs ==> !InFlight(s.subs[t]);
    hide Count, Counters;
    FlagStepFrame(s, e, s');
    if e.Stop? && s.stops[e.c].pc == AwaitInflight && s.n.inflight <= 0 {
      assert forall t :: t in s.subs ==> !InFlight(s.subs[t]);
    } else {
      assert e.Stop? ==> Rank(s'.stops[e.c].pc) < 5;
    }
    hide Step;
  }

  lemma FlagStepKeepsDrained(s: State, e: Event, s': State)
    requires DrainedSoFar(s) && Dry(s) && Step(s, e, s') && IsFlagEvent(e)
    ensures DrainedSoFar(s') && Dry(s')
  {
    hide SawDry, WillPublish, InSlot;
    FlagStepFrame(s, e, s');
    assert e.StopBegin? || e.Stop? ==> forall p :: Cleared(s'.stops[e.c].pc, p);
    hide Step, Cleared;
  }

  lemma FlagStepKeepsPlaces(s: State, e: Event, s': State)
    requires Placed(s) && Hands(s) && Step(s, e, s') && IsFlagEvent(e)
    ensures Placed(s') && Hands(s')
  {
    hide WorkerHolds, MayHaveLocal, NeedsLocal, StageOf;
    FlagStepFrame(s, e, s');
    StagesKept(s, e, s');
    hide Step, StopperHolds;
    forall j | j in s'.jobs
      ensures PlaceOk(s', j, s'.jobs[j])
    {
      assert PlaceOk(s, j, s.jobs[j]);
    }
    assert forall t :: t in s.subs ==> SubmitterHands(s, t, s.subs[t]) ==> SubmitterHands(s', t, s.subs[t]);
  }

  /** A call that is still closing holds no job and has cancelled none. */
  lemma StagesKept(s: State, e: Event, s': State)
    requires Step(s, e, s') && IsFlagEvent(e)
    ensures s.flags.stopNow ==> s'.flags.stopNow
    ensures forall c :: c in s.stops ==> c in s'.stops && (Rank(s.stops[c].pc) >= 8 ==> Rank(s'.stops[c].pc) >= 8)
    ensures forall c, st :: c in s.stops && StopperHolds(s.stops[c].pc, st) ==> StopperHolds(s'.stops[c].pc, st)
  {
  }

  lemma BeginStopTaken(s: State, c: Id, s': State)
    requires Placed(s) && Taken(s) && BeginStop(s, c, s')
    ensures Taken(s')
  {
    forall k | k in s.jobs
      ensures !Drained(c, s.jobs[k])
    {
      assert PlaceOk(s, k, s.jobs[k]);
    }
    CountZero(s.jobs, TakenBy(c));
    assert forall d :: d in s'.stops ==> d == c || (d in s.stops && s'.stops[d] == s.stops[d]);
  }

  lemma DrainKeepsPlaces(s: State, c: Id, j: Job, s': State)
    requires Placed(s) && Hands(s)
    requires DrainHit(s, c, j, s') || DrainMiss(s, c, s') || PassStep(s, c, s')
    ensures Placed(s') && Hands(s')
  {
    hide WorkerHolds, MayHaveLocal, NeedsLocal, StageOf;
  }

  lemma DrainKeepsFlags(s: State, c: Id, j: Job, s': State)
    requires Gate(s) && Quiet(s) && Placed(s) && DrainedSoFar(s) && Dry(s)
    requires DrainHit(s, c, j, s') || DrainMiss(s, c, s') || PassStep(s, c, s')
    ensures Gate(s') && Quiet(s') && DrainedSoFar(s') && Dry(s')
  {
    hide WorkerHolds, StopperHolds, MayHaveLocal;
  }

  lemma DrainCounts(s: State, c: Id, j: Job, s': State)
    requires Counters(s) && Callbacks(s) && DrainHit(s, c, j, s')
    ensures Counters(s') && Callbacks(s')
  {
    hide Count;
    SameShares(s, s');
  }

  lemma DrainTaken(s: State, c: Id, j: Job, s': State)
    requires Taken(s) && DrainHit(s, c, j, s')
    ensures Taken(s')
  {
    hide Count;
    forall d | d in s'.stops
      ensures s'.stops[d].taken == Count(s'.jobs, TakenBy(d))
    {
      CountUpdate(s.jobs, j, s'.jobs[j], TakenBy(d));
    }
  }

  lemma SettleKeepsPlaced(s: State, c: Id, j: Job, s': State)
    requires Placed(s)
    requires SubStep(s, c, s') || AddStep(s, c, s') || CallStep(s, c, j, s') || ReturnStep(s, c, s')
    ensures Placed(s')
  {
    hide WorkerHolds, MayHaveLocal;
  }

  lemma SettleKeepsHands(s: State, c: Id, j: Job, s': State)
    requires Hands(s)
    requires SubStep(s, c, s') || AddStep(s, c, s') || CallStep(s, c, j, s') || ReturnStep(s, c, s')
    ensures Hands(s')
  {
    hide NeedsLocal, StageOf;
  }

  lemma SettleKeepsFlags(s: State, c: Id, j: Job, s': State)
    requires Gate(s) && Quiet(s)
    requires SubStep(s, c, s') || AddStep(s, c, s') || CallStep(s, c, j, s') || ReturnStep(s, c, s')
    ensures Gate(s') && Quiet(s')
  {
    hide Cancels, LeftOnStop, Inside;
  }

  lemma SettleKeepsDry(s: State, c: Id, j: Job, s': State)
    requires DrainedSoFar(s) && Dry(s)
    requires SubStep(s, c, s') || AddStep(s, c, s') || CallStep(s, c, j, s') || ReturnStep(s, c, s')
    ensures DrainedSoFar(s') && Dry(s')
  {
    hide SawDry, WillPublish;
  }

  ghost function Bag(jobs: map<Job, Place>, c: Id, st: Stage): set<Job> {
    set k | k in jobs && jobs[k] == Held(Stopper(c), st)
  }

  /** Before its subtraction, the jobs a stopping call has drained are exactly its bag. */
  lemma BagSize(s: State, c: Id, st: Stage)
    requires Placed(s) && Taken(s) && c in s.stops
    requires (s.stops[c].pc == SubQueued && st == Bagged) || (s.stops[c].pc == AddCancelled && st == Uncounted)
    ensures s.stops[c].taken == |Bag(s.jobs, c, st)|
  {
    forall k | k in s.jobs
      ensures Drained(c, s.jobs[k]) <==> s.jobs[k] == Held(Stopper(c), st)
    {
      assert PlaceOk(s, k, s.jobs[k]);
    }
    assert Keys(s.jobs, TakenBy(c)) == Bag(s.jobs, c, st);
  }

  /** Moving the whole bag from one stage to another changes a count by the size of the bag, or not at all. */
  lemma RebagCount(jobs: map<Job, Place>, c: Id, from: Stage, to: Stage, p: Place -> bool)
    ensures var n, n' := Count(jobs, p), Count(Rebagged(jobs, c, from, to), p);
      var before, after := p(Held(Stopper(c), from)), p(Held(Stopper(c), to));
      n' == if before == after then n else if before then n - |Bag(jobs, c, from)| else n + |Bag(jobs, c, from)|
  {
    hide Count;
    var jobs', bag := Rebagged(jobs, c, from, to), Bag(jobs, c, from);
    var before, after := p(Held(Stopper(c), from)), p(Held(Stopper(c), to));
    if before == after {
      CountSame(jobs, jobs', p);
    } else if before {
      CountLoses(jobs, jobs', bag, p);
    } else {
      CountLoses(jobs', jobs, bag, p);
    }
  }

  lemma SubCounts(s: State, c: Id, s': State)
    requires Counters(s) && Placed(s) && Taken(s) && SubStep(s, c, s')
    ensures Counters(s')
  {
    hide Count, Bag;
    BagSize(s, c, Bagged);
    RebagCount(s.jobs, c, Bagged, Uncounted, InSlot);
    RebagCount(s.jobs, c, Bagged, Uncounted, IsRunning);
    RebagCount(s.jobs, c, Bagged, Uncounted, IsCompleted);
    RebagCount(s.jobs, c, Bagged, Uncounted, CancelCounted);
    assert s'.jobs.Keys == s.jobs.Keys;
    hide Placed, Taken;
  }

  lemma AddCounts(s: State, c: Id, s': State)
    requires Counters(s) && Placed(s) && Taken(s) && AddStep(s, c, s')
    ensures Counters(s')
  {
    hide Count, Bag;
    BagSize(s, c, Uncounted);
    RebagCount(s.jobs, c, Uncounted, Cancelling, InSlot);
    RebagCount(s.jobs, c, Uncounted, Cancelling, IsRunning);
    RebagCount(s.jobs, c, Uncounted, Cancelling, IsCompleted);
    RebagCount(s.jobs, c, Uncounted, Cancelling, CancelCounted);
    assert s'.jobs.Keys == s.jobs.Keys;
    hide Placed, Taken;
  }

  lemma RebagKeepsCalls(s: State, c: Id, s': State)
    requires Callbacks(s) && Taken(s) && (SubStep(s, c, s') || AddStep(s, c, s'))
    ensures Callbacks(s') && Taken(s')
  {
    hide Count;
    SameTaken(s, s');
  }

  lemma CallCounts(s: State, c: Id, j: Job, s': State)
    requires Counters(s) && Taken(s) && Callbacks(s) && CallStep(s, c, j, s')
    ensures Counters(s') && Taken(s') && Callbacks(s')
  {
    hide Count;
    JobMoves(s, j, Cancelled(Stopper(c)), s');
    SameTaken(s, s');
  }

  // ---------------------------------------------------------------- every step keeps the invariant

  lemma SubmitterKeeps(s: State, e: Event, s': State)
    requires Inv(s) && Step(s, e, s') && OfSubmitter(e)
    ensures Inv(s')
  {
    hide Count, Counters, Callbacks, Gate, Placed, Hands, Quiet, DrainedSoFar, Dry, Capacity, Admit;
    SubmitterKeepsPlaced(s, e, s');
    SubmitterKeepsHands(s, e, s');
    SubmitterKeepsFlags(s, e, s');
    SubmitterKeepsDry(s, e, s');
    match e
    case Begin(t) =>
      AdmitCounts(s, t, 0, s');
      SameCalls(s, s');
    case Admission(t) =>
      AdmitCounts(s, t, 0, s');
      SameCalls(s, s');
    case Probed(t, w) =>
      AdmitCounts(s, t, w, s');
      SameCalls(s, s');
    case Accepted(t, j) =>
      AcceptCounts(s, t, j, s');
      AcceptTaken(s, t, j, s');
    case Pushed(t) =>
      PushCounts(s, t, s');
      PushTaken(s, t, s');
  }

  lemma PushTaken(s: State, t: Id, s': State)
    requires Taken(s) && Hands(s) && PushStep(s, t, s')
    ensures Taken(s')
  {
    hide Count;
    assert SubmitterHands(s, t, s.subs[t]);
    SameTaken(s, s');
  }

  lemma WorkerKeepsTaken(s: State, w: Id, pc: WorkerPc, s': State)
    requires Taken(s) && WorkerMove(s, w, pc, s')
    ensures Taken(s')
  {
    hide Count;
    SameTaken(s, s');
  }

  lemma WorkerKeepsCapacity(s: State, e: Event, s': State)
    requires Capacity(s) && Step(s, e, s') && OfWorker(e)
    ensures Capacity(s')
  {
  }

  lemma WorkerIsMove(s: State, e: Event, w: Id, s': State)
    requires Inv(s) && Step(s, e, s') && OfWorker(e) && e.w == w
    ensures w in s'.workers && WorkerMove(s, w, s'.workers[w], s') && Counters(s') && Callbacks(s')
    ensures Agrees(s, w, s'.workers[w], s'.jobs) && Allowed(s, s'.workers[w])
  {
    hide Count, Counters, Callbacks, Gate, Placed, Hands, Quiet, DrainedSoFar, Dry, Capacity, Taken, WorkerMove,
        Allowed;
    hide Steer, Handle, Source, OnMiss, OnHit, HitStage, StageOf;
    WorkerAgrees(s, w);
    match e
    case Miss(_) =>
      MissIsMove(s, w, s');
      MissCounts(s, w, s');
      assert Callbacks(s') by { SameCalls(s, s'); }
    case Hit(_, j) =>
      HitIsMove(s, w, j, s');
      TakeCounts(s, w, j, {}, s');
    case Batch(_, j, more) =>
      BatchIsMove(s, w, j, more, s');
      TakeCounts(s, w, j, more, s');
    case Worked(_) =>
      WorkIsMove(s, w, s');
      WorkAgrees(s, w, s');
      WorkCounts(s, w, s');
      WorkCalls(s, w, s');
    case Steered(_, pick) =>
      SteerIsMove(s, w, pick, s');
      SteerAgrees(s, w, pick, s');
      SteerCounts(s, w, pick, s');
      assert Callbacks(s') by { SameCalls(s, s'); }
  }

  lemma SameCalls(s: State, s': State)
    requires Callbacks(s) && s'.jobs == s.jobs && s'.calls == s.calls
    ensures Callbacks(s')
  {
  }

  lemma WorkerKeeps(s: State, e: Event, s': State)
    requires Inv(s) && Step(s, e, s') && OfWorker(e)
    ensures Inv(s')
  {
    hide Count, Counters, Callbacks, Gate, Placed, Hands, Quiet, DrainedSoFar, Dry, Capacity, Taken, WorkerMove,
        Agrees, Allowed;
    hide Step;
    var w := e.w;
    WorkerIsMove(s, e, w, s');
    var pc := s'.workers[w];
    WorkerMoveKeepsPlaced(s, w, pc, s');
    WorkerMoveKeepsFlags(s, w, pc, s');
    WorkerMoveKeepsDry(s, w, pc, s');
    WorkerKeepsTaken(s, w, pc, s');
    WorkerKeepsCapacity(s, e, s');
  }

  lemma StopperKeeps(s: State, e: Event, s': State)
    requires Inv(s) && Step(s, e, s') && !OfSubmitter(e) && !OfWorker(e)
    ensures Inv(s')
  {
    hide Count, Counters, Callbacks, Gate, Placed, Hands, Quiet, DrainedSoFar, Dry, Taken;
    match e
    case Close => FlagEventKeeps(s, e, s');
    case MarkShutdown => FlagEventKeeps(s, e, s');
    case StopBegin(_) => FlagEventKeeps(s, e, s');
    case Stop(_) => FlagEventKeeps(s, e, s');
    case DrainedOne(c, j) =>
      DrainKeepsPlaces(s, c, j, s');
      DrainKeepsFlags(s, c, j, s');
      DrainCounts(s, c, j, s');
      DrainTaken(s, c, j, s');
    case DrainedAll(c) => WalkKeeps(s, c, s');
    case Pass(c) => WalkKeeps(s, c, s');
    case Sub(c) =>
      SettleKeeps(s, c, 0, s');
      SubCounts(s, c, s');
      RebagKeepsCalls(s, c, s');
      assert s.stops[c].taken >= 0 by { BagSize(s, c, Bagged); }
    case Add(c) =>
      SettleKeeps(s, c, 0, s');
      AddCounts(s, c, s');
      RebagKeepsCalls(s, c, s');
    case Call(c, j) =>
      SettleKeeps(s, c, j, s');
      CallCounts(s, c, j, s');
    case Return(c) =>
      SettleKeeps(s, c, 0, s');
      assert Counters(s') && Callbacks(s') && Taken(s') by { SameJobs(s, s'); }
  }

  lemma FlagEventKeeps(s: State, e: Event, s': State)
    requires Inv(s) && Step(s, e, s') && IsFlagEvent(e)
    ensures Inv(s')
  {
    hide Count, Counters, Callbacks, Gate, Placed, Hands, Quiet, DrainedSoFar, Dry, Taken;
    FlagStepKeepsGate(s, e, s');
    FlagStepKeepsQuiet(s, e, s');
    FlagStepKeepsDrained(s, e, s');
    FlagStepKeepsPlaces(s, e, s');
    FlagStepFrame(s, e, s');
    SameCounters(s, s');
    SameCalls(s, s');
    if e.StopBegin? {
      BeginStopTaken(s, e.c, s');
    } else {
      hide Rank;
      SameJobs(s, s');
    }
  }

  lemma WalkKeeps(s: State, c: Id, s': State)
    requires Inv(s) && (DrainMiss(s, c, s') || PassStep(s, c, s'))
    ensures Inv(s')
  {
    hide Count, Counters, Callbacks, Gate, Placed, Hands, Quiet, DrainedSoFar, Dry, Taken;
    DrainKeepsPlaces(s, c, 0, s');
    DrainKeepsFlags(s, c, 0, s');
    SameJobs(s, s');
  }

  lemma SettleKeeps(s: State, c: Id, j: Job, s': State)
    requires Placed(s) && Hands(s) && Gate(s) && Quiet(s) && DrainedSoFar(s) && Dry(s)
    requires SubStep(s, c, s') || AddStep(s, c, s') || CallStep(s, c, j, s') || ReturnStep(s, c, s')
    ensures Placed(s') && Hands(s') && Gate(s') && Quiet(s') && DrainedSoFar(s') && Dry(s')
  {
    hide Gate, Placed, Hands, Quiet, DrainedSoFar, Dry, SubStep, AddStep, CallStep, ReturnStep;
    SettleKeepsPlaced(s, c, j, s');
    SettleKeepsHands(s, c, j, s');
    SettleKeepsFlags(s, c, j, s');
    SettleKeepsDry(s, c, j, s');
  }

  lemma SameCounters(s: State, s': State)
    requires Counters(s) && s'.jobs == s.jobs && s'.subs == s.subs && s'.workers == s.workers && s'.n == s.n
    ensures Counters(s')
  {
  }

  lemma SameJobs(s: State, s': State)
    requires Counters(s) && Callbacks(s) && Taken(s)
    requires s'.jobs == s.jobs && s'.subs == s.subs && s'.workers == s.workers && s'.n == s.n && s'.calls == s.calls
    requires s'.stops.Keys == s.stops.Keys && (forall c :: c in s.stops ==> s'.stops[c].taken == s.stops[c].taken)
    ensures Counters(s') && Callbacks(s') && Taken(s')
  {
    hide Count;
  }

  /** Every atomic step of every thread keeps the invariant. */
  lemma StepKeeps(s: State, e: Event, s': State)
    requires Inv(s) && Step(s, e, s')
    ensures Inv(s')
  {
    hide Inv, Step;
    if OfSubmitter(e) {
      SubmitterKeeps(s, e, s');
    } else if OfWorker(e) {
      WorkerKeeps(s, e, s');
    } else {
      StopperKeeps(s, e, s');
    }
  }

  lemma InitKeeps(s: State)
    requires Init(s)
    ensures Inv(s)
  {
    RangeSize(s.workers.Keys, s.cfg.size);
    assert Keys(s.workers, IsLive) == s.workers.Keys;
  }
}
