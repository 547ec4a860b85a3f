// The fixed thread pool as an interleaved machine.
//
// Submitters, workers, `shutdown` calls and `shutdown_now` calls run one atomic step at a time, in any order.
// A step is one atomic load, store, compare-exchange or fetch-and-add, one queue push, one queue steal (of one job
// or of a batch), or one job callback. The monitor only rules interleavings out, so it is not modelled: the machine
// has every interleaving the code has, and more. Counters are integers, so that "never negative" has to be proved.

module FixedPool {
  import opened Counting
  import opened Lifecycles

  // Jobs, submit calls, workers and stopping calls are told apart by numbers.
  type Job = int
  type Id = int

  // Who may take a job out of the queues.
  datatype Agent = Worker(w: Id) | Stopper(c: Id)

  // What a holder has done with the job so far. `Claimed` and `Bagged` jobs still own their queue slot.
  datatype Stage = Claimed | Bagged | Between | Counted | Invoked | Ran | Uncounted | Cancelling

  datatype Place =
    | Publishing(t: Id)
    | Global
    | Inbox(w: Id)
    | Local(w: Id)
    | Held(holder: Agent, stage: Stage)
    | Completed
    | Cancelled(who: Agent)

  // What a submit call answers: the job it took, or why it refused.
  datatype Answer = Took(job: Job) | WasFull | WasClosed

  // Position of a submit call. `Checked` follows the first look at the gate.
  datatype SubmitPc =
    | Checked
    | Incremented
    | Backing
    | Entered
    | Loaded(current: int)
    | Reserved
    | Rollback
    | Committed
    | Probe(job: Job, left: int)
    | Push(job: Job, dest: Place)
    | Leaving(answer: Answer)
    | Returned(answer: Answer)

  // Position of a worker loop.
  datatype WorkerPc =
    | Starting
    | Top
    | PopLocal
    | PopInbox
    | PopGlobal
    | PopSingle
    | ScanStart
    | Scan(start: int, offset: int)
    | ScanDeque(start: int, offset: int)
    | ScanInbox(start: int, offset: int)
    | Accept(job: Job)
    | MarkSub(job: Job)
    | MarkAdd(job: Job)
    | Run(job: Job)
    | FinishSub(job: Job)
    | FinishAdd(job: Job)
    | CancelSub(job: Job, fromBag: bool)
    | CancelAdd(job: Job, fromBag: bool)
    | CancelCall(job: Job, fromBag: bool)
    | CancelLocal
    | DrainDeque
    | DrainInbox
    | CancelBag
    | Resume
    | Wait
    | Dozing
    | ExitCheck
    | ExitInflight
    | Deactivate(drained: bool)
    | Unregister(drained: bool)
    | Exited(drained: bool)

  // Position of a `shutdown_now` call.
  datatype StopPc =
    | CloseGate
    | RaiseFlag
    | ReadRunning
    | SetStopping
    | AwaitInflight
    | TakeGlobal
    | TakeDeque(i: int)
    | TakeInbox(i: int)
    | SubQueued
    | AddCancelled
    | CallCancel
    | Done

  // One `shutdown_now` call: its position, how many jobs it drained, how many it had when the current pass began,
  // the running count it reports, and how many passes it has had to repeat.
  datatype StopCall = StopCall(pc: StopPc, taken: int, before: int, sawRunning: int, passes: int)

  datatype Config = Config(size: int, capacity: Option<int>)

  // `closing` counts graceful `shutdown` calls between closing the gate and writing the lifecycle.
  datatype Flags = Flags(accepting: bool, stopNow: bool, life: Life, closing: int, active: set<Id>)

  datatype Tally = Tally(inflight: int, queued: int, running: int, submitted: int, completed: int, cancelled: int,
      live: int)

  // Every invocation of a run callback and of a cancel callback so far.
  datatype Calls = Calls(runs: multiset<Job>, cancels: multiset<Job>)

  datatype State = State(
    cfg: Config,
    flags: Flags,
    n: Tally,
    jobs: map<Job, Place>,
    calls: Calls,
    subs: map<Id, SubmitPc>,
    workers: map<Id, WorkerPc>,
    stops: map<Id, StopCall>)

  const LOCAL_QUEUE_WORKER_LIMIT := 4
  const LOCAL_ENQUEUE_MAX_PROBES := 4

  predicate UseLocal(cfg: Config) {
    cfg.size <= LOCAL_QUEUE_WORKER_LIMIT
  }

  function ProbeCount(cfg: Config): int {
    if cfg.size < LOCAL_ENQUEUE_MAX_PROBES then cfg.size else LOCAL_ENQUEUE_MAX_PROBES
  }

  /** A freshly built pool: every worker slot is reserved and every worker thread is about to start. */
  ghost predicate Init(s: State) {
    && s.cfg.size >= 1
    && (s.cfg.capacity.Some? ==> s.cfg.capacity.value >= 1)
    && s.flags == Flags(true, false, Running, 0, {})
    && s.n == Tally(0, 0, 0, 0, 0, 0, s.cfg.size)
    && s.jobs == map[] && s.subs == map[] && s.stops == map[]
    && s.calls == Calls(multiset{}, multiset{})
    && (forall w :: w in s.workers <==> 0 <= w < s.cfg.size)
    && (forall w :: w in s.workers ==> s.workers[w] == Starting)
  }

  ghost predicate At(jobs: map<Job, Place>, j: Job, p: Place) {
    j in jobs && jobs[j] == p
  }

  ghost predicate Empty(jobs: map<Job, Place>, p: Place) {
    forall j :: j in jobs ==> jobs[j] != p
  }

  // ---------------------------------------------------------------- submitters

  ghost predicate BeginSubmit(s: State, t: Id, s': State) {
    t !in s.subs && s' == s.(subs := s.subs[t := if s.flags.accepting then Checked else Returned(WasClosed)])
  }

  // Positions between the first look at the gate and the decision to publish, and the way out.
  predicate Admits(pc: SubmitPc) {
    !pc.Committed? && !pc.Probe? && !pc.Push? && !pc.Returned?
  }

  /** One step of `begin_submit`, `reserve_queue_slot` or the guard's drop: the next position and counters. */
  function Admit(s: State, pc: SubmitPc): (SubmitPc, Tally)
    requires Admits(pc)
  {
    match pc
    case Checked => (Incremented, s.n.(inflight := s.n.inflight + 1))
    case Incremented => (if s.flags.accepting then Entered else Backing, s.n)
    case Backing => (Returned(WasClosed), s.n.(inflight := s.n.inflight - 1))
    case Entered =>
      if s.cfg.capacity.None? then (Reserved, s.n.(queued := s.n.queued + 1))
      else (if s.n.queued >= s.cfg.capacity.value then Leaving(WasFull) else Loaded(s.n.queued), s.n)
    case Loaded(current) => if s.n.queued == current then (Reserved, s.n.(queued := current + 1)) else (Entered, s.n)
    case Reserved => (if s.flags.accepting then Committed else Rollback, s.n)
    case Rollback => (Leaving(WasClosed), s.n.(queued := s.n.queued - 1))
    case Leaving(answer) => (Returned(answer), s.n.(inflight := s.n.inflight - 1))
  }

  ghost predicate AdmitStep(s: State, t: Id, s': State) {
    && t in s.subs && Admits(s.subs[t])
    && var (pc, n) := Admit(s, s.subs[t]);
    s' == s.(subs := s.subs[t := pc], n := n)
  }

  ghost predicate AcceptStep(s: State, t: Id, j: Job, s': State) {
    && t in s.subs && s.subs[t] == Committed && j !in s.jobs
    && s' == s.(
         n := s.n.(submitted := s.n.submitted + 1),
         jobs := s.jobs[j := Publishing(t)],
         subs := s.subs[t := if UseLocal(s.cfg) then Probe(j, ProbeCount(s.cfg)) else Push(j, Global)])
  }

  // One probe of the round-robin cursor, whose value `w` other submitters may have moved.
  ghost predicate ProbeStep(s: State, t: Id, w: Id, s': State) {
    && t in s.subs && s.subs[t].Probe? && 0 <= w < s.cfg.size
    && var Probe(j, left) := s.subs[t];
    s' == s.(subs := s.subs[t :=
      if left <= 0 then Push(j, Global) else if w in s.flags.active then Push(j, Inbox(w)) else Probe(j, left - 1)])
  }

  ghost predicate PushStep(s: State, t: Id, s': State) {
    && t in s.subs && s.subs[t].Push?
    && s' == s.(jobs := s.jobs[s.subs[t].job := s.subs[t].dest], subs := s.subs[t := Leaving(Took(s.subs[t].job))])
  }

  // ---------------------------------------------------------------- workers: looking into queues

  // Positions in which the worker is about to take from one queue.
  predicate Looks(pc: WorkerPc) {
    || pc.PopLocal? || pc.PopInbox? || pc.PopGlobal? || pc.PopSingle? || pc.ScanDeque? || pc.ScanInbox?
    || pc.CancelLocal? || pc.DrainDeque? || pc.DrainInbox? || pc.CancelBag?
  }

  predicate TakesBatch(pc: WorkerPc) {
    pc.PopInbox? || pc.PopGlobal? || pc.ScanDeque? || pc.ScanInbox?
  }

  function Victim(cfg: Config, start: int, offset: int): Id {
    if cfg.size > 0 then (start + offset) % cfg.size else 0
  }

  function Source(cfg: Config, w: Id, pc: WorkerPc): Place
    requires Looks(pc)
  {
    match pc
    case PopLocal => Local(w)
    case PopInbox => Inbox(w)
    case PopGlobal => Global
    case PopSingle => Global
    case ScanDeque(start, offset) => Local(Victim(cfg, start, offset))
    case ScanInbox(start, offset) => Inbox(Victim(cfg, start, offset))
    case CancelLocal => Local(w)
    case DrainDeque => Local(w)
    case DrainInbox => Inbox(w)
    case CancelBag => Held(Worker(w), Bagged)
  }

  function OnMiss(cfg: Config, pc: WorkerPc): WorkerPc
    requires Looks(pc)
  {
    match pc
    case PopLocal => PopInbox
    case PopInbox => PopGlobal
    case PopGlobal => PopSingle
    case PopSingle => if UseLocal(cfg) && cfg.size > 1 then ScanStart else Wait
    case ScanDeque(start, offset) => ScanInbox(start, offset)
    case ScanInbox(start, offset) => Scan(start, offset + 1)
    case CancelLocal => DrainDeque
    case DrainDeque => DrainInbox
    case DrainInbox => CancelBag
    case CancelBag => Resume
  }

  function OnHit(pc: WorkerPc, j: Job): WorkerPc
    requires Looks(pc)
  {
    match pc
    case CancelLocal => CancelSub(j, false)
    case DrainDeque => DrainDeque
    case DrainInbox => DrainInbox
    case CancelBag => CancelSub(j, true)
    case _ => Accept(j)
  }

  function HitStage(pc: WorkerPc): Stage {
    if pc.DrainDeque? || pc.DrainInbox? then Bagged else Claimed
  }

  ghost predicate MissStep(s: State, w: Id, s': State) {
    && w in s.workers && Looks(s.workers[w])
    && Empty(s.jobs, Source(s.cfg, w, s.workers[w]))
    && s' == s.(workers := s.workers[w := OnMiss(s.cfg, s.workers[w])])
  }

  ghost predicate HitStep(s: State, w: Id, j: Job, s': State) {
    && w in s.workers && Looks(s.workers[w]) && !TakesBatch(s.workers[w])
    && At(s.jobs, j, Source(s.cfg, w, s.workers[w]))
    && s' == s.(jobs := s.jobs[j := Held(Worker(w), HitStage(s.workers[w]))],
                workers := s.workers[w := OnHit(s.workers[w], j)])
  }

  // The jobs after worker `w` stole `j` and the batch `more` out of one queue: the batch goes to its own deque.
  ghost function Batched(jobs: map<Job, Place>, w: Id, j: Job, more: set<Job>): map<Job, Place> {
    map k | k in jobs :: if k == j then Held(Worker(w), Claimed) else if k in more then Local(w) else jobs[k]
  }

  ghost predicate BatchStep(s: State, w: Id, j: Job, more: set<Job>, s': State) {
    && w in s.workers && Looks(s.workers[w]) && TakesBatch(s.workers[w])
    && var from := Source(s.cfg, w, s.workers[w]);
    && At(s.jobs, j, from) && (forall k :: k in more ==> At(s.jobs, k, from))
    && s' == s.(jobs := Batched(s.jobs, w, j, more), workers := s.workers[w := Accept(j)])
  }

  // ---------------------------------------------------------------- workers: one job in hand

  // Positions in which the worker has exactly one job in its hands and is about to act on it.
  predicate Busy(pc: WorkerPc) {
    || pc.Accept? || pc.MarkSub? || pc.MarkAdd? || pc.Run? || pc.FinishSub? || pc.FinishAdd?
    || pc.CancelSub? || pc.CancelAdd? || pc.CancelCall?
  }

  datatype Work = Work(pc: WorkerPc, place: Place, n: Tally, calls: Calls)

  /** One step of `accept_claimed_job`, `mark_queued_job_running`, the job itself, `finish_running_job` or
      `cancel_claimed_job`. */
  function Handle(s: State, w: Id, pc: WorkerPc): Work
    requires Busy(pc)
  {
    var me := Worker(w);
    match pc
    case Accept(j) => Work(if s.flags.stopNow then CancelSub(j, false) else MarkSub(j), Held(me, Claimed), s.n, s.calls)
    case MarkSub(j) => Work(MarkAdd(j), Held(me, Between), s.n.(queued := s.n.queued - 1), s.calls)
    case MarkAdd(j) => Work(Run(j), Held(me, Counted), s.n.(running := s.n.running + 1), s.calls)
    case Run(j) => Work(FinishSub(j), Held(me, Invoked), s.n, s.calls.(runs := s.calls.runs + multiset{j}))
    case FinishSub(j) => Work(FinishAdd(j), Held(me, Ran), s.n.(running := s.n.running - 1), s.calls)
    case FinishAdd(_) => Work(Top, Completed, s.n.(completed := s.n.completed + 1), s.calls)
    case CancelSub(j, b) => Work(CancelAdd(j, b), Held(me, Uncounted), s.n.(queued := s.n.queued - 1), s.calls)
    case CancelAdd(j, b) => Work(CancelCall(j, b), Held(me, Cancelling), s.n.(cancelled := s.n.cancelled + 1), s.calls)
    case CancelCall(j, b) =>
      Work(if b then CancelBag else CancelLocal, Cancelled(me), s.n, s.calls.(cancels := s.calls.cancels + multiset{j}))
  }

  ghost predicate WorkStep(s: State, w: Id, s': State) {
    && w in s.workers && Busy(s.workers[w])
    && var work := Handle(s, w, s.workers[w]);
    s' == s.(n := work.n, jobs := s.jobs[s.workers[w].job := work.place], calls := work.calls,
             workers := s.workers[w := work.pc])
  }

  // ---------------------------------------------------------------- workers: loop control

  // Positions in which the worker only reads flags and counters, or signs on and off.
  predicate Steers(pc: WorkerPc) {
    || pc.Starting? || pc.Top? || pc.Resume? || pc.ScanStart? || pc.Scan? || pc.Wait? || pc.Dozing? || pc.ExitCheck?
         || pc.ExitInflight?
    || pc.Deactivate? || pc.Unregister?
  }

  /** The next position of the worker loop. `pick` stands for the steal cursor, for spurious wake-ups and, after a
      worker cancelled the job it had taken, for where it had taken it: from the global queue, it goes on to steal. */
  function Steer(s: State, w: Id, pc: WorkerPc, pick: int): WorkerPc
    requires Steers(pc)
  {
    match pc
    case Starting => Top
    case Top => if s.flags.stopNow then CancelLocal else if UseLocal(s.cfg) then PopLocal else PopSingle
    case Resume => if UseLocal(s.cfg) && s.cfg.size > 1 && pick != 0 then ScanStart else Wait
    case ScanStart => Scan(pick, 0)
    case Scan(start, offset) =>
      if offset >= s.cfg.size then Wait
      else if Victim(s.cfg, start, offset) == w || Victim(s.cfg, start, offset) !in s.flags.active then
        Scan(start, offset + 1)
      else ScanDeque(start, offset)
    case Wait =>
      (match s.flags.life
       case Running => if s.n.queued > 0 then Top else Dozing
       case Shutdown => if s.n.queued > 0 then Top else ExitCheck
       case Stopping => Deactivate(false))
    case Dozing => if pick == 0 then Wait else Top
    case ExitCheck => if s.n.queued == 0 then ExitInflight else Dozing
    case ExitInflight => if s.n.inflight == 0 then Deactivate(true) else Dozing
    case Deactivate(d) => Unregister(d)
    case Unregister(d) => Exited(d)
  }

  ghost predicate SteerStep(s: State, w: Id, pick: int, s': State) {
    && w in s.workers && Steers(s.workers[w])
    && var pc := s.workers[w];
    s' == s.(
      workers := s.workers[w := Steer(s, w, pc, pick)],
      n := s.n.(live := if pc.Unregister? then s.n.live - 1 else s.n.live),
      flags := s.flags.(active := if pc.Starting? then s.flags.active + {w}
                                  else if pc.Deactivate? then s.flags.active - {w} else s.flags.active))
  }

  // ---------------------------------------------------------------- graceful shutdown

  ghost predicate CloseStep(s: State, s': State) {
    s' == s.(flags := s.flags.(accepting := false, closing := s.flags.closing + 1))
  }

  ghost predicate MarkShutdownStep(s: State, s': State) {
    && s.flags.closing > 0
    && s' == s.(flags := s.flags.(closing := s.flags.closing - 1,
                                  life := if s.flags.life == Running then Shutdown else s.flags.life))
  }

  // ---------------------------------------------------------------- immediate shutdown

  ghost predicate BeginStop(s: State, c: Id, s': State) {
    c !in s.stops && s' == s.(stops := s.stops[c := StopCall(CloseGate, 0, 0, 0, 0)])
  }

  predicate Closes(pc: StopPc) {
    pc.CloseGate? || pc.RaiseFlag? || pc.ReadRunning? || pc.SetStopping? || pc.AwaitInflight?
  }

  ghost predicate StopStep(s: State, c: Id, s': State) {
    && c in s.stops && Closes(s.stops[c].pc)
    && var call := s.stops[c];
    var (pc, flags) := (
      match call.pc
      case CloseGate => (RaiseFlag, s.flags.(accepting := false))
      case RaiseFlag => (ReadRunning, s.flags.(stopNow := true))
      case ReadRunning => (SetStopping, s.flags)
      case SetStopping => (AwaitInflight, s.flags.(life := Stopping))
      case AwaitInflight => (if s.n.inflight > 0 then AwaitInflight else TakeGlobal, s.flags));
    s' == s.(flags := flags,
             stops := s.stops[c := call.(
               pc := pc, sawRunning := if call.pc.ReadRunning? then s.n.running else call.sawRunning)])
  }

  // Positions in which the call is about to take from one queue.
  predicate Drains(cfg: Config, pc: StopPc) {
    pc.TakeGlobal? || pc.TakeInbox? || (pc.TakeDeque? && pc.i < cfg.size)
  }

  function DrainSource(cfg: Config, pc: StopPc): Place
    requires Drains(cfg, pc)
  {
    match pc
    case TakeGlobal => Global
    case TakeDeque(i) => Local(i)
    case TakeInbox(i) => Inbox(i)
  }

  ghost predicate DrainHit(s: State, c: Id, j: Job, s': State) {
    && c in s.stops && Drains(s.cfg, s.stops[c].pc)
    && At(s.jobs, j, DrainSource(s.cfg, s.stops[c].pc))
    && s' == s.(jobs := s.jobs[j := Held(Stopper(c), Bagged)],
                stops := s.stops[c := s.stops[c].(taken := s.stops[c].taken + 1)])
  }

  ghost predicate DrainMiss(s: State, c: Id, s': State) {
    && c in s.stops && Drains(s.cfg, s.stops[c].pc)
    && Empty(s.jobs, DrainSource(s.cfg, s.stops[c].pc))
    && s' == s.(stops := s.stops[c := s.stops[c].(pc :=
         match s.stops[c].pc
         case TakeGlobal => TakeDeque(0)
         case TakeDeque(i) => TakeInbox(i)
         case TakeInbox(i) => TakeDeque(i + 1))])
  }

  // The end of one pass over all queues: another pass unless this one found nothing.
  ghost predicate PassStep(s: State, c: Id, s': State) {
    && c in s.stops && s.stops[c].pc.TakeDeque? && s.stops[c].pc.i >= s.cfg.size
    && var call := s.stops[c];
    s' == s.(stops := s.stops[c := if call.taken == call.before then call.(pc := SubQueued)
                                   else call.(pc := TakeGlobal, before := call.taken, passes := call.passes + 1)])
  }

  // The bag of a stopping call moves as a whole: one subtraction, one addition.
  ghost function Rebagged(jobs: map<Job, Place>, c: Id, from: Stage, to: Stage): map<Job, Place> {
    map k | k in jobs :: if jobs[k] == Held(Stopper(c), from) then Held(Stopper(c), to) else jobs[k]
  }

  ghost predicate SubStep(s: State, c: Id, s': State) {
    && c in s.stops && s.stops[c].pc.SubQueued?
    && s' == s.(n := s.n.(queued := s.n.queued - s.stops[c].taken),
                jobs := Rebagged(s.jobs, c, Bagged, Uncounted),
                stops := s.stops[c := s.stops[c].(pc := AddCancelled)])
  }

  ghost predicate AddStep(s: State, c: Id, s': State) {
    && c in s.stops && s.stops[c].pc.AddCancelled?
    && s' == s.(n := s.n.(cancelled := s.n.cancelled + s.stops[c].taken),
                jobs := Rebagged(s.jobs, c, Uncounted, Cancelling),
                stops := s.stops[c := s.stops[c].(pc := CallCancel)])
  }

  ghost predicate CallStep(s: State, c: Id, j: Job, s': State) {
    && c in s.stops && s.stops[c].pc.CallCancel?
    && At(s.jobs, j, Held(Stopper(c), Cancelling))
    && s' == s.(jobs := s.jobs[j := Cancelled(Stopper(c))],
                calls := s.calls.(cancels := s.calls.cancels + multiset{j}))
  }

  ghost predicate ReturnStep(s: State, c: Id, s': State) {
    && c in s.stops && s.stops[c].pc.CallCancel?
    && Empty(s.jobs, Held(Stopper(c), Cancelling))
    && s' == s.(stops := s.stops[c := s.stops[c].(pc := Done)])
  }

  // ---------------------------------------------------------------- runs

  // One atomic step: who takes it, and the choices the scheduler and the queues make.
  datatype Event =
    | Begin(t: Id) | Admission(t: Id) | Accepted(t: Id, j: Job) | Probed(t: Id, w: Id) | Pushed(t: Id)
    | Miss(w: Id) | Hit(w: Id, j: Job) | Batch(w: Id, j: Job, more: set<Job>) | Worked(w: Id)
    | Steered(w: Id, pick: int)
    | Close | MarkShutdown
    | StopBegin(c: Id) | Stop(c: Id) | DrainedOne(c: Id, j: Job) | DrainedAll(c: Id) | Pass(c: Id)
    | Sub(c: Id) | Add(c: Id) | Call(c: Id, j: Job) | Return(c: Id)

  ghost predicate Step(s: State, e: Event, s': State) {
    match e
    case Begin(t) => BeginSubmit(s, t, s')
    case Admission(t) => AdmitStep(s, t, s')
    case Accepted(t, j) => AcceptStep(s, t, j, s')
    case Probed(t, w) => ProbeStep(s, t, w, s')
    case Pushed(t) => PushStep(s, t, s')
    case Miss(w) => MissStep(s, w, s')
    case Hit(w, j) => HitStep(s, w, j, s')
    case Batch(w, j, more) => BatchStep(s, w, j, more, s')
    case Worked(w) => WorkStep(s, w, s')
    case Steered(w, pick) => SteerStep(s, w, pick, s')
    case Close => CloseStep(s, s')
    case MarkShutdown => MarkShutdownStep(s, s')
    case StopBegin(c) => BeginStop(s, c, s')
    case Stop(c) => StopStep(s, c, s')
    case DrainedOne(c, j) => DrainHit(s, c, j, s')
    case DrainedAll(c) => DrainMiss(s, c, s')
    case Pass(c) => PassStep(s, c, s')
    case Sub(c) => SubStep(s, c, s')
    case Add(c) => AddStep(s, c, s')
    case Call(c, j) => CallStep(s, c, j, s')
    case Return(c) => ReturnStep(s, c, s')
  }

  ghost predicate Next(s: State, s': State) {
    exists e :: Step(s, e, s')
  }

  ghost predicate IsRun(run: seq<State>) {
    && |run| > 0
    && Init(run[0])
    && forall i :: 0 <= i < |run| - 1 ==> Next(run[i], run[i + 1])
  }
}
