// What a worker of the fixed pool has looked at when it finds no job, and when it sleeps or leaves.

module FixedPoolSweeps {
  import opened Counting
  import opened Lifecycles
  import opened FixedPool
  import opened FixedPoolInvariant
  import opened FixedPoolTheorems

  // ---------------------------------------------------------------- active workers

  /** A worker is marked active from its first step until it leaves. */
  ghost predicate ActiveOk(s: State) {
    forall w :: w in s.flags.active <==>
      w in s.workers && !s.workers[w].Starting? && !s.workers[w].Unregister? && !s.workers[w].Exited?
  }

  lemma WorkerKeepsActive(s: State, e: Event, s': State)
    requires ActiveOk(s) && Step(s, e, s') && OfWorker(e)
    ensures ActiveOk(s')
  {
    hide Source, HitStage, Victim;
  }

  lemma StepKeepsActive(s: State, e: Event, s': State)
    requires ActiveOk(s) && Step(s, e, s')
    ensures ActiveOk(s')
  {
    if OfWorker(e) {
      WorkerKeepsActive(s, e, s');
    } else {
      hide Admit;
      assert s'.workers == s.workers && s'.flags.active == s.flags.active;
    }
  }

  /** In every state of every run the active workers are exactly those that have started and not begun to leave. */
  lemma {:induction false} ActiveWorkers(run: seq<State>, k: int)
    requires IsRun(run) && 0 <= k < |run|
    ensures ActiveOk(run[k])
  {
    hide ActiveOk, Step;
    if k == 0 {
      assert ActiveOk(run[0]) by { NobodyActive(run[0]); }
    } else {
      ActiveWorkers(run, k - 1);
      assert Next(run[k - 1], run[k - 1 + 1]);
      var e :| Step(run[k - 1], e, run[k]);
      StepKeepsActive(run[k - 1], e, run[k]);
    }
  }

  lemma NobodyActive(s: State)
    requires Init(s)
    ensures ActiveOk(s)
  {
  }

  // ---------------------------------------------------------------- one sweep over the queues

  /** At some moment from `i` to `m` the queue was empty. */
  ghost predicate Missed(run: seq<State>, i: int, m: int, queue: Place) {
    exists x :: 0 <= i <= x <= m < |run| && Empty(run[x].jobs, queue)
  }

  /** At some moment from `i` to `m` the worker was not active. */
  ghost predicate Inactive(run: seq<State>, i: int, m: int, v: Id) {
    exists x :: 0 <= i <= x <= m < |run| && v !in run[x].flags.active
  }

  /** Worker `w` has looked into the queues of `v`, unless these are its own or `v` was inactive. */
  ghost predicate Passed(run: seq<State>, i: int, m: int, w: Id, v: Id) {
    v == w || Inactive(run, i, m, v) || (Missed(run, i, m, Local(v)) && Missed(run, i, m, Inbox(v)))
  }

  ghost predicate PassedUpTo(run: seq<State>, i: int, m: int, w: Id, start: int, offset: int)
    requires 0 <= m < |run|
  {
    forall o :: 0 <= o < offset ==> Passed(run, i, m, w, Victim(run[m].cfg, start, o))
  }

  // How many of its own queues and the global one a position has behind it.
  function Behind(pc: WorkerPc): int {
    match pc
    case PopInbox => 1
    case PopGlobal => 2
    case PopSingle => 3
    case ScanStart => 4
    case Scan(_, _) => 4
    case ScanDeque(_, _) => 4
    case ScanInbox(_, _) => 4
    case Wait => 4
    case _ => 0
  }

  // Positions between the top of the loop and the wait, as long as nobody stops the pool.
  predicate OnPath(pc: WorkerPc) {
    pc.Top? || pc.Wait? || pc.ScanStart? || pc.Scan? || Seeks(pc) || Works(pc)
  }

  predicate Seeks(pc: WorkerPc) {
    pc.PopLocal? || pc.PopInbox? || pc.PopGlobal? || pc.PopSingle? || pc.ScanDeque? || pc.ScanInbox?
  }

  predicate Works(pc: WorkerPc) {
    pc.Accept? || pc.MarkSub? || pc.MarkAdd? || pc.Run? || pc.FinishSub? || pc.FinishAdd?
  }

  /** What a worker that looks for a job has found empty, in this order, since it began at state `i`. */
  ghost predicate Swept(run: seq<State>, i: int, m: int, w: Id)
    requires 0 <= i <= m < |run| && w in run[m].workers
  {
    var pc := run[m].workers[w];
    var local := UseLocal(run[m].cfg);
    && OnPath(pc)
    && (local && Behind(pc) >= 1 ==> Missed(run, i, m, Local(w)))
    && (local && Behind(pc) >= 2 ==> Missed(run, i, m, Inbox(w)))
    && (Behind(pc) >= 4 ==> Missed(run, i, m, Global))
    && (pc.Scan? || pc.ScanDeque? || pc.ScanInbox? ==> pc.offset >= 0 && PassedUpTo(run, i, m, w, pc.start, pc.offset))
    && (pc.ScanInbox? ==> Missed(run, i, m, Local(Victim(run[m].cfg, pc.start, pc.offset))))
    && (pc.Wait? && local ==> forall v :: 0 <= v < run[m].cfg.size ==> Passed(run, i, m, w, v))
  }

  lemma MissedStays(run: seq<State>, i: int, m: int, queue: Place)
    requires 0 <= i <= m < |run| - 1
    ensures Missed(run, i, m, queue) ==> Missed(run, i, m + 1, queue)
  {
  }

  lemma MissedNow(run: seq<State>, i: int, m: int, queue: Place)
    requires 0 <= i <= m < |run| && Empty(run[m].jobs, queue)
    ensures Missed(run, i, m, queue)
  {
  }

  lemma PassedStays(run: seq<State>, i: int, m: int, w: Id, v: Id)
    requires 0 <= i <= m < |run| - 1
    ensures Passed(run, i, m, w, v) ==> Passed(run, i, m + 1, w, v)
  {
    MissedStays(run, i, m, Local(v));
    MissedStays(run, i, m, Inbox(v));
  }

  /** The scan, wherever it starts, comes to every worker. */
  lemma VictimCovers(cfg: Config, start: int, v: Id)
    requires 0 <= v < cfg.size
    ensures Victim(cfg, start, (v - start) % cfg.size) == v && 0 <= (v - start) % cfg.size < cfg.size
  {
    var n, o := cfg.size, (v - start) % cfg.size;
    var q := (v - start) / n;
    assert v - start == q * n + o;
    assert start + o == v + (-q) * n;
    ModOf(v, -q, n);
  }

  lemma ModOf(v: int, q: int, n: int)
    requires 0 <= v < n
    ensures (v + q * n) % n == v
  {
    var x := v + q * n;
    var d, r := x / n, x % n;
    assert x == d * n + r;
    assert (q - d) * n == r - v && (d - q) * n == v - r;
    if q - d >= 1 {
      Larger(q - d, n);
    } else if d - q >= 1 {
      Larger(d - q, n);
    }
  }

  lemma Larger(a: int, n: int)
    requires a >= 1 && n >= 1
    ensures a * n >= n
  {
    assert (a - 1) * n >= 0;
  }

  // ---------------------------------------------------------------- every step of a worker in its sweep

  /** Finding one queue empty adds that queue. */
  lemma MissSweeps(run: seq<State>, i: int, m: int, w: Id)
    requires 0 <= i <= m < |run| - 1 && w in run[m].workers && Swept(run, i, m, w) && 0 <= w < run[m].cfg.size
    requires MissStep(run[m], w, run[m + 1]) && Seeks(run[m].workers[w])
    requires NeedsLocal(run[m].workers[w]) ==> UseLocal(run[m].cfg)
    ensures w in run[m + 1].workers && Swept(run, i, m + 1, w)
  {
    hide Swept;
    var pc := run[m].workers[w];
    if pc.ScanDeque? || pc.ScanInbox? {
      ScanMissSweeps(run, i, m, w);
    } else {
      PopMissSweeps(run, i, m, w);
    }
  }

  lemma ScanMissSweeps(run: seq<State>, i: int, m: int, w: Id)
    requires 0 <= i <= m < |run| - 1 && w in run[m].workers && Swept(run, i, m, w)
    requires MissStep(run[m], w, run[m + 1]) && (run[m].workers[w].ScanDeque? || run[m].workers[w].ScanInbox?)
    ensures w in run[m + 1].workers && Swept(run, i, m + 1, w)
  {
    var s, pc, n := run[m], run[m].workers[w], m + 1;
    MissedNow(run, i, m, Source(s.cfg, w, pc));
    SweptStays(run, i, m, w);
    hide Missed, Empty, Victim;
    if pc.ScanInbox? {
      assert Passed(run, i, n, w, Victim(s.cfg, pc.start, pc.offset));
    }
    hide Passed;
  }

  lemma PopMissSweeps(run: seq<State>, i: int, m: int, w: Id)
    requires 0 <= i <= m < |run| - 1 && w in run[m].workers && Swept(run, i, m, w) && 0 <= w < run[m].cfg.size
    requires MissStep(run[m], w, run[m + 1]) && Seeks(run[m].workers[w])
    requires !run[m].workers[w].ScanDeque? && !run[m].workers[w].ScanInbox?
    requires NeedsLocal(run[m].workers[w]) ==> UseLocal(run[m].cfg)
    ensures w in run[m + 1].workers && Swept(run, i, m + 1, w)
  {
    var s, pc, n := run[m], run[m].workers[w], m + 1;
    MissedNow(run, i, m, Source(s.cfg, w, pc));
    SweptStays(run, i, m, w);
    hide Missed, Empty, PassedUpTo;
    if pc.PopSingle? && UseLocal(s.cfg) && s.cfg.size <= 1 {
      assert forall v :: 0 <= v < s.cfg.size ==> Passed(run, i, n, w, v);
    }
    hide Passed;
  }

  /** Going on with the scan adds the worker that is passed over, and the end of the scan has passed all. */
  lemma SteerSweeps(run: seq<State>, i: int, m: int, w: Id, pick: int)
    requires 0 <= i <= m < |run| - 1 && w in run[m].workers && Swept(run, i, m, w) && 0 <= w < run[m].cfg.size
    requires SteerStep(run[m], w, pick, run[m + 1]) && !run[m].workers[w].Wait? && !run[m].flags.stopNow
    ensures w in run[m + 1].workers && Swept(run, i, m + 1, w)
  {
    var s, pc, n := run[m], run[m].workers[w], m + 1;
    SweptStays(run, i, m, w);
    if pc.Scan? {
      if pc.offset >= s.cfg.size {
        forall v | 0 <= v < s.cfg.size
          ensures Passed(run, i, n, w, v)
        {
          VictimCovers(s.cfg, pc.start, v);
          assert Passed(run, i, m, w, Victim(s.cfg, pc.start, (v - pc.start) % s.cfg.size));
        }
      } else {
        hide Missed;
        assert Victim(s.cfg, pc.start, pc.offset) !in s.flags.active ==>
          Passed(run, i, m + 1, w, Victim(s.cfg, pc.start, pc.offset));
      }
    }
    hide Missed, Passed;
  }

  /** What had been missed before is still missed one state later. */
  lemma SweptStays(run: seq<State>, i: int, m: int, w: Id)
    requires 0 <= i <= m < |run| - 1 && run[m + 1].cfg == run[m].cfg
    ensures forall queue :: Missed(run, i, m, queue) ==> Missed(run, i, m + 1, queue)
    ensures forall v :: Passed(run, i, m, w, v) ==> Passed(run, i, m + 1, w, v)
    ensures forall start, offset :: PassedUpTo(run, i, m, w, start, offset) ==>
        PassedUpTo(run, i, m + 1, w, start, offset)
  {
    forall queue
      ensures Missed(run, i, m, queue) ==> Missed(run, i, m + 1, queue)
    {
      MissedStays(run, i, m, queue);
    }
    forall v
      ensures Passed(run, i, m, w, v) ==> Passed(run, i, m + 1, w, v)
    {
      PassedStays(run, i, m, w, v);
    }
    hide Missed, Passed;
  }

  /** Every other step of anybody takes nothing back. */
  lemma OtherSweeps(run: seq<State>, i: int, m: int, w: Id)
    requires 0 <= i <= m < |run| - 1 && w in run[m].workers && Swept(run, i, m, w)
    requires run[m + 1].cfg == run[m].cfg && w in run[m + 1].workers
    requires var pc, pc' := run[m].workers[w], run[m + 1].workers[w]; pc' == pc || pc'.Top? || Works(pc')
    ensures Swept(run, i, m + 1, w)
  {
    SweptStays(run, i, m, w);
    hide Missed, Passed, PassedUpTo;
    var pc, n := run[m].workers[w], m + 1;
    if pc.Wait? && run[n].workers[w].Wait? && UseLocal(run[m].cfg) {
      forall v | 0 <= v < run[m].cfg.size
        ensures Passed(run, i, n, w, v)
      {
        assert Passed(run, i, m, w, v);
        PassedStays(run, i, m, w, v);
      }
    }
  }

  /** What one step does to the position of worker `w`, as long as the pool is not stopped. */
  lemma PositionMoves(s: State, e: Event, s': State, w: Id)
    requires Step(s, e, s') && w in s.workers && OnPath(s.workers[w]) && !s.flags.stopNow && !s.workers[w].Wait?
    ensures w in s'.workers && s'.cfg == s.cfg
    ensures || s'.workers[w] == s.workers[w] || s'.workers[w].Top? || Works(s'.workers[w])
            || (e.Miss? && e.w == w && Seeks(s.workers[w])) || (e.Steered? && e.w == w)
  {
    SameFrame(s, e, s', w);
    if OfWorker(e) && e.w == w {
      hide Steer, Source, OnMiss;
    } else {
      hide Step;
    }
  }

  lemma StepSweeps(run: seq<State>, i: int, m: int, w: Id, e: Event)
    requires 0 <= i <= m < |run| - 1 && w in run[m].workers && Swept(run, i, m, w) && !run[m].workers[w].Wait?
    requires Hands(run[m]) && Step(run[m], e, run[m + 1]) && !run[m].flags.stopNow
    ensures w in run[m + 1].workers && Swept(run, i, m + 1, w)
  {
    PositionMoves(run[m], e, run[m + 1], w);
    if e.Miss? && e.w == w {
      MissSweeps(run, i, m, w);
    } else if e.Steered? && e.w == w {
      SteerSweeps(run, i, m, w, e.pick);
    } else {
      OtherSweeps(run, i, m, w);
    }
  }

  // ---------------------------------------------------------------- nothing overlooked

  /** The queues a worker of the pool looks into, apart from those of workers that were inactive for a while. */
  ghost predicate LooksInto(run: seq<State>, i: int, k: int, w: Id, queue: Place)
    requires 0 <= i <= k < |run|
  {
    || queue == Global
    || (UseLocal(run[k].cfg) && (queue == Local(w) || queue == Inbox(w)))
    || (UseLocal(run[k].cfg) && exists v :: 0 <= v < run[k].cfg.size && !Inactive(run, i, k, v)
                                             && (queue == Local(v) || queue == Inbox(v)))
  }

  /** The worker has been between the top of its loop and the wait ever since state `i`. */
  lemma {:induction false} SweepOf(run: seq<State>, i: int, k: int, w: Id)
    requires IsRun(run) && 0 <= i <= k < |run| && w in run[i].workers && run[i].workers[w].Top?
    requires !run[k].flags.stopNow
    requires forall m :: i <= m < k ==> w in run[m].workers && !run[m].workers[w].Wait?
    ensures w in run[k].workers && Swept(run, i, k, w)
    decreases k
  {
    hide Step, Init, Inv, Swept;
    if i == k {
      assert Swept(run, i, i, w) by { SweepBegins(run, i, w); }
    } else {
      assert Next(run[k - 1], run[k - 1 + 1]);
      var e :| Step(run[k - 1], e, run[k]);
      FlagStays(run[k - 1], e, run[k]);
      SweepOf(run, i, k - 1, w);
      EveryState(run, k - 1);
      assert Hands(run[k - 1]) by { InvHands(run[k - 1]); }
      StepSweeps(run, i, k - 1, w, e);
    }
  }

  lemma SweepBegins(run: seq<State>, i: int, w: Id)
    requires 0 <= i < |run| && w in run[i].workers && run[i].workers[w].Top?
    ensures Swept(run, i, i, w)
  {
  }

  lemma FlagStays(s: State, e: Event, s': State)
    requires Step(s, e, s')
    ensures s.flags.stopNow ==> s'.flags.stopNow
  {
    hide Steer, Handle, Source, OnMiss, OnHit, HitStage, Admit;
  }

  lemma InvHands(s: State)
    requires Inv(s)
    ensures Hands(s)
  {
  }

  /** A worker that has gone from the top of its loop to its wait without a stop has overlooked nothing: no job lay in
      one of the queues it looks into all the while. */
  lemma NothingOverlooked(run: seq<State>, i: int, k: int, w: Id, queue: Place, j: Job)
    requires IsRun(run) && 0 <= i <= k < |run| && w in run[i].workers && run[i].workers[w].Top?
    requires !run[k].flags.stopNow && w in run[k].workers && run[k].workers[w].Wait?
    requires forall m :: i <= m < k ==> w in run[m].workers && !run[m].workers[w].Wait?
    requires LooksInto(run, i, k, w, queue)
    ensures exists m :: i <= m <= k && !At(run[m].jobs, j, queue)
  {
    SweepOf(run, i, k, w);
    hide IsRun, Inactive;
    assert Missed(run, i, k, queue) by { MissedAll(run, i, k, w, queue); }
    var x :| i <= x <= k && Empty(run[x].jobs, queue);
    assert !At(run[x].jobs, j, queue);
  }

  lemma MissedAll(run: seq<State>, i: int, k: int, w: Id, queue: Place)
    requires 0 <= i <= k < |run| && w in run[k].workers && run[k].workers[w].Wait? && Swept(run, i, k, w)
    requires LooksInto(run, i, k, w, queue)
    ensures Missed(run, i, k, queue)
  {
    hide Missed, Inactive;
    if queue != Global && queue != Local(w) && queue != Inbox(w) {
      var v :| 0 <= v < run[k].cfg.size && !Inactive(run, i, k, v) && (queue == Local(v) || queue == Inbox(v));
      assert Passed(run, i, k, w, v);
    }
  }

  // ---------------------------------------------------------------- the worker's own queues, also under a stop

  // Positions between the top of the loop and the wait.
  predicate InLoop(pc: WorkerPc) {
    !pc.Starting? && !pc.Dozing? && !pc.ExitCheck? && !pc.ExitInflight? && !pc.Deactivate? && !pc.Unregister?
    && !pc.Exited?
  }

  // How many of its own two queues a position has behind it, whether it takes or cancels jobs.
  function OwnBehind(pc: WorkerPc): int {
    match pc
    case PopInbox => 1
    case DrainDeque => 1
    case DrainInbox => 1
    case PopGlobal => 2
    case PopSingle => 2
    case ScanStart => 2
    case Scan(_, _) => 2
    case ScanDeque(_, _) => 2
    case ScanInbox(_, _) => 2
    case CancelBag => 2
    case CancelSub(_, fromBag) => if fromBag then 2 else 0
    case CancelAdd(_, fromBag) => if fromBag then 2 else 0
    case CancelCall(_, fromBag) => if fromBag then 2 else 0
    case Resume => 2
    case Wait => 2
    case _ => 0
  }

  // Positions that look at the global queue or lead there.
  predicate NearGlobal(pc: WorkerPc) {
    pc.PopLocal? || pc.PopInbox? || pc.PopGlobal? || pc.PopSingle?
  }

  /** What a worker has found empty of its own queues since state `i`; if the pool was stopped then, it has kept away
      from the global queue. */
  ghost predicate SweptOwn(run: seq<State>, i: int, m: int, w: Id)
    requires 0 <= i <= m < |run| && w in run[m].workers
  {
    var pc := run[m].workers[w];
    && InLoop(pc)
    && (UseLocal(run[m].cfg) && OwnBehind(pc) >= 1 ==> Missed(run, i, m, Local(w)))
    && (UseLocal(run[m].cfg) && OwnBehind(pc) >= 2 ==> Missed(run, i, m, Inbox(w)))
    && (run[i].flags.stopNow ==> run[m].flags.stopNow && !NearGlobal(pc))
  }

  /** What one step may do to a worker's position: come one own queue further, having found it empty, and keep away from
      the global queue if the pool is stopped. */
  ghost predicate OwnStep(s: State, w: Id, pc: WorkerPc, pc': WorkerPc) {
    && InLoop(pc')
    && (UseLocal(s.cfg) && OwnBehind(pc') > OwnBehind(pc) ==>
         && OwnBehind(pc') == OwnBehind(pc) + 1
         && Empty(s.jobs, if OwnBehind(pc) == 0 then Local(w) else Inbox(w)))
    && (s.flags.stopNow && !NearGlobal(pc) ==> !NearGlobal(pc'))
  }

  lemma MissOwn(s: State, w: Id, s': State)
    requires Hands(s) && MissStep(s, w, s') && InLoop(s.workers[w])
    ensures OwnStep(s, w, s.workers[w], s'.workers[w])
  {
    hide Victim, Empty;
  }

  lemma WorkOwn(s: State, w: Id, s': State)
    requires WorkStep(s, w, s') && InLoop(s.workers[w])
    ensures OwnStep(s, w, s.workers[w], s'.workers[w])
  {
    hide Empty;
  }

  lemma SteerOwn(s: State, w: Id, pick: int, s': State)
    requires SteerStep(s, w, pick, s') && InLoop(s.workers[w]) && !s.workers[w].Wait?
    ensures OwnStep(s, w, s.workers[w], s'.workers[w])
  {
    hide Victim, Empty;
  }

  lemma HitOwn(s: State, e: Event, s': State)
    requires Step(s, e, s') && (e.Hit? || e.Batch?) && InLoop(s.workers[e.w])
    ensures OwnStep(s, e.w, s.workers[e.w], s'.workers[e.w])
  {
    hide Victim, Empty, Source;
  }

  lemma OwnMoves(s: State, e: Event, s': State, w: Id)
    requires Hands(s) && Step(s, e, s') && w in s.workers && InLoop(s.workers[w]) && !s.workers[w].Wait?
    ensures w in s'.workers && s'.cfg == s.cfg && (s.flags.stopNow ==> s'.flags.stopNow)
    ensures OwnStep(s, w, s.workers[w], s'.workers[w])
  {
    SameFrame(s, e, s', w);
    FlagStays(s, e, s');
    if OfWorker(e) && e.w == w {
      hide MissStep, HitStep, BatchStep, WorkStep, SteerStep, OwnStep, Hands, InLoop;
      match e
      case Miss(_) => MissOwn(s, w, s');
      case Hit(_, _) => HitOwn(s, e, s');
      case Batch(_, _, _) => HitOwn(s, e, s');
      case Worked(_) => WorkOwn(s, w, s');
      case Steered(_, pick) => SteerOwn(s, w, pick, s');
    } else {
      hide Step;
    }
  }

  lemma SameFrame(s: State, e: Event, s': State, w: Id)
    requires Step(s, e, s') && w in s.workers
    ensures w in s'.workers && s'.cfg == s.cfg
    ensures !(OfWorker(e) && e.w == w) ==> s'.workers[w] == s.workers[w]
  {
    hide Steer, Handle, Source, OnMiss, OnHit, HitStage, Admit;
  }

  lemma StepSweepsOwn(run: seq<State>, i: int, m: int, w: Id, e: Event)
    requires 0 <= i <= m < |run| - 1 && w in run[m].workers && SweptOwn(run, i, m, w) && !run[m].workers[w].Wait?
    requires Hands(run[m]) && Step(run[m], e, run[m + 1])
    ensures w in run[m + 1].workers && SweptOwn(run, i, m + 1, w)
  {
    hide Step, Hands, Empty;
    OwnMoves(run[m], e, run[m + 1], w);
    SweptStays(run, i, m, w);
    if Empty(run[m].jobs, Local(w)) {
      MissedNow(run, i, m, Local(w));
    }
    if Empty(run[m].jobs, Inbox(w)) {
      MissedNow(run, i, m, Inbox(w));
    }
    hide Missed, InLoop, OwnBehind, NearGlobal;
  }

  lemma {:induction false} OwnSweepOf(run: seq<State>, i: int, k: int, w: Id)
    requires IsRun(run) && 0 <= i <= k < |run| && w in run[i].workers && run[i].workers[w].Top?
    requires forall m :: i <= m < k ==> w in run[m].workers && !run[m].workers[w].Wait?
    ensures w in run[k].workers && SweptOwn(run, i, k, w)
    decreases k
  {
    hide Step, Init, Inv, SweptOwn;
    if i == k {
      assert SweptOwn(run, i, i, w) by { OwnSweepBegins(run, i, w); }
    } else {
      OwnSweepOf(run, i, k - 1, w);
      EveryState(run, k - 1);
      assert Hands(run[k - 1]) by { InvHands(run[k - 1]); }
      assert Next(run[k - 1], run[k - 1 + 1]);
      var e :| Step(run[k - 1], e, run[k]);
      StepSweepsOwn(run, i, k - 1, w, e);
    }
  }

  lemma OwnSweepBegins(run: seq<State>, i: int, w: Id)
    requires 0 <= i < |run| && w in run[i].workers && run[i].workers[w].Top?
    ensures SweptOwn(run, i, i, w)
  {
  }

  /** Stopped or not, a worker with local queues that has gone from the top of its loop to its wait has left no job in
      its own deque or inbox: it took or cancelled all that lay there. */
  lemma OwnQueuesSwept(run: seq<State>, i: int, k: int, w: Id, queue: Place, j: Job)
    requires IsRun(run) && 0 <= i <= k < |run| && w in run[i].workers && run[i].workers[w].Top?
    requires w in run[k].workers && run[k].workers[w].Wait? && UseLocal(run[k].cfg)
    requires forall m :: i <= m < k ==> w in run[m].workers && !run[m].workers[w].Wait?
    requires queue == Local(w) || queue == Inbox(w)
    ensures exists m :: i <= m <= k && !At(run[m].jobs, j, queue)
  {
    OwnSweepOf(run, i, k, w);
    hide IsRun;
    assert Missed(run, i, k, queue);
    var x :| i <= x <= k && Empty(run[x].jobs, queue);
    assert !At(run[x].jobs, j, queue);
  }

  /** A worker that begins its loop after the stop flag went up does not look at the global queue before it waits. */
  lemma StoppedLeavesGlobal(run: seq<State>, i: int, k: int, w: Id)
    requires IsRun(run) && 0 <= i <= k < |run| && w in run[i].workers && run[i].workers[w].Top?
    requires run[i].flags.stopNow
    requires forall m :: i <= m < k ==> w in run[m].workers && !run[m].workers[w].Wait?
    ensures w in run[k].workers && !run[k].workers[w].PopGlobal? && !run[k].workers[w].PopSingle?
  {
    OwnSweepOf(run, i, k, w);
    hide IsRun, Missed;
  }

  // ---------------------------------------------------------------- sleeping and leaving

  /** Some slot of the queue is in use: reserved, or held by a job that no worker has marked as running yet. */
  ghost predicate SlotsInUse(s: State) {
    Somewhere(s.subs, HoldsSlot) || Somewhere(s.jobs, InSlot)
  }

  lemma SlotsAreCounted(s: State)
    requires Counters(s)
    ensures s.n.queued > 0 <==> SlotsInUse(s)
    ensures s.n.queued >= 0 && s.n.inflight >= 0
    ensures s.n.inflight > 0 <==> SomebodyInside(s)
  {
    SomeCounted(s.subs, HoldsSlot);
    SomeCounted(s.jobs, InSlot);
    SomeCounted(s.subs, InFlight);
    hide Count;
  }

  ghost predicate Somewhere<K, V>(m: map<K, V>, p: V -> bool) {
    exists k :: k in m && p(m[k])
  }

  lemma SomeCounted<K, V>(m: map<K, V>, p: V -> bool)
    ensures Count(m, p) > 0 <==> Somewhere(m, p)
  {
    CountZero(m, p);
  }

  /** Some submit call is counted as in flight. */
  ghost predicate SomebodyInside(s: State) {
    Somewhere(s.subs, InFlight)
  }

  /** What a waiting worker decides, exactly: it looks again if and only if a slot is in use and the pool is not
      stopping, sleeps if and only if the pool is running and no slot is in use, and begins to leave in all other
      cases. The two checks before it leaves through the Shutdown arm send it to sleep if and only if one of them
      finds something. */
  ghost predicate Decides(s: State, pc: WorkerPc, pc': WorkerPc) {
    && (pc.Wait? ==>
         && (pc'.Top? <==> s.flags.life != Stopping && SlotsInUse(s))
         && (pc'.Dozing? <==> s.flags.life == Running && !SlotsInUse(s))
         && (pc'.ExitCheck? <==> s.flags.life == Shutdown && !SlotsInUse(s))
         && (pc' == Deactivate(false) <==> s.flags.life == Stopping))
    && (pc.ExitCheck? ==> pc' == if SlotsInUse(s) then Dozing else ExitInflight)
    && (pc.ExitInflight? ==> pc' == if SomebodyInside(s) then Dozing else Deactivate(true))
  }

  lemma StepDecides(s: State, e: Event, s': State, w: Id)
    requires Counters(s) && Step(s, e, s') && w in s.workers && w in s'.workers && s'.workers[w] != s.workers[w]
    requires s.workers[w].Wait? || s.workers[w].ExitCheck? || s.workers[w].ExitInflight?
    ensures Decides(s, s.workers[w], s'.workers[w])
  {
    hide Step, Counters, SlotsInUse, SomebodyInside;
    SlotsAreCounted(s);
    WaitingMoves(s, e, s', w);
  }

  /** In every run. */
  lemma WaitDecides(run: seq<State>, k: int, w: Id)
    requires IsRun(run) && 0 <= k < |run| - 1 && w in run[k].workers && w in run[k + 1].workers
    requires run[k + 1].workers[w] != run[k].workers[w]
    requires run[k].workers[w].Wait? || run[k].workers[w].ExitCheck? || run[k].workers[w].ExitInflight?
    ensures Decides(run[k], run[k].workers[w], run[k + 1].workers[w])
  {
    hide Inv, Step, Decides;
    EveryState(run, k);
    assert Counters(run[k]) by { InvParts(run[k]); }
    assert Next(run[k], run[k + 1]);
    var e :| Step(run[k], e, run[k + 1]);
    StepDecides(run[k], e, run[k + 1], w);
  }

  lemma WaitingMoves(s: State, e: Event, s': State, w: Id)
    requires Step(s, e, s') && w in s.workers && w in s'.workers && s'.workers[w] != s.workers[w]
    requires s.workers[w].Wait? || s.workers[w].ExitCheck? || s.workers[w].ExitInflight?
    ensures s'.workers[w] == Steer(s, w, s.workers[w], 0)
  {
    SameFrame(s, e, s', w);
    assert OfWorker(e) && e.w == w;
    hide Steer, Source, OnMiss, OnHit, HitStage, Admit, Handle;
    assert e.Steered?;
  }

  // ---------------------------------------------------------------- what is_terminated reads

  /** The five reads of `is_terminated_locked`, in one state. */
  predicate SaysTerminated(s: State) {
    s.flags.life != Running && s.n.live == 0 && s.n.queued == 0 && s.n.running == 0 && s.n.inflight == 0
  }

  /** Taken in one state, the reads say terminated exactly if the pool is shut down, every worker is out, no slot is
      in use, no job is counted as running and nobody is inside `submit`. */
  lemma TerminatedExactlyWhen(run: seq<State>, k: int)
    requires IsRun(run) && 0 <= k < |run|
    ensures SaysTerminated(run[k]) <==>
      && run[k].flags.life != Running && AllExited(run[k])
      && !SlotsInUse(run[k]) && !Somewhere(run[k].jobs, IsRunning) && !SomebodyInside(run[k])
  {
    EveryState(run, k);
    assert Counters(run[k]) by { InvParts(run[k]); }
    hide IsRun, Inv, Counters;
    ReadsAreExact(run[k]);
  }

  lemma ReadsAreExact(s: State)
    requires Counters(s)
    ensures s.n.live == 0 <==> AllExited(s)
    ensures s.n.running == 0 <==> !Somewhere(s.jobs, IsRunning)
    ensures s.n.queued == 0 <==> !SlotsInUse(s)
    ensures s.n.inflight == 0 <==> !SomebodyInside(s)
  {
    SlotsAreCounted(s);
    SomeCounted(s.jobs, IsRunning);
    CountZero(s.workers, IsLive);
    if AllExited(s) {
      assert forall w :: w in s.workers ==> !IsLive(s.workers[w]);
    } else {
      var w :| w in s.workers && !s.workers[w].Exited?;
      assert IsLive(s.workers[w]);
    }
  }
}
