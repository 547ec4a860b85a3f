// The fixed pool together with the handles of its jobs: every accepted job is a callable with a completion cell,
// paired as `submit_callable` pairs them. A callback takes time: a handle may be cancelled before, while and after it
// runs.

module FixedPoolHandles {
  import opened Counting
  import opened Completion
  import opened FixedPool
  import opened FixedPoolInvariant
  import opened FixedPoolTheorems

  // How far the run callback of a job has come.
  datatype Callback = Idle | Calling | Back

  datatype Task = Task(phase: Callback, cell: Cell, invoked: int, own: Option<Outcome>)

  const NewTask := Task(Idle, Fresh, 0, None)

  datatype System = System(pool: State, tasks: map<Job, Task>)

  datatype Action =
    | PoolStep(e: Event)
    | CallBegins(w: Id)
    | CallEnds(w: Id, r: Outcome)
    | HandleCancels(j: Job)

  /** The worker is about to step over the run callback of `j`. */
  predicate RunsJob(s: State, e: Event, j: Job) {
    e.Worked? && e.w in s.workers && s.workers[e.w] == Run(j)
  }

  /** The step invokes the cancel callback of `j`. */
  predicate CancelsJob(s: State, e: Event, j: Job) {
    || (e.Call? && e.j == j)
    || (e.Worked? && e.w in s.workers && s.workers[e.w].CancelCall? && s.workers[e.w].job == j)
  }

  function CancelTask(t: Task): Task {
    t.(cell := Cancel(t.cell).1)
  }

  /** A step of the pool: a worker goes on only when the callback is back, and a cancel callback cancels the handle. */
  ghost predicate Pooled(x: System, e: Event, x': System) {
    && Step(x.pool, e, x'.pool)
    && (forall j :: j in x.tasks && RunsJob(x.pool, e, j) ==> x.tasks[j].phase == Back)
    && x'.tasks.Keys == (if e.Accepted? then x.tasks.Keys + {e.j} else x.tasks.Keys)
    && forall j :: j in x'.tasks ==>
         x'.tasks[j] == if j !in x.tasks then NewTask
                        else if CancelsJob(x.pool, e, j) then CancelTask(x.tasks[j]) else x.tasks[j]
  }

  ghost predicate AtCallback(x: System, w: Id, phase: Callback) {
    && w in x.pool.workers && x.pool.workers[w].Run? && x.pool.workers[w].job in x.tasks
    && x.tasks[x.pool.workers[w].job].phase == phase
  }

  ghost predicate Begins(x: System, w: Id, x': System) {
    && AtCallback(x, w, Idle)
    && var j := x.pool.workers[w].job;
    var t := x.tasks[j];
    var (won, cell) := Start(t.cell);
    x' == x.(tasks := x.tasks[j := t.(phase := if won then Calling else Back, cell := cell,
                                      invoked := t.invoked + Bit(won))])
  }

  ghost predicate Ends(x: System, w: Id, r: Outcome, x': System) {
    && AtCallback(x, w, Calling) && r != Outcome.Cancelled
    && var j := x.pool.workers[w].job;
    var t := x.tasks[j];
    x' == x.(tasks := x.tasks[j := t.(phase := Back, cell := Complete(t.cell, r).1, own := Some(r))])
  }

  ghost predicate Act(x: System, a: Action, x': System) {
    match a
    case PoolStep(e) => Pooled(x, e, x')
    case CallBegins(w) => Begins(x, w, x')
    case CallEnds(w, r) => Ends(x, w, r, x')
    case HandleCancels(j) => j in x.tasks && x' == x.(tasks := x.tasks[j := CancelTask(x.tasks[j])])
  }

  ghost predicate Proceeds(x: System, x': System) {
    exists a :: Act(x, a, x')
  }

  ghost predicate IsHistory(run: seq<System>) {
    && |run| > 0
    && Init(run[0].pool) && run[0].tasks == map[]
    && forall k :: 0 <= k < |run| - 1 ==> Proceeds(run[k], run[k + 1])
  }

  // ---------------------------------------------------------------- the invariant

  /** The job is at its run callback. */
  predicate AtRun(p: Place) {
    p.Held? && p.stage == Counted
  }

  /** The cell is as far as the place of the job says. */
  ghost predicate TaskOk(p: Place, t: Task) {
    && Honest(t.cell, t.invoked, t.own)
    && (t.phase == Idle ==> !t.cell.started)
    && (t.phase == Calling ==> t.cell.started && !t.cell.completed)
    && (t.phase == Back ==> t.cell.completed)
    && (t.phase != Idle ==> AtRun(p) || HasRun(p))
    && (HasRun(p) ==> t.phase == Back)
    && (p.Cancelled? ==> t.cell.completed)
  }

  ghost predicate SystemInv(x: System) {
    && Inv(x.pool) && x.tasks.Keys == x.pool.jobs.Keys
    && forall j :: j in x.tasks ==> TaskOk(x.pool.jobs[j], x.tasks[j])
  }

  // ---------------------------------------------------------------- what a step of the pool does to one job

  /** A step invokes the callbacks of a job as its name says. */
  lemma CallsMove(s: State, e: Event, s': State, j: Job)
    requires Step(s, e, s')
    ensures s'.calls.runs[j] == s.calls.runs[j] + Bit(RunsJob(s, e, j))
    ensures s'.calls.cancels[j] == s.calls.cancels[j] + Bit(CancelsJob(s, e, j))
  {
    hide Steer, Source, OnMiss, OnHit, HitStage, Admit;
    if e.Worked? {
      WorkCallsMove(s, e.w, s', j);
    } else {
      assert !e.Call? ==> s'.calls == s.calls;
    }
  }

  lemma WorkCallsMove(s: State, w: Id, s': State, j: Job)
    requires WorkStep(s, w, s')
    ensures s'.calls.runs[j] == s.calls.runs[j] + Bit(RunsJob(s, Worked(w), j))
    ensures s'.calls.cancels[j] == s.calls.cancels[j] + Bit(CancelsJob(s, Worked(w), j))
  {
  }

  /** A job has run, or has been cancelled, after a step exactly if it had before or the step invoked that callback. */
  lemma CallbacksMove(s: State, e: Event, s': State, j: Job)
    requires Callbacks(s) && Callbacks(s') && Step(s, e, s') && j in s.jobs && j in s'.jobs
    ensures HasRun(s'.jobs[j]) <==> HasRun(s.jobs[j]) || RunsJob(s, e, j)
    ensures s'.jobs[j].Cancelled? <==> s.jobs[j].Cancelled? || CancelsJob(s, e, j)
  {
    hide HasRun, RunsJob, CancelsJob, Step;
    CallsMove(s, e, s', j);
  }

  /** Only the worker itself takes a job past its run callback. */
  lemma RunningStays(s: State, e: Event, s': State, j: Job)
    requires Hands(s) && Step(s, e, s') && j in s.jobs && j in s'.jobs && AtRun(s.jobs[j])
    ensures AtRun(s'.jobs[j]) || RunsJob(s, e, j)
  {
    hide Step, AtRun, RunsJob, Hands;
    if OfWorker(e) {
      RunningStaysForWorker(s, e, s', j);
    } else {
      OthersLeaveRunning(s, e, s', j);
    }
  }

  lemma RunningStaysForWorker(s: State, e: Event, s': State, j: Job)
    requires Hands(s) && Step(s, e, s') && OfWorker(e) && j in s.jobs && j in s'.jobs && AtRun(s.jobs[j])
    ensures AtRun(s'.jobs[j]) || RunsJob(s, e, j)
  {
    hide Steer, OnMiss, OnHit, Victim;
  }

  lemma OthersLeaveRunning(s: State, e: Event, s': State, j: Job)
    requires Hands(s) && Step(s, e, s') && !OfWorker(e) && j in s.jobs && j in s'.jobs && AtRun(s.jobs[j])
    ensures s'.jobs[j] == s.jobs[j]
  {
    hide Admit;
  }

  // ---------------------------------------------------------------- every step keeps the invariant

  /** The job that is accepted is new, and no other step adds one. */
  lemma OnlyAcceptedAreNew(s: State, e: Event, s': State)
    requires Hands(s) && Step(s, e, s')
    ensures s'.jobs.Keys == (if e.Accepted? then s.jobs.Keys + {e.j} else s.jobs.Keys)
    ensures e.Accepted? ==> e.j !in s.jobs && s'.jobs[e.j].Publishing?
  {
    hide Steer, Handle, Source, OnMiss, OnHit, HitStage, Admit;
  }

  /** A job whose cancel callback is invoked has not been run. */
  lemma CancelledIsIdle(s: State, e: Event, s': State, j: Job)
    requires Placed(s) && Hands(s) && Step(s, e, s') && CancelsJob(s, e, j) && j in s.jobs
    ensures !AtRun(s.jobs[j]) && !HasRun(s.jobs[j])
  {
    hide Steer, Source, OnMiss, OnHit, HitStage, Admit;
  }

  lemma PoolKeepsTask(x: System, e: Event, x': System, j: Job)
    requires SystemInv(x) && Inv(x'.pool) && Pooled(x, e, x') && j in x'.tasks
    ensures j in x'.pool.jobs && TaskOk(x'.pool.jobs[j], x'.tasks[j])
  {
    hide Count, Counters, Taken, Capacity, Callbacks, Gate, Placed, Hands, Quiet, DrainedSoFar, Dry, Step, HasRun;
    var s, s' := x.pool, x'.pool;
    OnlyAcceptedAreNew(s, e, s');
    if j in x.tasks {
      CallbacksMove(s, e, s', j);
      if AtRun(s.jobs[j]) {
        RunningStays(s, e, s', j);
      }
      if CancelsJob(s, e, j) {
        CancelledIsIdle(s, e, s', j);
      }
      hide RunsJob, CancelsJob;
      assert TaskOk(s.jobs[j], x.tasks[j]);
    } else {
      NewIsOk(s'.jobs[j]);
    }
  }

  lemma NewIsOk(p: Place)
    requires p.Publishing?
    ensures TaskOk(p, NewTask)
  {
  }

  lemma PoolKeeps(x: System, e: Event, x': System)
    requires SystemInv(x) && Pooled(x, e, x')
    ensures SystemInv(x')
  {
    hide Inv, TaskOk, Step;
    FixedPoolInvariant.StepKeeps(x.pool, e, x'.pool);
    assert Hands(x.pool) by { InvHands(x.pool); }
    OnlyAcceptedAreNew(x.pool, e, x'.pool);
    forall j | j in x'.tasks
      ensures j in x'.pool.jobs && TaskOk(x'.pool.jobs[j], x'.tasks[j])
    {
      PoolKeepsTask(x, e, x', j);
    }
  }

  lemma InvHands(s: State)
    requires Inv(s)
    ensures Hands(s)
  {
  }

  lemma OneTaskMoves(x: System, j: Job, t: Task)
    requires SystemInv(x) && j in x.tasks && TaskOk(x.pool.jobs[j], t)
    ensures SystemInv(x.(tasks := x.tasks[j := t]))
  {
    hide Inv, TaskOk;
  }

  /** The cell operations of a callback and of a cancellation keep one task as honest as it was. */
  lemma CallbackIsOk(p: Place, t: Task, t': Task)
    requires TaskOk(p, t)
    requires || t' == CancelTask(t)
             || (AtRun(p) && t.phase == Idle && t' == t.(phase := if Start(t.cell).0 then Calling else Back,
                                                         cell := Start(t.cell).1,
                                                         invoked := t.invoked + Bit(Start(t.cell).0)))
             || (t.phase == Calling && exists r ::
                  r != Outcome.Cancelled && t' == t.(phase := Back, cell := Complete(t.cell, r).1, own := Some(r)))
    ensures TaskOk(p, t')
  {
  }

  /** The callback steps and the cancellation of a handle. */
  lemma CallbackKeeps(x: System, a: Action, x': System)
    requires SystemInv(x) && Act(x, a, x') && !a.PoolStep?
    ensures SystemInv(x')
  {
    hide Inv, TaskOk, CancelTask, Start, Complete;
    var j := if a.HandleCancels? then a.j else x.pool.workers[a.w].job;
    if !a.HandleCancels? {
      InvHands(x.pool);
      RunHolds(x.pool, a.w);
    }
    CallbackIsOk(x.pool.jobs[j], x.tasks[j], x'.tasks[j]);
    OneTaskMoves(x, j, x'.tasks[j]);
  }

  lemma RunHolds(s: State, w: Id)
    requires Hands(s) && w in s.workers && s.workers[w].Run?
    ensures At(s.jobs, s.workers[w].job, Held(Worker(w), Counted))
  {
  }

  lemma {:induction false} EveryMoment(run: seq<System>, k: nat)
    requires IsHistory(run) && k < |run|
    ensures SystemInv(run[k])
  {
    hide SystemInv, Act, Init;
    if k == 0 {
      assert SystemInv(run[0]) by { FirstMoment(run[0]); }
    } else {
      EveryMoment(run, k - 1);
      assert Proceeds(run[k - 1], run[k - 1 + 1]);
      var a :| Act(run[k - 1], a, run[k]);
      ActKeeps(run[k - 1], a, run[k]);
    }
  }

  lemma FirstMoment(x: System)
    requires Init(x.pool) && x.tasks == map[]
    ensures SystemInv(x)
  {
    hide Inv;
    FixedPoolInvariant.InitKeeps(x.pool);
  }

  lemma ActKeeps(x: System, a: Action, x': System)
    requires SystemInv(x) && Act(x, a, x')
    ensures SystemInv(x')
  {
    hide SystemInv;
    if a.PoolStep? {
      PoolKeeps(x, a.e, x');
    } else {
      CallbackKeeps(x, a, x');
    }
  }

  // ---------------------------------------------------------------- from submission to result

  /** End to end after an immediate stop: once every worker has exited and every `shutdown_now` call, of which there was
      one, has returned, every accepted callable has exactly one published result, its own if it ran, a cancellation
      otherwise, and a cancelled callable was never invoked. */
  lemma StoppedEndToEnd(run: seq<System>, k: nat, c: Id, j: Job)
    requires IsHistory(run) && k < |run| && j in run[k].pool.jobs
    requires AllExited(run[k].pool) && AllStopsReturned(run[k].pool) && c in run[k].pool.stops
    ensures j in run[k].tasks && var t := run[k].tasks[j]; Answered(t.cell, t.invoked, t.own)
  {
    hide Count;
    EveryMoment(run, k);
    StoppedState(run[k].pool, c);
    SettledIsAnswered(run[k], j);
  }

  /** End to end after a graceful shutdown: once every worker has exited, every accepted callable has been through its
      run callback and has exactly one published result, its own unless its handle was cancelled before it ran. */
  lemma GracefulEndToEnd(run: seq<System>, k: nat, j: Job)
    requires IsHistory(run) && k < |run| && j in run[k].pool.jobs
    requires AllExited(run[k].pool) && run[k].pool.stops.Keys == {}
    ensures j in run[k].tasks && run[k].tasks[j].phase == Back
    ensures var t := run[k].tasks[j]; Answered(t.cell, t.invoked, t.own)
  {
    hide Count;
    EveryMoment(run, k);
    GracefulState(run[k].pool);
    SettledIsAnswered(run[k], j);
  }

  lemma SettledIsAnswered(x: System, j: Job)
    requires SystemInv(x) && j in x.pool.jobs && (x.pool.jobs[j].Completed? || x.pool.jobs[j].Cancelled?)
    ensures j in x.tasks && var t := x.tasks[j]; Answered(t.cell, t.invoked, t.own)
    ensures x.pool.jobs[j].Completed? ==> x.tasks[j].phase == Back
  {
    hide Inv;
    assert TaskOk(x.pool.jobs[j], x.tasks[j]);
  }

  /** At every moment a published result is the only one, the callable's own if it ran and a cancellation only if not.
      */
  lemma OneOutcome(run: seq<System>, k: nat, j: Job)
    requires IsHistory(run) && k < |run| && j in run[k].tasks && run[k].tasks[j].cell.completed
    ensures var t := run[k].tasks[j]; Answered(t.cell, t.invoked, t.own)
  {
    EveryMoment(run, k);
    hide Inv;
    assert TaskOk(run[k].pool.jobs[j], run[k].tasks[j]);
  }

  // ---------------------------------------------------------------- what is published

  /** A history with the action that leads to each next moment. */
  ghost predicate HistoryBy(run: seq<System>, actions: seq<Action>) {
    && |run| == |actions| + 1 && Init(run[0].pool) && run[0].tasks == map[]
    && forall k :: 0 <= k < |actions| ==> Act(run[k], actions[k], run[k + 1])
  }

  lemma HistoryByIsHistory(run: seq<System>, actions: seq<Action>)
    requires HistoryBy(run, actions)
    ensures IsHistory(run)
  {
    hide Act, Init;
    forall k | 0 <= k < |run| - 1
      ensures Proceeds(run[k], run[k + 1])
    {
      assert Act(run[k], actions[k], run[k + 1]);
    }
  }

  /** Every history has such actions. */
  lemma ActionsOf(run: seq<System>) returns (actions: seq<Action>)
    requires IsHistory(run)
    ensures HistoryBy(run, actions)
  {
    hide Act, Init;
    actions := [];
    while |actions| < |run| - 1
      invariant |actions| < |run|
      invariant forall k :: 0 <= k < |actions| ==> Act(run[k], actions[k], run[k + 1])
    {
      assert Proceeds(run[|actions|], run[|actions| + 1]);
      var a :| Act(run[|actions|], a, run[|actions| + 1]);
      actions := actions + [a];
    }
  }

  /** Neither a start nor a completion has decided the race for the task. */
  predicate IsOpen(x: System, j: Job) {
    j in x.tasks && !x.tasks[j].cell.started && !x.tasks[j].cell.completed
  }

  /** The outcomes an action decides for job `j`: what its callable yields, or a cancellation nobody has forestalled. */
  function Decided(x: System, a: Action, j: Job): seq<Outcome> {
    match a
    case CallEnds(w, r) =>
      if w in x.pool.workers && x.pool.workers[w] == Run(j) && j in x.tasks && x.tasks[j].phase == Calling
      then [r] else []
    case HandleCancels(k) => if k == j && IsOpen(x, j) then [Outcome.Cancelled] else []
    case PoolStep(e) => if CancelsJob(x.pool, e, j) && IsOpen(x, j) then [Outcome.Cancelled] else []
    case _ => []
  }

  /** All outcomes decided for job `j` before moment `k`, in order. */
  function Decisions(run: seq<System>, actions: seq<Action>, k: nat, j: Job): seq<Outcome>
    requires |run| == |actions| + 1 && k <= |actions|
  {
    if k == 0 then [] else Decisions(run, actions, k - 1, j) + Decided(run[k - 1], actions[k - 1], j)
  }

  predicate HasPublished(x: System, j: Job, outcomes: seq<Outcome>) {
    if j in x.tasks then x.tasks[j].cell.published == outcomes else outcomes == []
  }

  lemma PoolPublishes(x: System, e: Event, x': System, j: Job, outcomes: seq<Outcome>)
    requires Pooled(x, e, x') && HasPublished(x, j, outcomes)
    requires j in x.tasks ==> Honest(x.tasks[j].cell, x.tasks[j].invoked, x.tasks[j].own)
    ensures HasPublished(x', j, outcomes + Decided(x, PoolStep(e), j))
  {
    hide Step, CancelsJob, RunsJob;
  }

  lemma CallbackPublishes(x: System, a: Action, x': System, j: Job, outcomes: seq<Outcome>)
    requires Act(x, a, x') && !a.PoolStep? && HasPublished(x, j, outcomes)
    requires j in x.tasks ==> Honest(x.tasks[j].cell, x.tasks[j].invoked, x.tasks[j].own)
    requires j in x.tasks && x.tasks[j].phase == Calling ==> !x.tasks[j].cell.completed
    ensures HasPublished(x', j, outcomes + Decided(x, a, j))
  {
  }

  lemma ActPublishes(x: System, a: Action, x': System, j: Job, outcomes: seq<Outcome>)
    requires SystemInv(x) && Act(x, a, x') && HasPublished(x, j, outcomes)
    ensures HasPublished(x', j, outcomes + Decided(x, a, j))
  {
    hide Inv, HasPublished;
    assert j in x.tasks ==> TaskOk(x.pool.jobs[j], x.tasks[j]);
    if a.PoolStep? {
      PoolPublishes(x, a.e, x', j, outcomes);
    } else {
      CallbackPublishes(x, a, x', j, outcomes);
    }
  }

  /** The published result of a job is exactly what was decided for it: what its callable yielded, or a cancellation
      that came before the start; and at most one thing is ever decided. */
  lemma {:induction false} ResultIsDecided(run: seq<System>, actions: seq<Action>, k: nat, j: Job)
    requires HistoryBy(run, actions) && k <= |actions|
    ensures HasPublished(run[k], j, Decisions(run, actions, k, j)) && |Decisions(run, actions, k, j)| <= 1
  {
    hide Init, Act, SystemInv, HasPublished, Decided;
    if k == 0 {
      assert HasPublished(run[0], j, []) by { NothingPublished(run[0], j); }
    } else {
      ResultIsDecided(run, actions, k - 1, j);
      HistoryByIsHistory(run, actions);
      EveryMoment(run, k - 1);
      EveryMoment(run, k);
      assert Act(run[k - 1], actions[k - 1], run[k - 1 + 1]);
      ActPublishes(run[k - 1], actions[k - 1], run[k], j, Decisions(run, actions, k - 1, j));
      OneAtMost(run[k], j, Decisions(run, actions, k, j));
    }
  }

  lemma NothingPublished(x: System, j: Job)
    requires x.tasks == map[]
    ensures HasPublished(x, j, [])
  {
  }

  lemma OneAtMost(x: System, j: Job, outcomes: seq<Outcome>)
    requires SystemInv(x) && HasPublished(x, j, outcomes)
    ensures |outcomes| <= 1
  {
    hide Inv;
    assert j in x.tasks ==> TaskOk(x.pool.jobs[j], x.tasks[j]);
  }

  /** The outcome of a callable is published as it is, and a cancellation that finds the task open is its result. */
  lemma DecisionIsAnswered(run: seq<System>, actions: seq<Action>, m: nat, k: nat, j: Job)
    requires HistoryBy(run, actions) && m < k <= |actions| && j in run[k].tasks
    requires |Decided(run[m], actions[m], j)| == 1
    ensures run[k].tasks[j].cell.published == Decided(run[m], actions[m], j)
  {
    ResultIsDecided(run, actions, k, j);
    DecidedBefore(run, actions, m, k, j);
  }

  lemma {:induction false} DecidedBefore(run: seq<System>, actions: seq<Action>, m: nat, k: nat, j: Job)
    requires |run| == |actions| + 1 && m < k <= |actions| && |Decided(run[m], actions[m], j)| == 1
    requires |Decisions(run, actions, k, j)| <= 1
    ensures Decisions(run, actions, k, j) == Decided(run[m], actions[m], j)
    decreases k
  {
    hide Decided;
    if m < k - 1 {
      DecidedBefore(run, actions, m, k - 1, j);
    }
  }
}
