// The invariant of the Rayon-backed service, and that every step keeps it.

module RayonInvariant {
  import opened Counting
  import opened Completion
  import opened RayonService

  predicate InQueued(t: Task) {
    var p := t.phase;
    p.Counted? || p.Waiting? || p.StartWon? || p.StartRemoved? || p.CancelWon? || p.CancelRemoved?
  }

  predicate InActive(t: Task) {
    !t.phase.Done? && !t.phase.CancelDone?
  }

  /** The cell agrees with who won the race and whether the winner has published. */
  predicate CellOk(t: Task) {
    && Sound(t.cell)
    && match t.phase
       case Admitted => t.cell == Fresh
       case Counted => t.cell == Fresh
       case Waiting => !t.cell.started && !t.cell.completed
       case StartWon => t.cell.started && !t.cell.completed
       case StartRemoved => t.cell.started && !t.cell.completed
       case Running => t.cell.started && !t.cell.completed
       case Published => t.cell.started && t.cell.completed && t.cell.published[0] != Cancelled
       case Done => t.cell.started && t.cell.completed && t.cell.published[0] != Cancelled
       case _ => !t.cell.started && t.cell.published == [Cancelled]
  }

  /** A canceller won the race for the task. */
  predicate IsCancelled(t: Task) {
    var p := t.phase;
    p.CancelWon? || p.CancelRemoved? || p.CancelUncounted? || p.CancelDone?
  }

  ghost predicate Counters(s: State) {
    s.active == Count(s.tasks, InActive) && s.queued == Count(s.tasks, InQueued)
  }

  ghost predicate TasksOk(s: State) {
    && (forall i :: i in s.tasks ==> CellOk(s.tasks[i]) && i < s.nextId)
    && (forall i :: i in s.tasks && s.tasks[i].phase.Admitted? ==> s.lock == Activated(i) && !s.tasks[i].spawned)
    && (forall i :: i in s.tasks && s.tasks[i].phase.Counted? ==> s.lock == Queued(i) && !s.tasks[i].spawned)
    && (s.lock.Numbered? ==> s.lock.id !in s.tasks && s.lock.id < s.nextId)
  }

  /** The stopping call is still inside the locked part of `shutdown_now`. */
  predicate Locked(pc: StopPc) {
    pc == ReadQueued || pc == ReadActive || pc == Drain || pc == Unlock
  }

  /** The lock keeps submissions and shutdowns apart: after shutdown nobody is inside a submission. */
  ghost predicate LockOk(s: State) {
    && (s.shutdown ==> s.lock.Free? || s.lock.Stopper?)
    && (s.lock.Stopper? ==> s.lock.c in s.stops)
    && (forall c :: c in s.stops ==> s.shutdown && (Locked(s.stops[c].pc) <==> s.lock == Stopper(c)))
  }

  /** The task's hook has been put into the pending map. */
  ghost predicate IsRegistered(s: State, i: Id) {
    i in s.tasks && !s.tasks[i].phase.Admitted? && !s.tasks[i].phase.Counted?
  }

  /** Only registered tasks have hooks, in the pending map or drained. */
  ghost predicate HooksOk(s: State) {
    && (forall i :: i in s.pending ==> IsRegistered(s, i))
    && (forall c, i :: c in s.stops && i in s.stops[c].todo ==> IsRegistered(s, i))
  }

  /** Some stopping call has drained the hook of `i` and will call it. */
  ghost predicate Drained(s: State, i: Id) {
    exists c :: c in s.stops && i in s.stops[c].todo
  }

  /** A task nobody has won is in the pending map, or a stopping call has drained its hook and will call it. */
  ghost predicate Covered(s: State) {
    forall i :: i in s.tasks && s.tasks[i].phase.Waiting? ==> i in s.pending || Drained(s, i)
  }

  /** What a stopping call can cancel was waiting when it read the queued count. */
  ghost predicate ReportOk(s: State, call: StopCall) {
    && call.won <= call.seen && |call.seen| <= call.queued && call.cancelled == |call.won|
    && (forall i :: i in call.won ==> i in s.tasks && IsCancelled(s.tasks[i]))
    && (call.pc == ReadActive || call.pc == Drain ==> forall i :: i in s.tasks && s.tasks[i].phase.Waiting? ==>
         i in call.seen)
    && (forall i :: i in call.todo && In(s, i, Waiting) ==> i in call.seen)
    && (call.pc == ReadQueued ==> call.seen == {})
    && (Locked(call.pc) && call.pc != Unlock ==> call.todo == {})
    && (call.pc == Returned ==> call.todo == {})
    && (!Locked(call.pc) || call.pc == Unlock ==> s.pending == {})
  }

  ghost predicate ReportsOk(s: State) {
    forall c :: c in s.stops ==> ReportOk(s, s.stops[c])
  }

  ghost predicate Inv(s: State) {
    Counters(s) && TasksOk(s) && LockOk(s) && HooksOk(s) && Covered(s) && ReportsOk(s)
  }

  // ---------------------------------------------------------------- every step keeps the invariant

  /** A registered task never goes back: not into the race, not into a counter, and its result stays. */
  predicate Onward(t: Task, t': Task) {
    && (t'.phase.Waiting? ==> t.phase.Waiting?)
    && (InQueued(t') ==> InQueued(t)) && (InActive(t') ==> InActive(t)) && (IsCancelled(t) ==> IsCancelled(t'))
    && (t.cell.completed ==> t'.cell == t.cell)
  }

  /** Task `i` becomes `t`, and the counters and the pending map follow. */
  ghost predicate Moves(s: State, i: Id, t: Task, s': State) {
    && IsRegistered(s, i) && !t.phase.Admitted? && !t.phase.Counted? && CellOk(t)
    && s'.tasks == s.tasks[i := t] && s'.lock == s.lock && s'.nextId == s.nextId && s'.shutdown == s.shutdown
    && Onward(s.tasks[i], t)
    && s'.active == s.active - Bit(InActive(s.tasks[i])) + Bit(InActive(t))
    && s'.queued == s.queued - Bit(InQueued(s.tasks[i])) + Bit(InQueued(t))
    && (s'.pending == s.pending || (s'.pending == s.pending - {i} && !t.phase.Waiting?))
  }

  predicate IsTaskEvent(e: Event) {
    e.ESpawn? || e.EStart? || e.ERun? || e.EHandleCancel? || e.ECancel? || e.EStopCancel?
  }

  lemma StartMoves(s: State, i: Id, s': State)
    requires TasksOk(s) && (Spawn(s, i, s') || RunnerStart(s, i, s'))
    ensures i in s'.tasks && Moves(s, i, s'.tasks[i], s') && s'.stops == s.stops
  {
    assert CellOk(s.tasks[i]);
  }

  lemma RunMoves(s: State, i: Id, r: Outcome, s': State)
    requires i in s.tasks && CellOk(s.tasks[i]) && RunnerStep(s, i, r, s')
    ensures i in s'.tasks && Moves(s, i, s'.tasks[i], s') && s'.stops == s.stops
  {
    assert CellOk(s.tasks[i]);
  }

  lemma CancelMoves(s: State, i: Id, s': State)
    requires TasksOk(s) && CancelStep(s, i, s')
    ensures i in s'.tasks && Moves(s, i, s'.tasks[i], s') && s'.stops == s.stops
  {
    assert CellOk(s.tasks[i]);
  }

  lemma RaceMoves(s: State, i: Id)
    requires IsRegistered(s, i) && CellOk(s.tasks[i])
    ensures Moves(s, i, Raced(s, i).tasks[i], Raced(s, i))
    ensures Raced(s, i).stops == s.stops && !Raced(s, i).tasks[i].phase.Waiting?
    ensures Cancel(s.tasks[i].cell).0 <==> s.tasks[i].phase.Waiting?
    ensures Cancel(s.tasks[i].cell).0 ==> Raced(s, i).tasks[i].phase == CancelWon
  {
  }

  lemma TaskEventMoves(s: State, e: Event, s': State)
    requires TasksOk(s) && HooksOk(s) && Step(s, e, s') && IsTaskEvent(e)
    ensures e.i in s'.tasks && Moves(s, e.i, s'.tasks[e.i], s')
  {
    hide Raced, CellOk, RunnerStart, CancelStep, Spawn;
    match e
    case ESpawn(i) => StartMoves(s, i, s');
    case EStart(i) => StartMoves(s, i, s');
    case ERun(i, r) => RunMoves(s, i, r, s');
    case ECancel(i) => CancelMoves(s, i, s');
    case EHandleCancel(i) => RaceMoves(s, i);
    case EStopCancel(_, i) => RaceMoves(s, i);
    case _ =>
  }

  lemma MoveKeepsCounters(s: State, i: Id, t: Task, s': State)
    requires Counters(s) && Moves(s, i, t, s')
    ensures Counters(s')
  {
    hide Count, CellOk;
    CountUpdate(s.tasks, i, t, InActive);
    CountUpdate(s.tasks, i, t, InQueued);
  }

  lemma LockstepKeepsCounters(s: State, s': State)
    requires Counters(s) && TasksOk(s) && Lockstep(s, s')
    ensures Counters(s')
  {
    hide Count, CellOk;
    if s.lock.Numbered? || s.lock.Activated? || s.lock.Queued? {
      var i := s.lock.id;
      CountUpdate(s.tasks, i, s'.tasks[i], InActive);
      CountUpdate(s.tasks, i, s'.tasks[i], InQueued);
    }
  }

  lemma LockstepKeepsTasks(s: State, s': State)
    requires TasksOk(s) && Lockstep(s, s')
    ensures TasksOk(s')
  {
  }

  lemma MoveKeepsTasks(s: State, i: Id, t: Task, s': State)
    requires TasksOk(s) && Moves(s, i, t, s')
    ensures TasksOk(s')
  {
    hide CellOk;
  }

  lemma StopKeepsTasks(s: State, e: Event, s': State)
    requires TasksOk(s) && Counters(s) && LockOk(s) && Step(s, e, s') && !IsTaskEvent(e) && !e.ELock?
    ensures TasksOk(s') && Counters(s')
  {
    hide CellOk, Count;
  }

  lemma StepKeepsLock(s: State, e: Event, s': State)
    requires LockOk(s) && Step(s, e, s')
    ensures LockOk(s')
  {
  }

  lemma TaskEventKeepsHooks(s: State, e: Event, s': State)
    requires TasksOk(s) && HooksOk(s) && Step(s, e, s') && IsTaskEvent(e)
    ensures HooksOk(s')
  {
    hide CellOk;
    TaskEventMoves(s, e, s');
    CallsKept(s, e, s');
    hide Step;
    assert forall i :: IsRegistered(s, i) ==> IsRegistered(s', i);
  }

  lemma TaskEventKeepsCovered(s: State, e: Event, s': State)
    requires TasksOk(s) && HooksOk(s) && Covered(s) && Step(s, e, s') && IsTaskEvent(e)
    ensures Covered(s')
  {
    hide CellOk;
    TaskEventMoves(s, e, s');
    if e.EStopCancel? {
      RaceMoves(s, e.i);
    }
    CallsKept(s, e, s');
    hide Step;
    forall i | i in s'.tasks && s'.tasks[i].phase.Waiting?
      ensures i in s'.pending || Drained(s', i)
    {
      if i !in s'.pending {
        var c :| c in s.stops && i in s.stops[c].todo;
        assert i in s'.stops[c].todo;
      }
    }
  }

  /** What a task event leaves of every stopping call. */
  lemma CallsKept(s: State, e: Event, s': State)
    requires Step(s, e, s') && IsTaskEvent(e)
    ensures s'.stops.Keys == s.stops.Keys
    ensures forall c :: c in s.stops ==>
      && s'.stops[c].todo == (if e == EStopCancel(c, e.i) then s.stops[c].todo - {e.i} else s.stops[c].todo)
      && s'.stops[c].seen == s.stops[c].seen && s'.stops[c].pc == s.stops[c].pc
           && s'.stops[c].queued == s.stops[c].queued
      && (s'.stops[c].won == s.stops[c].won ||
          (s'.stops[c].won == s.stops[c].won + {e.i} && e == EStopCancel(c, e.i) && Cancel(s.tasks[e.i].cell).0))
  {
  }

  lemma LockstepKeepsHooks(s: State, s': State)
    requires TasksOk(s) && HooksOk(s) && Covered(s) && Lockstep(s, s')
    ensures HooksOk(s') && Covered(s')
  {
    hide CellOk, Drained;
    assert forall i :: IsRegistered(s, i) ==> IsRegistered(s', i);
    assert forall i :: Drained(s, i) ==> Drained(s', i) by {
      DrainedKept(s, s');
    }
  }

  lemma DrainedKept(s: State, s': State)
    requires s'.stops == s.stops
    ensures forall i :: Drained(s, i) ==> Drained(s', i)
  {
  }

  lemma StopKeepsHooks(s: State, e: Event, s': State)
    requires HooksOk(s) && Step(s, e, s') && !IsTaskEvent(e) && !e.ELock?
    ensures HooksOk(s')
  {
    assert s'.tasks == s.tasks;
    assert forall i :: IsRegistered(s, i) <==> IsRegistered(s', i);
    hide IsRegistered;
  }

  lemma StopKeepsCovered(s: State, e: Event, s': State)
    requires Covered(s) && ReportsOk(s) && Step(s, e, s') && !IsTaskEvent(e) && !e.ELock?
    ensures Covered(s')
  {
    forall i | i in s'.tasks && s'.tasks[i].phase.Waiting?
      ensures i in s'.pending || Drained(s', i)
    {
      if i !in s.pending {
        var c :| c in s.stops && i in s.stops[c].todo;
        assert i in s'.stops[c].todo;
      } else if i !in s'.pending {
        assert i in s'.stops[e.c].todo;
      }
    }
  }

  lemma TaskEventKeepsReports(s: State, e: Event, s': State)
    requires TasksOk(s) && HooksOk(s) && ReportsOk(s) && Step(s, e, s') && IsTaskEvent(e)
    ensures ReportsOk(s')
  {
    hide CellOk;
    TaskEventMoves(s, e, s');
    if e.EStopCancel? {
      RaceMoves(s, e.i);
    }
    CallsKept(s, e, s');
    hide Step;
    forall c | c in s'.stops
      ensures ReportOk(s', s'.stops[c])
    {
      CallKeepsReport(s, e.i, s', s.stops[c], s'.stops[c]);
    }
  }

  /** One call's report, when task `i` moves and the call may be the one that cancelled it. */
  lemma CallKeepsReport(s: State, i: Id, s': State, call: StopCall, call': StopCall)
    requires i in s'.tasks && Moves(s, i, s'.tasks[i], s') && ReportOk(s, call)
    requires call'.seen == call.seen && call'.pc == call.pc && call'.queued == call.queued && call'.todo <= call.todo
    requires (call'.won == call.won && call'.cancelled == call.cancelled) ||
             (call'.won == call.won + {i} && call'.cancelled == call.cancelled + 1 && i in call.todo &&
              s.tasks[i].phase.Waiting? && s'.tasks[i].phase.CancelWon?)
    ensures ReportOk(s', call')
  {
    hide CellOk;
    assert s'.pending <= s.pending;
    assert forall j :: j in s.tasks ==> j in s'.tasks && (IsCancelled(s.tasks[j]) ==> IsCancelled(s'.tasks[j]));
    assert forall j :: In(s', j, Waiting) ==> In(s, j, Waiting);
    hide Moves;
  }

  lemma ReportKept(s: State, s': State, call: StopCall)
    requires ReportOk(s, call) && s'.tasks == s.tasks && s'.pending <= s.pending
    ensures ReportOk(s', call)
  {
  }

  /** The stopping call that takes the step; what it reads as queued covers every task still waiting. */
  lemma OwnReport(s: State, c: Id, s': State)
    requires Counters(s) && c in s.stops && ReportOk(s, s.stops[c]) && StopStep(s, c, s')
    ensures ReportOk(s', s'.stops[c])
  {
    CountImplies(s.tasks, IsWaiting, InQueued);
  }

  lemma StopKeepsReports(s: State, e: Event, s': State)
    requires Counters(s) && ReportsOk(s) && Step(s, e, s') && !IsTaskEvent(e) && !e.ELock?
    ensures ReportsOk(s')
  {
    if e.EStop? {
      OwnReport(s, e.c, s');
    }
    assert s'.tasks == s.tasks && s'.pending <= s.pending;
    hide Count;
    forall c | c in s'.stops
      ensures ReportOk(s', s'.stops[c])
    {
      if c in s.stops {
        ReportKept(s, s', s.stops[c]);
      }
    }
  }

  /** Every step of every interleaving keeps the invariant. */
  lemma StepKeeps(s: State, e: Event, s': State)
    requires Inv(s) && Step(s, e, s')
    ensures Inv(s')
  {
    StepKeepsLock(s, e, s');
    hide LockOk;
    if IsTaskEvent(e) {
      TaskEventMoves(s, e, s');
      TaskEventKeepsHooks(s, e, s');
      TaskEventKeepsCovered(s, e, s');
      TaskEventKeepsReports(s, e, s');
      MoveKeepsCounters(s, e.i, s'.tasks[e.i], s');
      MoveKeepsTasks(s, e.i, s'.tasks[e.i], s');
    } else if e.ELock? {
      LockstepKeepsCounters(s, s');
      LockstepKeepsTasks(s, s');
      LockstepKeepsHooks(s, s');
      LockstepKeepsReports(s, s');
    } else {
      StopKeepsTasks(s, e, s');
      StopKeepsHooks(s, e, s');
      StopKeepsCovered(s, e, s');
      StopKeepsReports(s, e, s');
    }
  }

  lemma LockstepKeepsReports(s: State, s': State)
    requires LockOk(s) && ReportsOk(s) && Lockstep(s, s')
    ensures ReportsOk(s')
  {
    assert s'.stops == s.stops;
    assert !s.lock.Free? ==> forall c :: c !in s.stops;
  }

  lemma {:induction false} EveryState(run: seq<State>, k: nat)
    requires IsRun(run) && k < |run|
    ensures Inv(run[k])
  {
    if k > 0 {
      EveryState(run, k - 1);
      assert Next(run[k - 1], run[k - 1 + 1]);
      var e :| Step(run[k - 1], e, run[k]);
      StepKeeps(run[k - 1], e, run[k]);
    }
  }
}
