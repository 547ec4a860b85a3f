// What every run of the Rayon-backed service keeps: counters, shutdown reports and termination.

module RayonTheorems {
  import opened Counting
  import opened Completion
  import opened RayonService
  import opened RayonInvariant

  /** The counters are exact in every state: neither ever goes below zero, and queued never exceeds active. */
  lemma CountersExact(run: seq<State>, k: nat)
    requires IsRun(run) && k < |run|
    ensures run[k].active == Count(run[k].tasks, InActive) && run[k].queued == Count(run[k].tasks, InQueued)
    ensures 0 <= run[k].queued <= run[k].active
  {
    EveryState(run, k);
    CountImplies(run[k].tasks, InQueued, InActive);
  }

  /** One step never takes a task back, and after shutdown it adds none. */
  lemma StepOnward(s: State, e: Event, s': State)
    requires Inv(s) && Step(s, e, s')
    ensures forall i :: IsRegistered(s, i) ==> IsRegistered(s', i) && Onward(s.tasks[i], s'.tasks[i])
    ensures s.shutdown ==> s'.shutdown && s'.tasks.Keys == s.tasks.Keys
  {
    hide CellOk, Counters, Covered, ReportsOk;
    if IsTaskEvent(e) {
      TaskEventMoves(s, e, s');
    }
  }

  lemma NextOnward(run: seq<State>, k: nat)
    requires IsRun(run) && k < |run| - 1
    ensures forall i :: IsRegistered(run[k], i) ==>
        IsRegistered(run[k + 1], i) && Onward(run[k].tasks[i], run[k + 1].tasks[i])
    ensures run[k].shutdown ==> run[k + 1].shutdown && run[k + 1].tasks.Keys == run[k].tasks.Keys
  {
    hide Inv, Step;
    EveryState(run, k);
    assert Next(run[k], run[k + 1]);
    var e :| Step(run[k], e, run[k + 1]);
    StepOnward(run[k], e, run[k + 1]);
  }

  /** Every task a run has registered goes on only: it leaves each counter once, and a stored result is never
      replaced. */
  lemma {:induction false} TasksGoOn(run: seq<State>, j: nat, k: nat, i: Id)
    requires IsRun(run) && j <= k < |run| && IsRegistered(run[j], i)
    ensures IsRegistered(run[k], i) && Onward(run[j].tasks[i], run[k].tasks[i])
    decreases k
  {
    hide Next, Init;
    if j < k {
      TasksGoOn(run, j, k - 1, i);
      NextOnward(run, k - 1);
    }
  }

  lemma {:induction false} NoneAdded(run: seq<State>, j: nat, k: nat)
    requires IsRun(run) && j <= k < |run| && run[j].shutdown
    ensures run[k].shutdown && run[k].tasks.Keys == run[j].tasks.Keys
    decreases k
  {
    hide Next, Init;
    if j < k {
      NoneAdded(run, j, k - 1);
      NextOnward(run, k - 1);
    }
  }

  /** After shutdown no submission is half done. */
  lemma AllRegistered(run: seq<State>, k: nat)
    requires IsRun(run) && k < |run| && run[k].shutdown
    ensures forall i :: i in run[k].tasks ==> IsRegistered(run[k], i)
  {
    EveryState(run, k);
  }

  /** A report never claims more cancellations than it saw queued, and counts exactly the tasks its call cancelled. */
  lemma ReportIsHonest(run: seq<State>, k: nat, c: Id)
    requires IsRun(run) && k < |run| && c in run[k].stops
    ensures var call := run[k].stops[c];
      && 0 <= call.cancelled == |call.won| <= call.queued
      && forall i :: i in call.won ==>
          i in run[k].tasks && !run[k].tasks[i].cell.started && run[k].tasks[i].cell.published == [Cancelled]
  {
    EveryState(run, k);
    var call := run[k].stops[c];
    assert ReportOk(run[k], call);
    SubsetSize(call.won, call.seen);
  }

  /** The race for the task is decided: the runner started it or a canceller published its cancellation. */
  predicate IsWon(t: Task) {
    t.cell.started || t.cell.published == [Cancelled]
  }

  /** When a stopping call has returned, a task nobody has won is one whose hook another, unfinished call drained. */
  lemma StopLeavesOnlyOthers(run: seq<State>, k: nat, c: Id, i: Id)
    requires IsRun(run) && k < |run| && c in run[k].stops && run[k].stops[c].pc == Returned
    requires i in run[k].tasks && !IsWon(run[k].tasks[i])
    ensures exists d :: d in run[k].stops && d != c && run[k].stops[d].pc != Returned && i in run[k].stops[d].todo
  {
    EveryState(run, k);
    var s := run[k];
    assert ReportOk(s, s.stops[c]);
    assert CellOk(s.tasks[i]) && s.tasks[i].phase.Waiting?;
    var d :| d in s.stops && i in s.stops[d].todo;
    assert ReportOk(s, s.stops[d]);
  }

  /** Once every `shutdown_now` call has returned, and there was one, every accepted task has been won, for ever. */
  lemma StopDecidesAll(run: seq<State>, j: nat, k: nat, c: Id)
    requires IsRun(run) && j <= k < |run| && c in run[j].stops
    requires forall d :: d in run[j].stops ==> run[j].stops[d].pc == Returned
    ensures run[k].tasks.Keys == run[j].tasks.Keys
    ensures forall i :: i in run[k].tasks ==> IsWon(run[k].tasks[i])
  {
    EveryState(run, j);
    EveryState(run, k);
    AllRegistered(run, j);
    NoneAdded(run, j, k);
    forall i | i in run[k].tasks
      ensures IsWon(run[k].tasks[i])
    {
      if !IsWon(run[j].tasks[i]) {
        StopLeavesOnlyOthers(run, j, c, i);
        assert false;
      }
      TasksGoOn(run, j, k, i);
      assert CellOk(run[j].tasks[i]) && CellOk(run[k].tasks[i]);
    }
  }

  /** `is_terminated` reads the flag at `i` and the active count at `j`; if it answers true, it is right for ever. */
  lemma TerminationIsTruthful(run: seq<State>, i: nat, j: nat, k: nat)
    requires IsRun(run) && i <= j <= k < |run|
    requires run[i].shutdown && run[j].active == 0
    ensures run[k].shutdown && run[k].active == 0 && run[k].queued == 0
        && run[k].tasks.Keys == run[j].tasks.Keys == run[i].tasks.Keys
    ensures forall t :: t in run[k].tasks ==>
      |run[k].tasks[t].cell.published| == 1 && run[k].tasks[t].cell == run[j].tasks[t].cell
  {
    NoneAdded(run, i, j);
    NoneAdded(run, j, k);
    AllRegistered(run, j);
    EveryState(run, j);
    EveryState(run, k);
    CountZero(run[j].tasks, InActive);
    forall t | t in run[k].tasks
      ensures !InActive(run[k].tasks[t]) && run[k].tasks[t].cell.completed
          && run[k].tasks[t].cell == run[j].tasks[t].cell
    {
      assert !InActive(run[j].tasks[t]);
      assert CellOk(run[j].tasks[t]);
      TasksGoOn(run, j, k, t);
    }
    assert forall t :: t in run[k].tasks ==> CellOk(run[k].tasks[t]);
    CountZero(run[k].tasks, InActive);
    CountersExact(run, k);
  }

  /** A task is run or cancelled, never both: its published result is `Cancelled` exactly when it never started. */
  lemma OneWinner(run: seq<State>, k: nat, i: Id)
    requires IsRun(run) && k < |run| && i in run[k].tasks && run[k].tasks[i].cell.completed
    ensures |run[k].tasks[i].cell.published| == 1
    ensures run[k].tasks[i].cell.published[0] == Cancelled <==> !run[k].tasks[i].cell.started
  {
    EveryState(run, k);
    assert CellOk(run[k].tasks[i]);
  }
}
