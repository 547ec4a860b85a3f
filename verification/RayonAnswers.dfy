// What callers of the Rayon-backed service are told: the result of a task, the numbers of a shutdown report, and that
// nothing is accepted after a shutdown.

module RayonAnswers {
  import opened Counting
  import opened Completion
  import opened RayonService
  import opened RayonInvariant
  import opened RayonTheorems

  /** A run with the event that leads to each next state. */
  ghost predicate RunBy(run: seq<State>, events: seq<Event>) {
    && |run| == |events| + 1 && Init(run[0])
    && forall k :: 0 <= k < |events| ==> Step(run[k], events[k], run[k + 1])
  }

  lemma RunByIsRun(run: seq<State>, events: seq<Event>)
    requires RunBy(run, events)
    ensures IsRun(run)
  {
    hide Step, Init;
    forall k | 0 <= k < |run| - 1
      ensures Next(run[k], run[k + 1])
    {
      assert Step(run[k], events[k], run[k + 1]);
    }
  }

  /** Every run has such events. */
  lemma EventsOf(run: seq<State>) returns (events: seq<Event>)
    requires IsRun(run)
    ensures RunBy(run, events)
  {
    hide Step, Init;
    events := [];
    while |events| < |run| - 1
      invariant |events| < |run|
      invariant forall k :: 0 <= k < |events| ==> Step(run[k], events[k], run[k + 1])
    {
      assert Next(run[|events|], run[|events| + 1]);
      var e :| Step(run[|events|], e, run[|events| + 1]);
      events := events + [e];
    }
  }

  // ---------------------------------------------------------------- results

  /** Nobody has won the task yet. */
  predicate IsOpen(s: State, i: Id) {
    i in s.tasks && !s.tasks[i].cell.started && !s.tasks[i].cell.completed
  }

  /** The outcomes an event decides for task `i`: what its callable yields, or a cancellation nobody has forestalled. */
  function Decided(s: State, e: Event, i: Id): seq<Outcome> {
    match e
    case ERun(x, r) => if x == i && i in s.tasks && s.tasks[i].phase.Running? then [r] else []
    case EHandleCancel(x) => if x == i && IsOpen(s, i) then [Cancelled] else []
    case EStopCancel(_, x) => if x == i && IsOpen(s, i) then [Cancelled] else []
    case _ => []
  }

  /** All outcomes decided for task `i` before state `k`, in order. */
  function Decisions(run: seq<State>, events: seq<Event>, k: nat, i: Id): seq<Outcome>
    requires |run| == |events| + 1 && k <= |events|
  {
    if k == 0 then [] else Decisions(run, events, k - 1, i) + Decided(run[k - 1], events[k - 1], i)
  }

  predicate HasPublished(s: State, i: Id, outcomes: seq<Outcome>) {
    if i in s.tasks then s.tasks[i].cell.published == outcomes else outcomes == []
  }

  lemma StepPublishes(s: State, e: Event, s': State, i: Id, outcomes: seq<Outcome>)
    requires Inv(s) && Step(s, e, s') && HasPublished(s, i, outcomes)
    ensures HasPublished(s', i, outcomes + Decided(s, e, i))
  {
    hide Counters, LockOk, Covered, ReportsOk, HooksOk;
    assert i in s.tasks ==> CellOk(s.tasks[i]);
    if e.ELock? {
      LockPublishesNothing(s, s', i);
    }
  }

  lemma LockPublishesNothing(s: State, s': State, i: Id)
    requires TasksOk(s) && Lockstep(s, s')
    ensures i in s.tasks ==> i in s'.tasks && s'.tasks[i].cell == s.tasks[i].cell
    ensures i !in s.tasks && i in s'.tasks ==> s'.tasks[i].cell == Fresh
  {
  }

  /** The published result of a task is exactly what was decided for it: what its callable yielded, or a cancellation
      that came before the start; and at most one thing is ever decided. */
  lemma {:induction false} ResultIsDecided(run: seq<State>, events: seq<Event>, k: nat, i: Id)
    requires RunBy(run, events) && k <= |events|
    ensures HasPublished(run[k], i, Decisions(run, events, k, i)) && |Decisions(run, events, k, i)| <= 1
  {
    hide Init, Step, Inv, HasPublished, Decided;
    if k == 0 {
      assert HasPublished(run[0], i, []) by { assert Init(run[0]); NothingPublished(run[0], i); }
    } else {
      ResultIsDecided(run, events, k - 1, i);
      RunByIsRun(run, events);
      EveryState(run, k - 1);
      EveryState(run, k);
      assert Step(run[k - 1], events[k - 1], run[k - 1 + 1]);
      StepPublishes(run[k - 1], events[k - 1], run[k], i, Decisions(run, events, k - 1, i));
      OneAtMost(run[k], i, Decisions(run, events, k, i));
    }
  }

  lemma NothingPublished(s: State, i: Id)
    requires Init(s)
    ensures HasPublished(s, i, [])
  {
  }

  lemma OneAtMost(s: State, i: Id, outcomes: seq<Outcome>)
    requires Inv(s) && HasPublished(s, i, outcomes)
    ensures |outcomes| <= 1
  {
    assert i in s.tasks ==> CellOk(s.tasks[i]);
  }

  /** Before the runner or a canceller decides, the result is open; the runner's outcome is published as it is. */
  lemma CallableIsAnswered(run: seq<State>, events: seq<Event>, m: nat, k: nat, i: Id, r: Outcome)
    requires RunBy(run, events) && m < k <= |events| && events[m] == ERun(i, r)
    requires i in run[m].tasks && run[m].tasks[i].phase.Running? && i in run[k].tasks
    ensures run[k].tasks[i].cell.published == [r]
  {
    ResultIsDecided(run, events, k, i);
    DecidedBefore(run, events, m, k, i);
  }

  /** A cancellation that finds the task open is its result. */
  lemma CancellationIsAnswered(run: seq<State>, events: seq<Event>, m: nat, k: nat, i: Id)
    requires RunBy(run, events) && m < k <= |events| && IsOpen(run[m], i) && i in run[k].tasks
    requires events[m] == EHandleCancel(i) || (events[m].EStopCancel? && events[m].i == i)
    ensures run[k].tasks[i].cell.published == [Cancelled]
  {
    ResultIsDecided(run, events, k, i);
    DecidedBefore(run, events, m, k, i);
  }

  lemma {:induction false} DecidedBefore(run: seq<State>, events: seq<Event>, m: nat, k: nat, i: Id)
    requires |run| == |events| + 1 && m < k <= |events| && |Decided(run[m], events[m], i)| == 1
    requires |Decisions(run, events, k, i)| <= 1
    ensures Decisions(run, events, k, i) == Decided(run[m], events[m], i)
    decreases k
  {
    hide Decided;
    if m < k - 1 {
      DecidedBefore(run, events, m, k - 1, i);
    }
  }

  // ---------------------------------------------------------------- shutdown

  lemma ShutdownRaises(s: State, e: Event, s': State)
    requires Step(s, e, s')
    ensures e.EShutdown? || e.EStopBegin? || s.shutdown ==> s'.shutdown
  {
  }

  /** After a shutdown of either kind the service is shut down for ever and accepts no task. */
  lemma {:induction false} ShutdownRefusesAll(run: seq<State>, events: seq<Event>, m: nat, k: nat)
    requires RunBy(run, events) && m < k <= |events| && (events[m].EShutdown? || events[m].EStopBegin?)
    ensures run[k].shutdown && run[k].tasks.Keys == run[m + 1].tasks.Keys
  {
    hide Init, Step;
    assert Step(run[m], events[m], run[m + 1]);
    ShutdownRaises(run[m], events[m], run[m + 1]);
    RunByIsRun(run, events);
    NoneAdded(run, m + 1, k);
  }

  // ---------------------------------------------------------------- reports

  predicate After(pc: StopPc, readsActive: bool) {
    pc != ReadQueued && (readsActive ==> pc != ReadActive)
  }

  /** How one step moves what a stopping call has read. */
  ghost predicate ReadingMoves(s: State, call: StopCall, call': StopCall) {
    && (After(call.pc, false) ==> After(call'.pc, false) && call'.queued == call.queued)
    && (!After(call.pc, false) && After(call'.pc, false) ==> call.pc == ReadQueued && call'.queued == s.queued)
    && (After(call.pc, true) ==> After(call'.pc, true) && call'.running == call.running)
    && (!After(call.pc, true) && After(call'.pc, true) ==>
         call.pc == ReadActive && call'.running == if s.active > call.queued then s.active - call.queued else 0)
  }

  lemma StepReads(s: State, e: Event, s': State, c: Id)
    requires Step(s, e, s') && c in s'.stops
    ensures c in s.stops ==> ReadingMoves(s, s.stops[c], s'.stops[c])
    ensures c !in s.stops ==> s'.stops[c].pc == ReadQueued
  {
  }

  /** The queued number of a report is exactly how many tasks were waiting, or not yet taken off the count, at one
      moment of the call; its running number is how many more were unfinished at one later moment of it. */
  lemma {:induction false} ReportIsExact(run: seq<State>, k: nat, c: Id) returns (i: nat, j: nat)
    requires IsRun(run) && k < |run| && c in run[k].stops && After(run[k].stops[c].pc, false)
    ensures i < k && c in run[i].stops && run[i].stops[c].pc == ReadQueued
    ensures run[k].stops[c].queued == Count(run[i].tasks, InQueued)
    ensures After(run[k].stops[c].pc, true) ==>
      && i < j < k && c in run[j].stops && run[j].stops[c].pc == ReadActive
      && var (active, queued) := (Count(run[j].tasks, InActive), Count(run[i].tasks, InQueued));
         run[k].stops[c].running == if active > queued then active - queued else 0
    decreases k
  {
    hide Init, Step, Inv, Count;
    assert run[0].stops == map[] by { assert Init(run[0]); NoStops(run[0]); }
    var s := run[k - 1];
    assert Next(s, run[k - 1 + 1]);
    var e :| Step(s, e, run[k]);
    StepReads(s, e, run[k], c);
    CountersExact(run, k - 1);
    if After(s.stops[c].pc, false) {
      i, j := ReportIsExact(run, k - 1, c);
      if !After(s.stops[c].pc, true) {
        j := k - 1;
        ReadsInOrder(run, i, k - 1, c);
      }
    } else {
      i, j := k - 1, k - 1;
    }
  }

  lemma NoStops(s: State)
    requires Init(s)
    ensures s.stops == map[]
  {
  }

  lemma ReadsInOrder(run: seq<State>, i: nat, k: nat, c: Id)
    requires i <= k < |run| && c in run[i].stops && c in run[k].stops
    requires run[i].stops[c].pc == ReadQueued && run[k].stops[c].pc != ReadQueued
    ensures i < k
  {
  }

  // ---------------------------------------------------------------- what a returned shutdown has finished

  /** A task the call has cancelled is settled, except the one it is still accounting for. */
  ghost predicate Settling(s: State, c: Id) {
    c in s.stops ==> forall i :: i in s.stops[c].won ==>
      i in s.tasks && (s.tasks[i].phase.CancelDone? || s.stops[c].busy == Some(i))
  }

  lemma OthersKeepSettling(s: State, e: Event, s': State, c: Id)
    requires Inv(s) && Settling(s, c) && Step(s, e, s') && !e.EStopCancel? && !e.EStopSettled?
    ensures Settling(s', c)
  {
    hide Counters, TasksOk, LockOk, Covered, ReportsOk, HooksOk, CellOk;
    assert c in s'.stops && c in s.stops ==>
      s'.stops[c].won == s.stops[c].won && s'.stops[c].busy == s.stops[c].busy;
    assert c in s'.stops && c !in s.stops ==> s'.stops[c].won == {};
    assert forall i :: i in s.tasks && s.tasks[i].phase.CancelDone? ==>
        i in s'.tasks && s'.tasks[i].phase.CancelDone? by {
      DoneStays(s, e, s');
    }
    assert forall i :: i in s.tasks ==> i in s'.tasks by { DoneStays(s, e, s'); }
  }

  lemma DoneStays(s: State, e: Event, s': State)
    requires TasksOk(s) && Step(s, e, s')
    ensures forall i :: i in s.tasks ==>
        i in s'.tasks && (s.tasks[i].phase.CancelDone? ==> s'.tasks[i].phase.CancelDone?)
  {
  }

  lemma CancellingKeepsSettling(s: State, e: Event, s': State, c: Id)
    requires Inv(s) && Settling(s, c) && Step(s, e, s') && (e.EStopCancel? || e.EStopSettled?)
    ensures Settling(s', c)
  {
    hide Counters, LockOk, Covered, ReportsOk, HooksOk;
    DoneStays(s, e, s');
    if e.EStopCancel? {
      assert CellOk(s.tasks[e.i]);
    }
  }

  lemma {:induction false} EverySettling(run: seq<State>, k: nat, c: Id)
    requires IsRun(run) && k < |run|
    ensures Settling(run[k], c)
  {
    hide Init, Step, Inv, Settling;
    if k == 0 {
      assert Settling(run[0], c) by { assert Init(run[0]); NothingToSettle(run[0], c); }
    } else {
      EverySettling(run, k - 1, c);
      EveryState(run, k - 1);
      assert Next(run[k - 1], run[k - 1 + 1]);
      var e :| Step(run[k - 1], e, run[k]);
      if e.EStopCancel? || e.EStopSettled? {
        CancellingKeepsSettling(run[k - 1], e, run[k], c);
      } else {
        OthersKeepSettling(run[k - 1], e, run[k], c);
      }
    }
  }

  lemma NothingToSettle(s: State, c: Id)
    requires Init(s)
    ensures Settling(s, c)
  {
  }

  lemma ReturnedIsIdle(s: State, e: Event, s': State, c: Id)
    requires Step(s, e, s') && c in s'.stops && (c in s.stops && s.stops[c].pc == Returned ==> s.stops[c].busy == None)
    ensures s'.stops[c].pc == Returned ==> s'.stops[c].busy == None
  {
  }

  lemma {:induction false} EveryReturned(run: seq<State>, k: nat, c: Id)
    requires IsRun(run) && k < |run| && c in run[k].stops && run[k].stops[c].pc == Returned
    ensures run[k].stops[c].busy == None
  {
    hide Step;
    assert run[0].stops == map[] by { assert Init(run[0]); NoStops(run[0]); }
    hide Init;
    assert Next(run[k - 1], run[k - 1 + 1]);
    var e :| Step(run[k - 1], e, run[k]);
    if c in run[k - 1].stops && run[k - 1].stops[c].pc == Returned {
      EveryReturned(run, k - 1, c);
    }
    ReturnedIsIdle(run[k - 1], e, run[k], c);
  }

  /** When `shutdown_now` returns, every task it cancelled has left both counters and has its result. */
  lemma ReturnedHasSettled(run: seq<State>, k: nat, c: Id, i: Id)
    requires IsRun(run) && k < |run| && c in run[k].stops && run[k].stops[c].pc == Returned && i in run[k].stops[c].won
    ensures i in run[k].tasks && !InQueued(run[k].tasks[i]) && !InActive(run[k].tasks[i])
    ensures run[k].tasks[i].cell.published == [Cancelled]
  {
    EverySettling(run, k, c);
    EveryReturned(run, k, c);
    EveryState(run, k);
    hide IsRun;
    assert CellOk(run[k].tasks[i]);
  }

  // ---------------------------------------------------------------- the pending map

  /** Only tasks whose hook has not been taken off the map yet have one there. */
  ghost predicate PendingOk(s: State) {
    forall i :: i in s.pending ==>
      i in s.tasks && (s.tasks[i].phase.Waiting? || s.tasks[i].phase.StartWon? || s.tasks[i].phase.CancelWon?)
  }

  lemma TaskKeepsPending(s: State, e: Event, s': State)
    requires TasksOk(s) && HooksOk(s) && PendingOk(s) && Step(s, e, s') && IsTaskEvent(e)
    ensures PendingOk(s')
  {
    assert CellOk(s.tasks[e.i]);
  }

  lemma OthersKeepPending(s: State, e: Event, s': State)
    requires TasksOk(s) && PendingOk(s) && Step(s, e, s') && !IsTaskEvent(e)
    ensures PendingOk(s')
  {
  }

  /** In every run a task that runs, has finished or is settled keeps no hook in the pending map. */
  lemma {:induction false} NoHookIsLeft(run: seq<State>, k: nat)
    requires IsRun(run) && k < |run|
    ensures PendingOk(run[k])
  {
    hide Step, Inv, PendingOk;
    if k == 0 {
      assert PendingOk(run[0]) by { assert Init(run[0]); NothingPending(run[0]); }
    } else {
      NoHookIsLeft(run, k - 1);
      EveryState(run, k - 1);
      assert TasksOk(run[k - 1]) && HooksOk(run[k - 1]) by { InvHooks(run[k - 1]); }
      assert Next(run[k - 1], run[k - 1 + 1]);
      var e :| Step(run[k - 1], e, run[k]);
      if IsTaskEvent(e) {
        TaskKeepsPending(run[k - 1], e, run[k]);
      } else {
        OthersKeepPending(run[k - 1], e, run[k]);
      }
    }
  }

  lemma NothingPending(s: State)
    requires Init(s)
    ensures PendingOk(s)
  {
  }

  lemma InvHooks(s: State)
    requires Inv(s)
    ensures TasksOk(s) && HooksOk(s)
  {
  }
}
