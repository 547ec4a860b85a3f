// What the holder of a handle of the dynamic pool is told: exactly what was decided for the task.

module PoolAnswers {
  import opened Counting
  import opened Completion
  import opened PoolSpec
  import opened PoolInvariant
  import opened PoolTheorems

  /** Neither a start nor a completion has decided the race for the task. */
  predicate IsOpen(s: Pool, j: Job) {
    j in s.tasks && !s.tasks[j].cell.started && !s.tasks[j].cell.completed
  }

  /** The outcomes an event decides for task `j`: what its callable yields, or a cancellation nobody has forestalled. */
  function Decided(s: Pool, e: Event, j: Job): seq<Outcome> {
    match e
    case ERunEnd(w, r) => if w in s.workers && s.workers[w] == Calling(j) then [r] else []
    case EHandleCancel(k) => if k == j && IsOpen(s, j) then [Cancelled] else []
    case ECancelDrained(_, k) => if k == j && IsOpen(s, j) then [Cancelled] else []
    case _ => []
  }

  /** All outcomes decided for task `j` before state `k`, in order. */
  function Decisions(run: seq<Pool>, events: seq<Event>, k: nat, j: Job): seq<Outcome>
    requires |run| == |events| + 1 && k <= |events|
  {
    if k == 0 then [] else Decisions(run, events, k - 1, j) + Decided(run[k - 1], events[k - 1], j)
  }

  predicate HasPublished(s: Pool, j: Job, outcomes: seq<Outcome>) {
    if j in s.tasks then s.tasks[j].cell.published == outcomes else outcomes == []
  }

  lemma CellPublishes(s: Pool, e: Event, s': Pool, j: Job, outcomes: seq<Outcome>)
    requires TasksOk(s) && WorkersOk(s) && Step(s, e, s') && HasPublished(s, j, outcomes)
    requires e.ERunStart? || e.ERunEnd? || e.EHandleCancel? || e.ECancelDrained?
    ensures HasPublished(s', j, outcomes + Decided(s, e, j))
  {
    assert j in s.tasks ==> TaskOk(s.workers, j, s.tasks[j]);
    if e.ERunStart? || e.ERunEnd? {
      assert TaskOk(s.workers, s.workers[e.w].job, s.tasks[s.workers[e.w].job]);
    }
  }

  lemma OthersPublishNothing(s: Pool, e: Event, s': Pool, j: Job, outcomes: seq<Outcome>)
    requires Step(s, e, s') && HasPublished(s, j, outcomes)
    requires !e.ERunStart? && !e.ERunEnd? && !e.EHandleCancel? && !e.ECancelDrained?
    ensures HasPublished(s', j, outcomes)
  {
    hide Count, Terminated;
  }

  lemma StepPublishes(s: Pool, e: Event, s': Pool, j: Job, outcomes: seq<Outcome>)
    requires Inv(s) && Step(s, e, s') && HasPublished(s, j, outcomes)
    ensures HasPublished(s', j, outcomes + Decided(s, e, j))
  {
    hide Step, HasPublished, TasksOk, WorkersOk, SizesOk, SupplyOk, AwakeOk;
    if e.ERunStart? || e.ERunEnd? || e.EHandleCancel? || e.ECancelDrained? {
      CellPublishes(s, e, s', j, outcomes);
    } else {
      OthersPublishNothing(s, e, s', j, outcomes);
      assert outcomes + Decided(s, e, j) == outcomes;
    }
  }

  /** The published result of a task is exactly what was decided for it: what its callable yielded, or a cancellation
      that came before the start; and at most one thing is ever decided. */
  lemma {:induction false} ResultIsDecided(run: seq<Pool>, events: seq<Event>, k: nat, j: Job)
    requires RunBy(run, events) && k <= |events|
    ensures HasPublished(run[k], j, Decisions(run, events, k, j)) && |Decisions(run, events, k, j)| <= 1
  {
    hide Init, Step, Inv, HasPublished, Decided;
    if k == 0 {
      assert HasPublished(run[0], j, []) by { assert Init(run[0]); NothingPublished(run[0], j); }
    } else {
      ResultIsDecided(run, events, k - 1, j);
      RunByIsRun(run, events);
      EveryState(run, k - 1);
      EveryState(run, k);
      assert Step(run[k - 1], events[k - 1], run[k - 1 + 1]);
      StepPublishes(run[k - 1], events[k - 1], run[k], j, Decisions(run, events, k - 1, j));
      OneAtMost(run[k], j, Decisions(run, events, k, j));
    }
  }

  lemma NothingPublished(s: Pool, j: Job)
    requires Init(s)
    ensures HasPublished(s, j, [])
  {
  }

  lemma OneAtMost(s: Pool, j: Job, outcomes: seq<Outcome>)
    requires Inv(s) && HasPublished(s, j, outcomes)
    ensures |outcomes| <= 1
  {
    hide SizesOk, SupplyOk, AwakeOk, WorkersOk;
    assert j in s.tasks ==> TaskOk(s.workers, j, s.tasks[j]);
  }

  /** The outcome of a callable is published as it is, and a cancellation that finds the task open is its result. */
  lemma DecisionIsAnswered(run: seq<Pool>, events: seq<Event>, m: nat, k: nat, j: Job)
    requires RunBy(run, events) && m < k <= |events| && j in run[k].tasks
    requires |Decided(run[m], events[m], j)| == 1
    ensures run[k].tasks[j].cell.published == Decided(run[m], events[m], j)
  {
    ResultIsDecided(run, events, k, j);
    DecidedBefore(run, events, m, k, j);
  }

  lemma {:induction false} DecidedBefore(run: seq<Pool>, events: seq<Event>, m: nat, k: nat, j: Job)
    requires |run| == |events| + 1 && m < k <= |events| && |Decided(run[m], events[m], j)| == 1
    requires |Decisions(run, events, k, j)| <= 1
    ensures Decisions(run, events, k, j) == Decided(run[m], events[m], j)
    decreases k
  {
    hide Decided;
    if m < k - 1 {
      DecidedBefore(run, events, m, k - 1, j);
    }
  }
}
