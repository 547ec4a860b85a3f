// What the dynamic pool promises over whole runs.

module PoolTheorems {
  import opened Counting
  import opened Lifecycles
  import opened Completion
  import opened PoolSpec
  import opened PoolInvariant

  /** The invariant holds in every state of every run. */
  lemma {:induction false} EveryState(run: seq<Pool>, i: int)
    requires IsRun(run) && 0 <= i < |run|
    ensures Inv(run[i])
  {
    hide Inv, Init, Step;
    if i == 0 {
      InitKeeps(run[0]);
    } else {
      EveryState(run, i - 1);
      assert Next(run[i - 1], run[i - 1 + 1]);
      var e :| Step(run[i - 1], e, run[i]);
      StepKeeps(run[i - 1], e, run[i]);
    }
  }

  // ---------------------------------------------------------------- conservation

  predicate IsOpen(t: Task) { IsQueued(t) || IsCarried(t) }
  predicate IsClosed(t: Task) { IsFinished(t) || IsCancelled(t) }

  /** The accepted tasks are exactly the queued, running, completed and cancelled ones. */
  lemma Conservation(s: Pool)
    ensures |s.tasks.Keys| ==
            QueuedCount(s) + RunningCount(s) + Count(s.tasks, IsFinished) + Count(s.tasks, IsCancelled)
  {
    hide Count;
    assert forall j :: j in s.tasks ==> IsOpen(s.tasks[j]) != IsClosed(s.tasks[j]);
    CountPartition(s.tasks, IsOpen, IsClosed);
    CountUnion(s.tasks, IsQueued, IsCarried, IsOpen);
    CountUnion(s.tasks, IsFinished, IsCancelled, IsClosed);
  }

  // ---------------------------------------------------------------- no work stranded behind sleepers

  ghost predicate Active(p: Phase) {
    !p.Exited? && !p.Parked?
  }

  /** Waiting work has a worker that is not asleep, or a submitter that still owes its wake-up call. */
  ghost predicate NotStranded(s: Pool) {
    s.life == Running && QueuedCount(s) > 0 ==>
      s.waits.owed > 0 || exists w :: w in s.workers && Active(s.workers[w])
  }

  ghost predicate NoEarlyTerminationWait(s: Pool) {
    s.life == Running ==> s.waits.termParked == 0
  }

  /** The event hands the last owed wake-up to a thread that waits for termination, while work waits behind sleepers. */
  ghost predicate Absorbs(s: Pool, e: Event) {
    && e.ENotifyTermination? && s.life == Running && QueuedCount(s) > 0 && s.waits.owed == 1
    && forall w :: w in s.workers ==> !Active(s.workers[w])
  }

  /** The event brings a new or a woken worker, a new owed wake-up, or the end of Running. */
  predicate Rescues(e: Event) {
    || e.ESubmitSpawn? || e.ESubmitQueue? || e.EPrestart? || e.EShutdown? || e.EShutdownNow? || e.EWake?
  }

  lemma SubmitKeepsSupply(s: Pool, e: Event, s': Pool)
    requires SizesOk(s) && SupplyOk(s) && Step(s, e, s') && (e.ESubmitQueue? || e.ESubmitQueueSpawn?)
    ensures NotStranded(s')
  {
    hide Count;
    if e.ESubmitQueueSpawn? {
      assert Active(s'.workers[e.w]);
    } else if IdleCount(s) == 0 {
      CountZero(s.workers, IsIdle);
      var w := CountWitness(s.workers, IsLive);
      assert IsLive(s.workers[w]) && !IsIdle(s.workers[w]);
      assert Active(s'.workers[w]);
    }
  }

  // A worker that is awake stays awake while there is work in the queue.
  lemma AwakeStays(s: Pool, e: Event, s': Pool, w: Id)
    requires Step(s, e, s') && QueuedCount(s) > 0 && s'.life == Running && w in s.workers && Active(s.workers[w])
    ensures w in s'.workers && Active(s'.workers[w])
  {
    hide Count;
  }

  lemma OldWork(s: Pool, e: Event, s': Pool)
    requires Step(s, e, s') && !e.ESubmitQueue? && !e.ESubmitQueueSpawn? && QueuedCount(s') > 0
    ensures QueuedCount(s) > 0
  {
    hide Count;
    var j := CountWitness(s'.tasks, IsQueued);
    assert IsQueued(s'.tasks[j]);
    CountPositive(s.tasks, j, IsQueued);
  }

  predicate Notifies(e: Event) {
    e.ENotifyWorker? || e.ENotifyTermination? || e.ENotifyNobody?
  }

  lemma OwedStays(s: Pool, e: Event, s': Pool)
    requires Step(s, e, s')
    ensures s'.life == Running ==> s.life == Running
    ensures !Notifies(e) ==> s'.waits.owed >= s.waits.owed
    ensures Notifies(e) ==> s'.waits.owed == s.waits.owed - 1 && s'.life == s.life && s'.tasks == s.tasks
    ensures Notifies(e) && !e.ENotifyWorker? ==> s'.workers == s.workers
    ensures e.ENotifyWorker? ==> e.w in s'.workers && Active(s'.workers[e.w])
  {
    hide Count;
  }

  /** Where somebody parks for a wake-up nobody takes, some worker is live and therefore awake. */
  lemma NobodyParkedWorks(s: Pool, e: Event, s': Pool)
    requires SupplyOk(s) && QueuedCount(s) > 0 && Step(s, e, s') && e.ENotifyNobody?
    ensures exists w :: w in s.workers && Active(s.workers[w])
  {
    hide Count;
    var w := CountWitness(s.workers, IsLive);
    assert IsLive(s.workers[w]);
    assert Active(s.workers[w]);
  }

  /** The exact step: waiting work gets stranded only by an event that absorbs the last wake-up, and always by that. */
  lemma StrandsExactly(s: Pool, e: Event, s': Pool)
    requires Inv(s) && NotStranded(s) && Step(s, e, s')
    ensures NotStranded(s') <==> !Absorbs(s, e)
  {
    hide Count, TasksOk, WorkersOk, SizesOk, AwakeOk, SupplyOk, Step, Active;
    OwedStays(s, e, s');
    if e.ESubmitQueue? || e.ESubmitQueueSpawn? {
      SubmitKeepsSupply(s, e, s');
    } else if s'.life == Running && QueuedCount(s') > 0 {
      OldWork(s, e, s');
      if e.ENotifyNobody? {
        NobodyParkedWorks(s, e, s');
      }
      if w :| w in s.workers && Active(s.workers[w]) {
        AwakeStays(s, e, s', w);
      }
    }
  }

  /** Stranded work stays stranded until an event that rescues, and no longer. */
  lemma RescuesExactly(s: Pool, e: Event, s': Pool)
    requires Inv(s) && !NotStranded(s) && Step(s, e, s')
    ensures NotStranded(s') <==> Rescues(e)
  {
    hide TasksOk, WorkersOk, AwakeOk, Step, Active;
    if Rescues(e) {
      Rescued(s, e, s');
    } else {
      StaysStranded(s, e, s');
    }
  }

  lemma Rescued(s: Pool, e: Event, s': Pool)
    requires SizesOk(s) && SupplyOk(s) && !NotStranded(s) && Step(s, e, s') && Rescues(e)
    ensures NotStranded(s')
  {
    hide Count;
    if e.ESubmitQueue? {
      SubmitKeepsSupply(s, e, s');
    } else if e.ESubmitSpawn? || e.EPrestart? || e.EWake? {
      assert Active(s'.workers[e.w]);
    }
  }

  lemma StaysStranded(s: Pool, e: Event, s': Pool)
    requires SupplyOk(s) && s.waits.owed >= 0 && !NotStranded(s) && Step(s, e, s') && !Rescues(e)
    ensures !NotStranded(s')
  {
    hide Count;
    assert s'.life == s.life && s'.workers == s.workers && s'.waits.owed == s.waits.owed;
    assert forall j :: j in s.tasks ==> j in s'.tasks && (IsQueued(s.tasks[j]) <==> IsQueued(s'.tasks[j]));
    assert s'.tasks.Keys == s.tasks.Keys;
    CountSame(s.tasks, s'.tasks, IsQueued);
  }

  /** A run with the event that leads to each next state. */
  ghost predicate RunBy(run: seq<Pool>, events: seq<Event>) {
    && |run| == |events| + 1 && Init(run[0])
    && forall i :: 0 <= i < |events| ==> Step(run[i], events[i], run[i + 1])
  }

  lemma RunByIsRun(run: seq<Pool>, events: seq<Event>)
    requires RunBy(run, events)
    ensures IsRun(run)
  {
    hide Step, Init;
    forall i | 0 <= i < |run| - 1
      ensures Next(run[i], run[i + 1])
    {
      assert Step(run[i], events[i], run[i + 1]);
    }
  }

  /** Every run has such events. */
  lemma EventsOf(run: seq<Pool>) returns (events: seq<Event>)
    requires IsRun(run)
    ensures RunBy(run, events)
  {
    hide Step, Init;
    events := [];
    while |events| < |run| - 1
      invariant |events| < |run|
      invariant forall i :: 0 <= i < |events| ==> Step(run[i], events[i], run[i + 1])
    {
      assert Next(run[|events|], run[|events| + 1]);
      var e :| Step(run[|events|], e, run[|events| + 1]);
      events := events + [e];
    }
  }

  /** Work has been stranded before state `k`, and nothing has rescued it since. */
  ghost predicate Absorbed(run: seq<Pool>, events: seq<Event>, k: nat)
    requires |run| == |events| + 1 && k <= |events|
  {
    exists i :: 0 <= i < k && Absorbs(run[i], events[i]) && forall m :: i < m < k ==> !Rescues(events[m])
  }

  /** In every run, whatever threads wait for what: work is stranded at `k` exactly when an earlier event absorbed the
      last owed wake-up and no event since has rescued it. */
  lemma {:induction false} StrandedExactlyWhen(run: seq<Pool>, events: seq<Event>, k: nat)
    requires RunBy(run, events) && k <= |events|
    ensures !NotStranded(run[k]) <==> Absorbed(run, events, k)
  {
    hide Inv, Step, Init, NotStranded, Absorbs, Rescues;
    if k == 0 {
      InitNotStranded(run[0]);
    } else {
      var e := events[k - 1];
      StrandedExactlyWhen(run, events, k - 1);
      RunByIsRun(run, events);
      EveryState(run, k - 1);
      assert Step(run[k - 1], e, run[k - 1 + 1]);
      if NotStranded(run[k - 1]) {
        StrandsExactly(run[k - 1], e, run[k]);
        OnlyByLast(run, events, k);
      } else {
        RescuesExactly(run[k - 1], e, run[k]);
        AbsorbsIsFresh(run, events, k);
      }
    }
  }

  /** With nothing absorbed before, only the last event can have absorbed a wake-up. */
  lemma OnlyByLast(run: seq<Pool>, events: seq<Event>, k: nat)
    requires |run| == |events| + 1 && 0 < k <= |events| && !Absorbed(run, events, k - 1)
    ensures Absorbed(run, events, k) <==> Absorbs(run[k - 1], events[k - 1])
  {
    hide Absorbs, Rescues;
  }

  /** Stranded work cannot be stranded again: what counts is whether the last event rescues. */
  lemma AbsorbsIsFresh(run: seq<Pool>, events: seq<Event>, k: nat)
    requires |run| == |events| + 1 && 0 < k <= |events| && Absorbed(run, events, k - 1) && !NotStranded(run[k - 1])
    ensures Absorbed(run, events, k) <==> !Rescues(events[k - 1])
  {
    assert !Absorbs(run[k - 1], events[k - 1]);
    hide Absorbs, Rescues;
    if !Rescues(events[k - 1]) {
      var i :| 0 <= i < k - 1 && Absorbs(run[i], events[i]) && forall m :: i < m < k - 1 ==> !Rescues(events[m]);
      assert forall m :: i < m < k ==> !Rescues(events[m]);
    }
  }

  /** No work stranded behind sleepers: in every run in which no thread parks for termination while the pool is running,
      waiting work always has an awake worker or a notification on its way. */
  lemma NoWorkStranded(run: seq<Pool>, k: nat)
    requires IsRun(run) && k < |run|
    requires forall i :: 0 <= i < k ==> NoEarlyTerminationWait(run[i])
    ensures NotStranded(run[k])
  {
    var events := EventsOf(run);
    StrandedExactlyWhen(run, events, k);
    hide NotStranded;
    forall i | 0 <= i < k
      ensures !Absorbs(run[i], events[i])
    {
      assert Step(run[i], events[i], run[i + 1]) && NoEarlyTerminationWait(run[i]);
    }
  }

  lemma InitNotStranded(s: Pool)
    requires Init(s)
    ensures NotStranded(s)
  {
    CountZero(s.tasks, IsQueued);
  }

  /** Once the lifecycle has left Running, no worker is ever parked again. */
  lemma {:induction false} NobodyParkedAfterShutdown(run: seq<Pool>, i: nat, k: nat, w: Id)
    requires IsRun(run) && i <= k < |run| && run[i].life != Running && w in run[k].workers
    ensures run[k].life != Running && !run[k].workers[w].Parked?
  {
    LeftRunning(run, i, k);
    EveryState(run, k);
  }

  lemma {:induction false} LeftRunning(run: seq<Pool>, i: nat, k: nat)
    requires IsRun(run) && i <= k < |run| && run[i].life != Running
    ensures run[k].life != Running
    decreases k
  {
    hide Step, Init;
    if i < k {
      LeftRunning(run, i, k - 1);
      assert Next(run[k - 1], run[k - 1 + 1]);
      var e :| Step(run[k - 1], e, run[k]);
      OwedStays(run[k - 1], e, run[k]);
    }
  }

  lemma ExtendRun(run: seq<Pool>, e: Event, s: Pool)
    requires IsRun(run) && Step(run[|run| - 1], e, s)
    ensures IsRun(run + [s])
  {
    hide Step, Init;
    assert Next(run[|run| - 1], s);
    var longer := run + [s];
    forall i | 0 <= i < |longer| - 1
      ensures Next(longer[i], longer[i + 1])
    {
      assert i < |run| - 1 ==> Next(run[i], run[i + 1]);
    }
  }

  // A pool of one worker that has gone to sleep, with no work.
  lemma AsleepRun() returns (run: seq<Pool>)
    ensures |run| > 0 && IsRun(run)
    ensures run[|run| - 1] == Pool(Running, Config(1, 1, None, false), map[], map[0 := Parked(false)], Waits(0, 0, 0))
  {
    hide Count, IsRun;
    var none: map<Id, Phase> := map[];
    var s0 := Pool(Running, Config(1, 1, None, false), map[], none, Waits(0, 0, 0));
    assert IsRun([s0]) by { StartRun(s0); }
    CountZero(none, IsLive);
    CountZero(s0.tasks, IsQueued);
    var s1 := s0.(workers := none[0 := Looking]);
    CountUpdate(none, 0, Looking, IsLive);
    assert Step(s0, EPrestart(0), s1);
    ExtendRun([s0], EPrestart(0), s1);
    var s2 := s1.(workers := s1.workers[0 := Parked(false)]);
    assert Step(s1, EPark(0), s2);
    run := [s0] + [s1];
    ExtendRun(run, EPark(0), s2);
    run := run + [s2];
    assert s2.workers == map[0 := Parked(false)];
  }

  lemma StartRun(s: Pool)
    requires Init(s)
    ensures IsRun([s])
  {
  }

  /** That does happen: a thread that waits for termination too early absorbs the wake-up of the only worker. */
  lemma StrandedRun() returns (run: seq<Pool>)
    ensures IsRun(run) && !NotStranded(run[|run| - 1])
  {
    hide Count, IsRun;
    run := AsleepRun();
    var s2 := run[|run| - 1];
    CountPositive(s2.workers, 0, IsLive);
    CountPositive(s2.workers, 0, IsIdle);
    CountZero(s2.tasks, IsQueued);
    var s3 := s2.(waits := Waits(0, 1, 0));
    assert Step(s2, EAwaitTerm, s3);
    ExtendRun(run, EAwaitTerm, s3);
    run := run + [s3];
    var s4 := s3.(tasks := s3.tasks[7 := NewTask(Queued)], waits := Waits(1, 1, 0));
    assert Step(s3, ESubmitQueue(7), s4);
    ExtendRun(run, ESubmitQueue(7), s4);
    run := run + [s4];
    var s5 := s4.(waits := Waits(0, 0, 1));
    assert Step(s4, ENotifyTermination, s5);
    ExtendRun(run, ENotifyTermination, s5);
    CountUpdate(s3.tasks, 7, NewTask(Queued), IsQueued);
    run := run + [s5];
  }

  // ---------------------------------------------------------------- termination

  lemma TerminatedIsQuiet(s: Pool)
    requires Inv(s) && Terminated(s)
    ensures forall w :: w in s.workers ==> s.workers[w].Exited?
    ensures forall j :: j in s.tasks ==> !IsQueued(s.tasks[j]) && !IsCarried(s.tasks[j])
  {
    CountZero(s.workers, IsLive);
    CountZero(s.tasks, IsQueued);
    CountZero(s.tasks, IsCarried);
  }

  /** A pool has terminated exactly if it is no longer running, every worker is out, and every accepted task is
      completed or cancelled. */
  lemma TerminatedExactlyWhen(s: Pool)
    ensures Terminated(s) <==>
      && s.life != Running && (forall w :: w in s.workers ==> s.workers[w].Exited?)
      && (forall j :: j in s.tasks ==> IsFinished(s.tasks[j]) || IsCancelled(s.tasks[j]))
  {
    CountZero(s.workers, IsLive);
    CountZero(s.tasks, IsQueued);
    CountZero(s.tasks, IsCarried);
    hide Count;
    if s.life != Running && !Terminated(s) {
      if LiveCount(s) > 0 {
        var w := CountWitness(s.workers, IsLive);
        assert !s.workers[w].Exited?;
      } else {
        var j := CountWitness(s.tasks, if QueuedCount(s) > 0 then IsQueued else IsCarried);
        assert !IsFinished(s.tasks[j]) && !IsCancelled(s.tasks[j]);
      }
    } else if Terminated(s) {
      assert forall w :: w in s.workers ==> !IsLive(s.workers[w]);
      assert forall j :: j in s.tasks ==> !IsQueued(s.tasks[j]) && !IsCarried(s.tasks[j]);
    }
  }

  lemma TerminatedStays(s: Pool, e: Event, s': Pool)
    requires Inv(s) && Terminated(s) && Step(s, e, s')
    ensures Terminated(s') && s'.tasks.Keys == s.tasks.Keys
  {
    hide Count;
    TerminatedIsQuiet(s);
    assert forall w :: w in s'.workers ==> !IsLive(s'.workers[w]);
    assert forall j :: j in s'.tasks ==> !IsQueued(s'.tasks[j]);
    assert forall j :: j in s'.tasks ==> !IsCarried(s'.tasks[j]);
    CountZero(s'.workers, IsLive);
    CountZero(s'.tasks, IsQueued);
    CountZero(s'.tasks, IsCarried);
  }

  /** Termination is truthful and stable: it holds for ever, no task is accepted any more, every accepted task is
      completed or cancelled, and no thread is left parked waiting for it. */
  lemma {:induction false} TerminationIsFinal(run: seq<Pool>, i: int, k: int)
    requires IsRun(run) && 0 <= i <= k < |run| && Terminated(run[i])
    ensures Terminated(run[k]) && run[k].tasks.Keys == run[i].tasks.Keys
    ensures |run[k].tasks.Keys| == Count(run[k].tasks, IsFinished) + Count(run[k].tasks, IsCancelled)
    ensures run[k].waits.termParked == 0
    decreases k - i
  {
    hide Count, Init, Step;
    EveryState(run, k);
    if i < k {
      TerminationIsFinal(run, i, k - 1);
      EveryState(run, k - 1);
      assert Next(run[k - 1], run[k - 1 + 1]);
      var e :| Step(run[k - 1], e, run[k]);
      TerminatedStays(run[k - 1], e, run[k]);
    }
    Conservation(run[k]);
  }

  /** How many threads began to wait for termination before state `k`. */
  function Waiters(events: seq<Event>, k: nat): nat
    requires k <= |events|
  {
    if k == 0 then 0 else Waiters(events, k - 1) + if events[k - 1].EAwaitTerm? then 1 else 0
  }

  lemma StepKeepsWaiters(s: Pool, e: Event, s': Pool)
    requires Step(s, e, s') && !Terminated(s)
    ensures s'.waits.termParked + s'.waits.termWoken ==
            s.waits.termParked + s.waits.termWoken + (if e.EAwaitTerm? then 1 else 0)
  {
    hide Count, Terminated;
  }

  /** `wait_for_termination` does not return early: as long as the pool has not terminated, every thread that has
      begun to wait is parked or about to look again. */
  lemma {:induction false} NobodyStopsWaiting(run: seq<Pool>, events: seq<Event>, k: nat)
    requires RunBy(run, events) && k <= |events| && !Terminated(run[k])
    ensures run[k].waits.termParked + run[k].waits.termWoken == Waiters(events, k)
  {
    hide Init, Step, Terminated, Inv;
    if k == 0 {
      assert run[0].waits == Waits(0, 0, 0) by { assert Init(run[0]); FreshWaits(run[0]); }
    } else {
      RunByIsRun(run, events);
      EveryState(run, k - 1);
      assert Step(run[k - 1], events[k - 1], run[k - 1 + 1]);
      if Terminated(run[k - 1]) {
        TerminatedStays(run[k - 1], events[k - 1], run[k]);
        assert false;
      }
      NobodyStopsWaiting(run, events, k - 1);
      StepKeepsWaiters(run[k - 1], events[k - 1], run[k]);
    }
  }

  lemma FreshWaits(s: Pool)
    requires Init(s)
    ensures s.waits == Waits(0, 0, 0)
  {
  }

  // ---------------------------------------------------------------- from submission to result

  /** End to end: once the pool has terminated and every drained job has been cancelled, every accepted task has exactly
      one published result, its callable ran at most once, and never if the result is a cancellation. */
  lemma EndToEnd(run: seq<Pool>, i: int, j: Job)
    requires IsRun(run) && 0 <= i < |run| && Terminated(run[i])
    requires forall k :: k in run[i].tasks ==> !run[i].tasks[k].place.Draining?
    requires j in run[i].tasks
    ensures var t := run[i].tasks[j]; Answered(t.cell, t.invoked, t.own)
  {
    hide Count;
    EveryState(run, i);
    TerminatedIsQuiet(run[i]);
    assert TaskOk(run[i].workers, j, run[i].tasks[j]);
  }

  /** In every state of every run, at most one outcome is published and it never changes a callable's mind: a cancelled
      callable is never invoked, an invoked one publishes its own outcome. */
  lemma OneOutcome(run: seq<Pool>, i: int, j: Job)
    requires IsRun(run) && 0 <= i < |run| && j in run[i].tasks && run[i].tasks[j].cell.completed
    ensures var t := run[i].tasks[j]; Answered(t.cell, t.invoked, t.own)
  {
    hide Count;
    EveryState(run, i);
    assert TaskOk(run[i].workers, j, run[i].tasks[j]);
  }

  // ---------------------------------------------------------------- when workers sleep and leave

  /** The worker's wait timed out, and the pool is above its core size or lets core workers go. */
  ghost predicate TimedOutSpare(s: Pool, w: Id)
    requires w in s.workers
  {
    s.workers[w] == Woken(true) && (LiveCount(s) > s.cfg.core || s.cfg.allowCoreTimeout)
  }

  /** A worker goes to sleep only in a running pool without waiting work in which it is neither above the maximum size
      nor spare after a timed-out wait; its wait is timed exactly if it might then be spare; it leaves only from a
      stopping pool, or without waiting work from a pool that is shut down or above its maximum or in which it is
      spare; and its wait times out only if it is timed. */
  ghost predicate SleepsAndLeavesRightly(s: Pool, w: Id, s': Pool)
    requires w in s.workers && w in s'.workers
  {
    && (s'.workers[w].Parked? && s'.workers[w] != s.workers[w] ==>
         && s.life == Running && QueuedCount(s) == 0 && LiveCount(s) <= s.cfg.max && !TimedOutSpare(s, w)
         && (s'.workers[w].timed <==> LiveCount(s) > s.cfg.core || s.cfg.allowCoreTimeout))
    && (s'.workers[w].Exited? && s'.workers[w] != s.workers[w] ==>
         || s.life == Stopping
         || (QueuedCount(s) == 0 && (s.life == Shutdown || LiveCount(s) > s.cfg.max || TimedOutSpare(s, w))))
    && (s'.workers[w] == Woken(true) && s'.workers[w] != s.workers[w] ==> s.workers[w] == Parked(true))
  }

  lemma SleepsAndLeaves(s: Pool, e: Event, s': Pool, w: Id)
    requires SizesOk(s) && Step(s, e, s') && w in s.workers
    ensures w in s'.workers && SleepsAndLeavesRightly(s, w, s')
  {
    hide Count, Terminated;
  }

  /** In every run. */
  lemma WorkersSleepAndLeaveRightly(run: seq<Pool>, k: nat, w: Id)
    requires IsRun(run) && k < |run| - 1 && w in run[k].workers
    ensures w in run[k + 1].workers && SleepsAndLeavesRightly(run[k], w, run[k + 1])
  {
    hide Inv, Step, SleepsAndLeavesRightly;
    EveryState(run, k);
    assert SizesOk(run[k]) by { assert Inv(run[k]); SizesKnown(run[k]); }
    assert Next(run[k], run[k + 1]);
    var e :| Step(run[k], e, run[k + 1]);
    SleepsAndLeaves(run[k], e, run[k + 1], w);
  }

  lemma SizesKnown(s: Pool)
    requires Inv(s)
    ensures SizesOk(s)
  {
  }

  // ---------------------------------------------------------------- worker counts

  /** No event raises the number of live workers above the current maximum, and while the pool is running and core
      workers may not time out, no exit takes it below the core size. */
  lemma WorkerBounds(run: seq<Pool>, i: int, e: Event)
    requires IsRun(run) && 0 <= i < |run| - 1 && Step(run[i], e, run[i + 1])
    ensures 0 <= run[i].cfg.core <= run[i].cfg.max && 1 <= run[i].cfg.max
    ensures LiveCount(run[i + 1]) > LiveCount(run[i]) ==> LiveCount(run[i + 1]) <= run[i + 1].cfg.max
    ensures LiveCount(run[i + 1]) < LiveCount(run[i]) && run[i].life == Running && !run[i].cfg.allowCoreTimeout ==>
              LiveCount(run[i + 1]) >= run[i].cfg.core
  {
    hide Count;
    EveryState(run, i);
    LiveChanges(run[i], e, run[i + 1]);
  }

  lemma LiveChanges(s: Pool, e: Event, s': Pool)
    requires Step(s, e, s')
    ensures LiveCount(s') == LiveCount(s)
      + Bit(e.ESubmitSpawn? || e.ESubmitQueueSpawn? || e.EPrestart?) - Bit(e.EExit?)
  {
    hide Count;
    if e.EExit? {
      WorkerMoves(s, e.w, Exited);
      NotifyKeepsCounts(s.(workers := s.workers[e.w := Exited]));
    } else if e.EFinish? {
      WorkerMoves(s, e.w, Looking);
      NotifyKeepsCounts(s.(tasks := s'.tasks, workers := s.workers[e.w := Looking]));
    } else if e.EShutdown? {
      NotifyKeepsCounts(s.(life := s'.life));
    } else if e.EShutdownNow? {
      NotifyKeepsCounts(s.(life := s'.life, tasks := s'.tasks));
    } else if e.ESubmitSpawn? || e.ESubmitQueueSpawn? || e.EPrestart? || e.ETake? || e.EPark? || e.ERunStart?
        || e.ERunEnd?
              || e.ENotifyWorker? || e.EWake? {
      WorkerMoves(s, e.w, s'.workers[e.w]);
    }
  }

  /** Waiting work always has a live worker, and a worker that retires leaves none behind. */
  lemma WorkHasWorkers(run: seq<Pool>, i: int)
    requires IsRun(run) && 0 <= i < |run| && QueuedCount(run[i]) > 0
    ensures LiveCount(run[i]) > 0
    ensures forall w, s' :: !Exit(run[i], w, s')
  {
    EveryState(run, i);
  }
}
