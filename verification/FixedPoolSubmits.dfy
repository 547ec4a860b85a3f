// What the fixed pool answers to a submission, where it puts an accepted job, and what a stop means for jobs still
// waiting.

module FixedPoolSubmits {
  import opened Counting
  import opened Lifecycles
  import opened FixedPool
  import opened FixedPoolInvariant
  import opened FixedPoolTheorems

  /** A run with the event that leads to each next state. */
  ghost predicate RunBy(run: seq<State>, events: seq<Event>) {
    && |run| == |events| + 1 && Init(run[0])
    && forall k :: 0 <= k < |events| ==> Step(run[k], events[k], run[k + 1])
  }

  lemma RunByIsRun(run: seq<State>, events: seq<Event>)
    requires RunBy(run, events)
    ensures IsRun(run)
  {
    hide Step, Init;
    forall k | 0 <= k < |run| - 1
      ensures Next(run[k], run[k + 1])
    {
      assert Step(run[k], events[k], run[k + 1]);
    }
  }

  /** Every run has such events. */
  lemma EventsOf(run: seq<State>) returns (events: seq<Event>)
    requires IsRun(run)
    ensures RunBy(run, events)
  {
    hide Step, Init;
    events := [];
    while |events| < |run| - 1
      invariant |events| < |run|
      invariant forall k :: 0 <= k < |events| ==> Step(run[k], events[k], run[k + 1])
    {
      assert Next(run[|events|], run[|events| + 1]);
      var e :| Step(run[|events|], e, run[|events| + 1]);
      events := events + [e];
    }
  }

  // ---------------------------------------------------------------- answers

  /** The call has decided on its answer. */
  predicate Answers(pc: SubmitPc, a: Answer) {
    pc == Leaving(a) || pc == Returned(a)
  }

  /** The job the call has accepted, if it has. */
  function JobOf(pc: SubmitPc): Option<Job> {
    match pc
    case Probe(j, _) => Some(j)
    case Push(j, _) => Some(j)
    case Leaving(Took(j)) => Some(j)
    case Returned(Took(j)) => Some(j)
    case _ => None
  }

  /** Accepted jobs and accepting calls correspond one to one. */
  ghost predicate OneJobEach(s: State) {
    && (forall t :: t in s.subs && JobOf(s.subs[t]).Some? ==> JobOf(s.subs[t]).value in s.jobs)
    && (forall t, u ::
         t in s.subs && u in s.subs && JobOf(s.subs[t]).Some? && JobOf(s.subs[t]) == JobOf(s.subs[u]) ==> t == u)
    && (forall j :: j in s.jobs ==> HasCall(s, j))
  }

  ghost predicate HasCall(s: State, j: Job) {
    exists t :: t in s.subs && JobOf(s.subs[t]) == Some(j)
  }

  /** Only a closed gate makes a call turn back. */
  ghost predicate TurnedBack(s: State) {
    forall t :: t in s.subs && (s.subs[t].Backing? || s.subs[t].Rollback? || Answers(s.subs[t], WasClosed)) ==>
      !s.flags.accepting
  }

  lemma SubmitterKeepsAnswers(s: State, e: Event, s': State)
    requires TurnedBack(s) && Step(s, e, s') && OfSubmitter(e)
    ensures TurnedBack(s')
  {
  }

  /** A submit call takes its job when it is accepted and keeps it. */
  lemma JobsOfCalls(s: State, e: Event, s': State)
    requires Hands(s) && Step(s, e, s') && OfSubmitter(e)
    ensures e.t in s'.subs && s'.subs == s.subs[e.t := s'.subs[e.t]]
    ensures JobOf(s'.subs[e.t]) == if e.Accepted? then Some(e.j) else if e.t in s.subs then JobOf(s.subs[e.t]) else None
    ensures e.Accepted? ==> e.t in s.subs && JobOf(s.subs[e.t]) == None && e.j !in s.jobs
    ensures s'.jobs.Keys == if e.Accepted? then s.jobs.Keys + {e.j} else s.jobs.Keys
  {
  }

  lemma SubmitterKeepsCalls(s: State, e: Event, s': State)
    requires OneJobEach(s) && Hands(s) && Step(s, e, s') && OfSubmitter(e)
    ensures OneJobEach(s')
  {
    JobsOfCalls(s, e, s');
    hide Hands, Step, JobOf;
    forall j | j in s'.jobs
      ensures HasCall(s', j)
    {
      if j in s.jobs.Keys {
        assert HasCall(s, j);
        var t :| t in s.subs && JobOf(s.subs[t]) == Some(j);
        assert JobOf(s'.subs[t]) == Some(j);
      } else {
        assert JobOf(s'.subs[e.t]) == Some(j);
      }
    }
  }

  lemma StepKeepsAnswers(s: State, e: Event, s': State)
    requires TurnedBack(s) && OneJobEach(s) && Hands(s) && Step(s, e, s')
    ensures TurnedBack(s') && OneJobEach(s')
  {
    hide Hands, Step, TurnedBack, OneJobEach;
    if OfSubmitter(e) {
      SubmitterKeepsAnswers(s, e, s');
      SubmitterKeepsCalls(s, e, s');
    } else {
      OthersAcceptNothing(s, e, s');
      SameCalls(s, s');
    }
  }

  lemma SameCalls(s: State, s': State)
    requires TurnedBack(s) && OneJobEach(s)
    requires s'.subs == s.subs && s'.jobs.Keys == s.jobs.Keys && (s'.flags.accepting ==> s.flags.accepting)
    ensures TurnedBack(s') && OneJobEach(s')
  {
    forall j | j in s'.jobs
      ensures HasCall(s', j)
    {
      assert j in s.jobs.Keys;
      assert HasCall(s, j);
    }
  }

  lemma {:induction false} EveryAnswer(run: seq<State>, k: int)
    requires IsRun(run) && 0 <= k < |run|
    ensures TurnedBack(run[k]) && OneJobEach(run[k])
  {
    hide TurnedBack, OneJobEach, Step, Inv;
    if k == 0 {
      assert TurnedBack(run[0]) && OneJobEach(run[0]) by { FirstAnswer(run[0]); }
    } else {
      EveryAnswer(run, k - 1);
      EveryState(run, k - 1);
      assert Hands(run[k - 1]) by { InvHands(run[k - 1]); }
      assert Next(run[k - 1], run[k - 1 + 1]);
      var e :| Step(run[k - 1], e, run[k]);
      StepKeepsAnswers(run[k - 1], e, run[k]);
    }
  }

  lemma FirstAnswer(s: State)
    requires Init(s)
    ensures TurnedBack(s) && OneJobEach(s)
  {
  }

  lemma InvHands(s: State)
    requires Inv(s)
    ensures Hands(s)
  {
  }

  /** A call that answers that the pool is shut down does so only with the gate closed, from the first state on in which
      the answer stands. */
  lemma ClosedOnlyWhenClosed(run: seq<State>, k: int, t: Id)
    requires IsRun(run) && 0 <= k < |run| && t in run[k].subs && Answers(run[k].subs[t], WasClosed)
    ensures !run[k].flags.accepting
  {
    EveryAnswer(run, k);
  }

  lemma DecidesFull(s: State, e: Event, s': State, t: Id)
    requires Capacity(s) && Step(s, e, s') && t in s'.subs && Answers(s'.subs[t], WasFull)
    requires !(t in s.subs && Answers(s.subs[t], WasFull))
    ensures t in s.subs && s.subs[t] == Entered
    ensures s.cfg.capacity.Some? && s.n.queued == s.cfg.capacity.value
  {
    hide Steer, Handle, Source, OnMiss, OnHit, HitStage;
  }

  /** Every slot is taken: by a reservation, or by a job that no worker has marked as running yet. */
  ghost predicate AllSlotsTaken(s: State) {
    s.cfg.capacity == Some(Count(s.subs, HoldsSlot) + Count(s.jobs, InSlot))
  }

  /** A call that answers that the queue is full was inside at a moment at which every slot was taken. */
  lemma {:induction false} FullOnlyWhenFull(run: seq<State>, k: int, t: Id) returns (i: int)
    requires IsRun(run) && 0 <= k < |run| && t in run[k].subs && Answers(run[k].subs[t], WasFull)
    ensures 0 <= i < k && t in run[i].subs && run[i].subs[t] == Entered && AllSlotsTaken(run[i])
    decreases k
  {
    hide Step, Inv, Count;
    assert run[0].subs == map[] by { assert Init(run[0]); }
    hide Init;
    var s := run[k - 1];
    assert Next(s, run[k - 1 + 1]);
    var e :| Step(s, e, run[k]);
    if t in s.subs && Answers(s.subs[t], WasFull) {
      i := FullOnlyWhenFull(run, k - 1, t);
    } else {
      EveryState(run, k - 1);
      assert Capacity(s) && Counters(s) by { assert Inv(s); InvCounts(s); }
      DecidesFull(s, e, run[k], t);
      i := k - 1;
    }
  }

  lemma InvCounts(s: State)
    requires Inv(s)
    ensures Capacity(s) && Counters(s)
  {
  }

  lemma SameConfig(s: State, e: Event, s': State)
    requires Step(s, e, s')
    ensures s'.cfg == s.cfg && (s'.flags.accepting ==> s.flags.accepting)
  {
    hide Steer, Handle, Source, OnMiss, OnHit, HitStage, Admit;
  }

  lemma {:induction false} ConfigStays(run: seq<State>, i: int, k: int)
    requires IsRun(run) && 0 <= i <= k < |run|
    ensures run[k].cfg == run[i].cfg && (run[k].flags.accepting ==> run[i].flags.accepting)
    decreases k
  {
    hide Step, Init;
    if i < k {
      ConfigStays(run, i, k - 1);
      assert Next(run[k - 1], run[k - 1 + 1]);
      var e :| Step(run[k - 1], e, run[k]);
      SameConfig(run[k - 1], e, run[k]);
    }
  }

  /** With the gate open and no capacity every returned call took its job, and each took another one. */
  lemma OpenTakesAll(run: seq<State>, k: int, t: Id)
    requires IsRun(run) && 0 <= k < |run| && t in run[k].subs && run[k].subs[t].Returned?
    requires run[k].flags.accepting && run[k].cfg.capacity == None
    ensures run[k].subs[t].answer.Took? && run[k].subs[t].answer.job in run[k].jobs
  {
    EveryAnswer(run, k);
    if run[k].subs[t].answer.WasFull? {
      var i := FullOnlyWhenFull(run, k, t);
      ConfigStays(run, i, k);
      assert false;
    }
    assert JobOf(run[k].subs[t]).Some?;
  }

  /** Each accepted job has exactly one call that took it, and each call takes one job at most. */
  lemma JobsHaveCalls(run: seq<State>, k: int, j: Job) returns (t: Id)
    requires IsRun(run) && 0 <= k < |run| && j in run[k].jobs
    ensures t in run[k].subs && JobOf(run[k].subs[t]) == Some(j)
    ensures forall u :: u in run[k].subs && JobOf(run[k].subs[u]) == Some(j) ==> u == t
  {
    EveryAnswer(run, k);
    assert HasCall(run[k], j);
    t :| t in run[k].subs && JobOf(run[k].subs[t]) == Some(j);
  }

  // ---------------------------------------------------------------- placement

  /** The event is a probe of call `t` that looks at a worker. */
  predicate Probes(s: State, e: Event, t: Id) {
    e.Probed? && e.t == t && t in s.subs && s.subs[t].Probe? && s.subs[t].left > 0
  }

  /** How many probes of call `t` found an inactive worker before state `k`. */
  ghost function Failures(run: seq<State>, events: seq<Event>, k: nat, t: Id): nat
    requires |run| == |events| + 1 && k <= |events|
  {
    if k == 0 then 0
    else Failures(run, events, k - 1, t)
         + Bit(Probes(run[k - 1], events[k - 1], t) && events[k - 1].w !in run[k - 1].flags.active)
  }

  /** A probe of call `t` found worker `w` active before state `k`. */
  ghost predicate FoundActive(run: seq<State>, events: seq<Event>, k: nat, t: Id, w: Id)
    requires |run| == |events| + 1 && k <= |events|
  {
    exists m :: 0 <= m < k && Probes(run[m], events[m], t) && events[m].w == w && w in run[m].flags.active
  }

  /** Positions before the first probe. */
  predicate BeforeProbing(pc: SubmitPc) {
    !pc.Probe? && !pc.Push? && !pc.Leaving? && !pc.Returned?
  }

  /** What a call's position says about its probes, `failures` of which found an inactive worker. */
  predicate CountOk(s: State, t: Id, failures: int) {
    && (t !in s.subs || BeforeProbing(s.subs[t]) ==> failures == 0)
    && (t in s.subs && s.subs[t].Probe? ==> failures == ProbeCount(s.cfg) - s.subs[t].left && s.subs[t].left >= 0)
    && (t in s.subs && s.subs[t].Push? && s.subs[t].dest == Global && UseLocal(s.cfg) ==> failures == ProbeCount(s.cfg))
  }

  lemma ProbeKeepsCount(s: State, e: Event, s': State, t: Id, failures: int)
    requires CountOk(s, t, failures) && s.cfg.size >= 1 && Step(s, e, s')
    ensures CountOk(s', t, failures + Bit(Probes(s, e, t) && e.w !in s.flags.active))
    ensures t in s'.subs && s'.subs[t].Push? && s'.subs[t].dest.Inbox? && !(t in s.subs && s.subs[t] == s'.subs[t]) ==>
      Probes(s, e, t) && e.w == s'.subs[t].dest.w && e.w in s.flags.active
  {
    hide Steer, Handle, Source, OnMiss, OnHit, HitStage;
    SameConfig(s, e, s');
    if !OfSubmitter(e) {
      assert s'.subs == s.subs;
    }
  }

  lemma {:induction false} EveryProbe(run: seq<State>, events: seq<Event>, k: nat, t: Id)
    requires RunBy(run, events) && k <= |events|
    ensures CountOk(run[k], t, Failures(run, events, k, t))
  {
    hide CountOk, Step, Inv, Probes;
    if k == 0 {
      assert CountOk(run[0], t, 0) by { assert Init(run[0]); NobodyProbes(run[0], t); }
    } else {
      EveryProbe(run, events, k - 1, t);
      RunByIsRun(run, events);
      EveryState(run, k - 1);
      assert Hands(run[k - 1]) by { InvHands(run[k - 1]); }
      assert Step(run[k - 1], events[k - 1], run[k - 1 + 1]);
      ProbeKeepsCount(run[k - 1], events[k - 1], run[k], t, Failures(run, events, k - 1, t));
    }
  }

  lemma NobodyProbes(s: State, t: Id)
    requires Init(s)
    ensures CountOk(s, t, 0)
  {
  }

  lemma FoundBefore(run: seq<State>, events: seq<Event>, k: nat, t: Id, w: Id)
    requires |run| == |events| + 1 && 0 < k <= |events| && FoundActive(run, events, k - 1, t, w)
    ensures FoundActive(run, events, k, t, w)
  {
  }

  lemma FoundNow(run: seq<State>, events: seq<Event>, k: nat, t: Id, w: Id)
    requires |run| == |events| + 1 && 0 < k <= |events|
    requires Probes(run[k - 1], events[k - 1], t) && events[k - 1].w == w && w in run[k - 1].flags.active
    ensures FoundActive(run, events, k, t, w)
  {
  }

  /** An accepted job on its way to an inbox has had a probe that found the owner active. */
  lemma {:induction false} InboxWasActive(run: seq<State>, events: seq<Event>, k: nat, t: Id)
    requires RunBy(run, events) && k <= |events|
    requires t in run[k].subs && run[k].subs[t].Push? && run[k].subs[t].dest.Inbox?
    ensures FoundActive(run, events, k, t, run[k].subs[t].dest.w)
  {
    hide Step, Inv, Probes, FoundActive;
    assert run[0].subs == map[] by { assert Init(run[0]); }
    var s := run[k - 1];
    RunByIsRun(run, events);
    EveryState(run, k - 1);
    assert Hands(s) by { InvHands(s); }
    assert Step(s, events[k - 1], run[k - 1 + 1]);
    EveryProbe(run, events, k - 1, t);
    ProbeKeepsCount(s, events[k - 1], run[k], t, Failures(run, events, k - 1, t));
    if t in s.subs && s.subs[t] == run[k].subs[t] {
      InboxWasActive(run, events, k - 1, t);
      FoundBefore(run, events, k, t, s.subs[t].dest.w);
    } else {
      FoundNow(run, events, k, t, run[k].subs[t].dest.w);
    }
  }

  /** Where a job goes: to the inbox of a worker a probe found active, or to the global queue, and in a pool with local
      queues to the latter only after all its probes found inactive workers, as many as there are workers. */
  lemma PlacedByProbes(run: seq<State>, events: seq<Event>, k: nat, t: Id)
    requires RunBy(run, events) && k <= |events| && t in run[k].subs && run[k].subs[t].Push?
    ensures run[k].subs[t].dest.Inbox? || run[k].subs[t].dest == Global
    ensures run[k].subs[t].dest.Inbox? ==> FoundActive(run, events, k, t, run[k].subs[t].dest.w)
    ensures run[k].cfg.size > 4 ==> run[k].subs[t].dest == Global
    ensures run[k].subs[t].dest == Global && run[k].cfg.size <= 4 ==> Failures(run, events, k, t) == run[k].cfg.size
  {
    RunByIsRun(run, events);
    EveryState(run, k);
    EveryProbe(run, events, k, t);
    if run[k].subs[t].dest.Inbox? {
      InboxWasActive(run, events, k, t);
    }
    assert SubmitterHands(run[k], t, run[k].subs[t]) by { InvHands(run[k]); }
    hide Inv, Step, Init, FoundActive, Failures;
  }

  // ---------------------------------------------------------------- what a stop means for jobs still waiting

  /** The stop flag is up and no worker has got past its check of the flag with this job. */
  ghost predicate Doomed(s: State, j: Job) {
    && s.flags.stopNow && j in s.jobs && !HasRun(s.jobs[j])
    && (s.jobs[j].Held? ==>
         && s.jobs[j].stage != Between && s.jobs[j].stage != Counted
         && (s.jobs[j].stage == Claimed && s.jobs[j].holder.Worker? ==>
              s.jobs[j].holder.w in s.workers && !s.workers[s.jobs[j].holder.w].MarkSub?))
  }

  lemma WorkKeepsDoomed(s: State, w: Id, s': State, j: Job)
    requires Placed(s) && Hands(s) && Doomed(s, j) && WorkStep(s, w, s')
    ensures Doomed(s', j)
  {
    assert PlaceOk(s, j, s.jobs[j]);
  }

  lemma TakeKeepsDoomed(s: State, e: Event, s': State, j: Job)
    requires Placed(s) && Hands(s) && Doomed(s, j) && Step(s, e, s') && OfWorker(e) && !e.Worked?
    ensures Doomed(s', j)
  {
    assert PlaceOk(s, j, s.jobs[j]);
    hide PlaceOk, Placed;
  }

  lemma OthersKeepDoomed(s: State, e: Event, s': State, j: Job)
    requires Hands(s) && Doomed(s, j) && Step(s, e, s') && !OfWorker(e)
    ensures Doomed(s', j)
  {
    hide Admit;
  }

  lemma StepKeepsDoomed(s: State, e: Event, s': State, j: Job)
    requires Placed(s) && Hands(s) && Doomed(s, j) && Step(s, e, s')
    ensures Doomed(s', j)
  {
    hide Placed, Hands, Doomed;
    if e.Worked? {
      WorkKeepsDoomed(s, e.w, s', j);
    } else if OfWorker(e) {
      TakeKeepsDoomed(s, e, s', j);
    } else {
      OthersKeepDoomed(s, e, s', j);
    }
  }

  lemma {:induction false} DoomedForever(run: seq<State>, i: int, k: int, j: Job)
    requires IsRun(run) && 0 <= i <= k < |run| && Doomed(run[i], j)
    ensures Doomed(run[k], j)
    decreases k
  {
    hide Doomed, Step, Init, Inv;
    if i < k {
      DoomedForever(run, i, k - 1, j);
      EveryState(run, k - 1);
      assert Placed(run[k - 1]) && Hands(run[k - 1]) by { InvPlaced(run[k - 1]); }
      assert Next(run[k - 1], run[k - 1 + 1]);
      var e :| Step(run[k - 1], e, run[k]);
      StepKeepsDoomed(run[k - 1], e, run[k], j);
    }
  }

  lemma InvPlaced(s: State)
    requires Inv(s)
    ensures Placed(s) && Hands(s) && Callbacks(s)
  {
  }

  /** A job that is still in a queue, or on its way into one, when the stop flag goes up is never run. */
  lemma NeverRunAfterStop(run: seq<State>, i: int, k: int, j: Job)
    requires IsRun(run) && 0 <= i <= k < |run| && run[i].flags.stopNow && j in run[i].jobs
    requires InQueue(run[i].jobs[j]) || run[i].jobs[j].Publishing?
    ensures run[k].calls.runs[j] == 0
  {
    DoomedForever(run, i, k, j);
    EveryState(run, k);
    assert Callbacks(run[k]) by { InvPlaced(run[k]); }
    hide IsRun, Inv;
  }

  // ---------------------------------------------------------------- graceful shutdown

  lemma LifeStays(s: State, e: Event, s': State)
    requires Step(s, e, s')
    ensures e.MarkShutdown? ==> s'.flags.life != Running && s.flags.closing > 0
    ensures s.flags.life != Running ==> s'.flags.life != Running
    ensures s.flags.life == Stopping ==> s'.flags.life == Stopping
    ensures e.MarkShutdown? && s.flags.life == Running ==> s'.flags.life == Shutdown
  {
    hide Steer, Handle, Source, OnMiss, OnHit, HitStage, Admit;
  }

  /** Once a `shutdown` call has returned, the pool is shut down and its gate is closed, for ever. */
  lemma {:induction false} ShutdownTakesEffect(run: seq<State>, events: seq<Event>, m: nat, k: nat)
    requires RunBy(run, events) && m < k <= |events| && events[m].MarkShutdown?
    ensures run[k].flags.life != Running && !run[k].flags.accepting
    decreases k
  {
    hide Step, Inv, Init;
    assert Step(run[k - 1], events[k - 1], run[k - 1 + 1]);
    LifeStays(run[k - 1], events[k - 1], run[k]);
    if m < k - 1 {
      ShutdownTakesEffect(run, events, m, k - 1);
    }
    RunByIsRun(run, events);
    EveryState(run, k);
    assert !run[k].flags.accepting by { InvGate(run[k]); }
  }

  lemma InvGate(s: State)
    requires Inv(s) && s.flags.life != Running
    ensures !s.flags.accepting
  {
  }
}
