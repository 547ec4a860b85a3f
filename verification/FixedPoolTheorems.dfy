// What the fixed pool promises over whole runs, in every interleaving.

module FixedPoolTheorems {
  import opened Counting
  import opened Lifecycles
  import opened FixedPool
  import opened FixedPoolInvariant

  /** The invariant holds in every state of every run. */
  lemma {:induction false} EveryState(run: seq<State>, i: int)
    requires IsRun(run) && 0 <= i < |run|
    ensures Inv(run[i])
  {
    hide Inv, Init, Step;
    if i == 0 {
      InitKeeps(run[0]);
    } else {
      EveryState(run, i - 1);
      assert Next(run[i - 1], run[i - 1 + 1]);
      var e :| Step(run[i - 1], e, run[i]);
      StepKeeps(run[i - 1], e, run[i]);
    }
  }

  // ---------------------------------------------------------------- settled pools

  ghost predicate AllExited(s: State) {
    forall w :: w in s.workers ==> s.workers[w].Exited?
  }

  ghost predicate AllStopsReturned(s: State) {
    forall c :: c in s.stops ==> s.stops[c].pc == Done
  }

  ghost predicate QueuesEmpty(s: State) {
    forall j :: j in s.jobs ==> !InQueue(s.jobs[j])
  }

  /** Each accepted job had exactly one of its two callbacks invoked, exactly once. */
  ghost predicate EachOnce(s: State) {
    forall j :: j in s.jobs ==>
      || (s.jobs[j].Completed? && s.calls.runs[j] == 1 && s.calls.cancels[j] == 0)
      || (s.jobs[j].Cancelled? && s.calls.runs[j] == 0 && s.calls.cancels[j] == 1)
  }

  ghost predicate Settled(s: State) {
    forall j :: j in s.jobs ==> s.jobs[j].Completed? || s.jobs[j].Cancelled?
  }

  lemma SettledTotals(s: State)
    requires Counters(s) && Callbacks(s) && Settled(s)
    ensures EachOnce(s) && s.n.running == 0 && s.n.submitted == s.n.completed + s.n.cancelled
  {
    hide Count;
    CountZero(s.jobs, IsRunning);
    assert forall j :: j in s.jobs ==> IsCompleted(s.jobs[j]) != CancelCounted(s.jobs[j]);
    CountPartition(s.jobs, IsCompleted, CancelCounted);
  }

  /** With all workers out, all stopping calls returned and nothing queued or being published, every job is settled. */
  lemma NothingHeld(s: State)
    requires Placed(s) && AllExited(s) && AllStopsReturned(s)
    requires forall j :: j in s.jobs ==> s.jobs[j] != Global && !s.jobs[j].Inbox? && !s.jobs[j].Publishing?
    ensures Settled(s)
  {
    forall j | j in s.jobs
      ensures s.jobs[j].Completed? || s.jobs[j].Cancelled?
    {
      assert PlaceOk(s, j, s.jobs[j]);
    }
  }

  /** Immediate stop: once every `shutdown_now` call has returned and every worker has exited, all queues are empty,
      each accepted job ran once or was cancelled once and never both, and the counters balance. */
  lemma ImmediateStop(run: seq<State>, i: int, c: Id)
    requires IsRun(run) && 0 <= i < |run|
    requires AllExited(run[i]) && AllStopsReturned(run[i]) && c in run[i].stops
    ensures QueuesEmpty(run[i]) && EachOnce(run[i])
    ensures run[i].n.queued == 0 && run[i].n.running == 0
    ensures run[i].n.submitted == run[i].n.completed + run[i].n.cancelled
  {
    EveryState(run, i);
    StoppedState(run[i], c);
  }

  /** A returned stopping call leaves nothing in the shared queues, nobody inside and nothing being published. */
  lemma StopClears(s: State, c: Id)
    requires Placed(s) && Quiet(s) && DrainedSoFar(s) && c in s.stops && s.stops[c].pc == Done
    ensures forall j :: j in s.jobs ==> s.jobs[j] != Global && !s.jobs[j].Inbox? && !s.jobs[j].Publishing?
    ensures forall t :: t in s.subs ==> !HoldsSlot(s.subs[t])
  {
    assert forall t :: t in s.subs ==> !Inside(s.subs[t]);
    forall j | j in s.jobs
      ensures s.jobs[j] != Global && !s.jobs[j].Inbox? && !s.jobs[j].Publishing?
    {
      assert Cleared(s.stops[c].pc, s.jobs[j]);
      assert PlaceOk(s, j, s.jobs[j]);
    }
  }

  lemma StoppedState(s: State, c: Id)
    requires Inv(s) && AllExited(s) && AllStopsReturned(s) && c in s.stops
    ensures QueuesEmpty(s) && EachOnce(s) && s.n.queued == 0 && s.n.running == 0
    ensures s.n.submitted == s.n.completed + s.n.cancelled
  {
    hide Count, Gate, Dry, Capacity, Taken, Placed, Hands, Quiet, DrainedSoFar, Callbacks, AllExited;
    StopClears(s, c);
    NothingHeld(s);
    SettledTotals(s);
    assert forall j :: j in s.jobs ==> !InSlot(s.jobs[j]);
    assert forall t :: t in s.subs ==> !HoldsSlot(s.subs[t]);
    CountZero(s.jobs, InSlot);
    CountZero(s.subs, HoldsSlot);
  }

  /** A returned `shutdown_now` reports exactly the jobs whose cancel callback it invoked. */
  lemma ReportIsExact(run: seq<State>, i: int, c: Id)
    requires IsRun(run) && 0 <= i < |run| && c in run[i].stops && run[i].stops[c].pc == Done
    ensures run[i].stops[c].taken == |set j | j in run[i].jobs && run[i].jobs[j] == Cancelled(Stopper(c))|
  {
    EveryState(run, i);
    var s := run[i];
    forall j | j in s.jobs
      ensures Drained(c, s.jobs[j]) <==> s.jobs[j] == Cancelled(Stopper(c))
    {
      assert PlaceOk(s, j, s.jobs[j]);
    }
    assert Keys(s.jobs, TakenBy(c)) == set j | j in s.jobs && s.jobs[j] == Cancelled(Stopper(c));
  }

  /** What one step does to the running count a stopping call reports, and to the count of its passes. */
  ghost predicate CallMoves(s: State, call: StopCall, call': StopCall) {
    && (call'.sawRunning != call.sawRunning || Rank(call.pc) <= 2 < Rank(call'.pc) ==>
         call.pc == ReadRunning && call'.sawRunning == s.n.running)
    && (Rank(call.pc) > 2 ==> Rank(call'.pc) > 2)
    && (0 <= call.passes <= call.before <= call.taken ==> 0 <= call'.passes <= call'.before <= call'.taken)
    && ((Rank(call.pc) >= 6 ==> call.taken == call.before) ==> Rank(call'.pc) >= 6 ==> call'.taken == call'.before)
  }

  predicate OfStopper(e: Event) {
    !OfSubmitter(e) && !OfWorker(e) && !e.Close? && !e.MarkShutdown?
  }

  lemma OthersKeepStops(s: State, e: Event, s': State)
    requires Step(s, e, s') && !OfStopper(e)
    ensures s'.stops == s.stops
  {
    hide Steer, Handle, Source, OnMiss, OnHit, HitStage, Admit;
  }

  lemma StopperMoves(s: State, e: Event, s': State, c: Id)
    requires Step(s, e, s') && OfStopper(e) && c in s'.stops
    ensures c in s.stops ==> CallMoves(s, s.stops[c], s'.stops[c])
    ensures c !in s.stops ==> s'.stops[c] == StopCall(CloseGate, 0, 0, 0, 0)
  {
  }

  lemma StepKeepsReport(s: State, e: Event, s': State, c: Id)
    requires Step(s, e, s') && c in s'.stops
    ensures c in s.stops ==> CallMoves(s, s.stops[c], s'.stops[c])
    ensures c !in s.stops ==> s'.stops[c] == StopCall(CloseGate, 0, 0, 0, 0)
  {
    hide Step;
    if OfStopper(e) {
      StopperMoves(s, e, s', c);
    } else {
      OthersKeepStops(s, e, s');
    }
  }

  /** The stopping call read its running count at state `i`, with the gate closed and the stop flag up. */
  ghost predicate ReadAt(run: seq<State>, i: int, c: Id, sawRunning: int) {
    && 0 <= i < |run| && c in run[i].stops && run[i].stops[c].pc == ReadRunning
    && !run[i].flags.accepting && run[i].flags.stopNow
    && sawRunning == run[i].n.running == Count(run[i].jobs, IsRunning)
  }

  /** The running number a `shutdown_now` call reports is exactly how many jobs the workers had in their running
      stretch at one moment of the call, after it closed the gate and raised the stop flag. */
  lemma {:induction false} RunningReportIsExact(run: seq<State>, k: int, c: Id) returns (i: int)
    requires IsRun(run) && 0 <= k < |run| && c in run[k].stops && Rank(run[k].stops[c].pc) > 2
    ensures 0 <= i < k && ReadAt(run, i, c, run[k].stops[c].sawRunning)
    decreases k
  {
    hide Init, Step, Inv;
    InitHasNoStops(run[0]);
    if k > 0 {
      var s := run[k - 1];
      assert Next(s, run[k - 1 + 1]);
      var e :| Step(s, e, run[k]);
      StepKeepsReport(s, e, run[k], c);
      EveryState(run, k - 1);
      if Rank(s.stops[c].pc) > 2 {
        i := RunningReportIsExact(run, k - 1, c);
      } else {
        ReadingIsExact(s, c);
        i := k - 1;
      }
    }
  }

  lemma InitHasNoStops(s: State)
    requires Init(s)
    ensures s.stops == map[]
  {
  }

  lemma ReadingIsExact(s: State, c: Id)
    requires Inv(s) && c in s.stops && s.stops[c].pc == ReadRunning
    ensures !s.flags.accepting && s.flags.stopNow && s.n.running == Count(s.jobs, IsRunning)
  {
  }

  /** Every pass of the drain loop that is repeated found a job, so the loop ends after at most one pass more than there
      are jobs, however the workers steal meanwhile; and it ends only with a pass that found nothing. */
  lemma {:induction false} DrainEnds(run: seq<State>, k: int, c: Id)
    requires IsRun(run) && 0 <= k < |run| && c in run[k].stops
    ensures var call := run[k].stops[c];
      && 0 <= call.passes <= call.before <= call.taken <= run[k].n.submitted
      && (Rank(call.pc) >= 6 ==> call.taken == call.before)
    decreases k
  {
    hide Init, Step, Inv;
    InitHasNoStops(run[0]);
    if k > 0 {
      assert Next(run[k - 1], run[k - 1 + 1]);
      var e :| Step(run[k - 1], e, run[k]);
      StepKeepsReport(run[k - 1], e, run[k], c);
      if c in run[k - 1].stops {
        DrainEnds(run, k - 1, c);
      }
      EveryState(run, k);
      TakenIsSubmitted(run[k], c);
    }
  }

  lemma TakenIsSubmitted(s: State, c: Id)
    requires Inv(s) && c in s.stops
    ensures s.stops[c].taken <= s.n.submitted
  {
    SubsetSize(Keys(s.jobs, TakenBy(c)), s.jobs.Keys);
  }

  // ---------------------------------------------------------------- graceful drain

  /** Only submitters accept jobs and pass the gate. */
  lemma OthersAcceptNothing(s: State, e: Event, s': State)
    requires Hands(s) && Step(s, e, s') && !OfSubmitter(e)
    ensures s'.subs == s.subs && s'.jobs.Keys == s.jobs.Keys && (s'.flags.accepting ==> s.flags.accepting)
  {
    hide MayHaveLocal, NeedsLocal, Steer;
  }

  lemma SubmitterStaysDry(s: State, e: Event, s': State)
    requires Hands(s) && IsDry(s) && Step(s, e, s') && OfSubmitter(e)
    ensures IsDry(s') && s'.jobs.Keys == s.jobs.Keys
  {
  }

  lemma WorkersStayDry(s: State, e: Event, s': State)
    requires Hands(s) && IsDry(s) && Step(s, e, s') && OfWorker(e)
    ensures forall j :: j in s'.jobs ==> !InSlot(s'.jobs[j])
  {
    hide MayHaveLocal, NeedsLocal, Steer, WillPublish, OnMiss, OnHit;
  }

  lemma StoppersStayDry(s: State, e: Event, s': State)
    requires IsDry(s) && Step(s, e, s') && !OfSubmitter(e) && !OfWorker(e)
    ensures forall j :: j in s'.jobs ==> !InSlot(s'.jobs[j])
  {
    hide WillPublish;
  }

  lemma OthersStayDry(s: State, e: Event, s': State)
    requires Hands(s) && IsDry(s) && Step(s, e, s') && !OfSubmitter(e)
    ensures forall j :: j in s'.jobs ==> !InSlot(s'.jobs[j])
  {
    hide Hands, IsDry, Step, InSlot;
    if OfWorker(e) {
      WorkersStayDry(s, e, s');
    } else {
      StoppersStayDry(s, e, s');
    }
  }

  lemma DryStays(s: State, e: Event, s': State)
    requires Hands(s) && IsDry(s) && Step(s, e, s')
    ensures IsDry(s') && s'.jobs.Keys == s.jobs.Keys
  {
    hide Hands, Step;
    if OfSubmitter(e) {
      SubmitterStaysDry(s, e, s');
    } else {
      OthersAcceptNothing(s, e, s');
      OthersStayDry(s, e, s');
    }
  }

  lemma {:induction false} DryForever(run: seq<State>, i: int, k: int)
    requires IsRun(run) && 0 <= i <= k < |run| && IsDry(run[i])
    ensures IsDry(run[k]) && run[k].jobs.Keys == run[i].jobs.Keys
  {
    hide IsDry, Step, Init;
    if i < k {
      DryForever(run, i, k - 1);
      EveryState(run, k - 1);
      assert Next(run[k - 1], run[k - 1 + 1]);
      var e :| Step(run[k - 1], e, run[k]);
      DryStays(run[k - 1], e, run[k]);
    }
  }

  /** Graceful drain: from the moment any worker leaves through the Shutdown arm, no job is in any queue or on its way
      into one, and no job is ever accepted again. */
  lemma GracefulDrain(run: seq<State>, i: int, k: int, w: Id)
    requires IsRun(run) && 0 <= i <= k < |run|
    requires w in run[i].workers && run[i].workers[w] in {Deactivate(true), Unregister(true), Exited(true)}
    ensures QueuesEmpty(run[k]) && run[k].jobs.Keys == run[i].jobs.Keys
  {
    EveryState(run, i);
    DryForever(run, i, k);
  }

  /** With graceful shutdown only, when the last worker has exited every accepted job has run to completion. */
  lemma GracefulCompletion(run: seq<State>, i: int)
    requires IsRun(run) && 0 <= i < |run| && AllExited(run[i]) && run[i].stops.Keys == {}
    ensures forall j :: j in run[i].jobs ==> run[i].jobs[j].Completed? && run[i].calls.runs[j] == 1
    ensures run[i].n.submitted == run[i].n.completed && run[i].n.cancelled == 0
  {
    EveryState(run, i);
    GracefulState(run[i]);
  }

  lemma GracefulState(s: State)
    requires Inv(s) && AllExited(s) && s.stops.Keys == {}
    ensures forall j :: j in s.jobs ==> s.jobs[j].Completed? && s.calls.runs[j] == 1
    ensures s.n.submitted == s.n.completed && s.n.cancelled == 0
  {
    hide Count, Taken, Capacity, Quiet, DrainedSoFar;
    assert 0 in s.workers && s.workers[0] == Exited(true);
    forall j | j in s.jobs
      ensures s.jobs[j].Completed?
    {
      assert PlaceOk(s, j, s.jobs[j]);
    }
    hide Gate, Placed, Hands, Dry;
    SettledTotals(s);
    CountZero(s.jobs, CancelCounted);
  }

  // ---------------------------------------------------------------- termination

  lemma NobodyLeft(s: State)
    requires Counters(s) && s.n.live == 0
    ensures AllExited(s)
  {
    CountZero(s.workers, IsLive);
  }

  lemma DryWhenCountZero(s: State)
    requires Inv(s) && s.n.queued == 0 && s.flags.life != Running
    ensures IsDry(s)
  {
    CountZero(s.subs, HoldsSlot);
    CountZero(s.jobs, InSlot);
    forall t | t in s.subs
      ensures !WillPublish(s.subs[t])
    {
      assert SubmitterHands(s, t, s.subs[t]);
    }
  }

  /** The pool is not reported terminated while a worker has a job in its hands, whichever counter covers that job. */
  lemma HeldMeansLive(run: seq<State>, i: int, j: Job)
    requires IsRun(run) && 0 <= i < |run| && j in run[i].jobs
    requires run[i].jobs[j].Held? && run[i].jobs[j].holder.Worker?
    ensures run[i].n.live > 0
  {
    EveryState(run, i);
    assert PlaceOk(run[i], j, run[i].jobs[j]);
    CountPositive(run[i].workers, run[i].jobs[j].holder.w, IsLive);
  }

  lemma ExitedStays(s: State, e: Event, s': State)
    requires AllExited(s) && Step(s, e, s')
    ensures AllExited(s') && s'.calls.runs == s.calls.runs
  {
  }

  lemma {:induction false} ExitedForever(run: seq<State>, i: int, k: int)
    requires IsRun(run) && 0 <= i <= k < |run| && AllExited(run[i])
    ensures AllExited(run[k]) && run[k].calls.runs == run[i].calls.runs
  {
    hide AllExited, Step, Init;
    if i < k {
      ExitedForever(run, i, k - 1);
      assert Next(run[k - 1], run[k - 1 + 1]);
      var e :| Step(run[k - 1], e, run[k]);
      ExitedStays(run[k - 1], e, run[k]);
    }
  }

  lemma ClosedStays(s: State, e: Event, s': State)
    requires s.flags.life != Running && Step(s, e, s')
    ensures s'.flags.life != Running
  {
  }

  lemma {:induction false} ClosedForever(run: seq<State>, i: int, k: int)
    requires IsRun(run) && 0 <= i <= k < |run| && run[i].flags.life != Running
    ensures run[k].flags.life != Running
  {
    hide Init, Step;
    if i < k {
      ClosedForever(run, i, k - 1);
      assert Next(run[k - 1], run[k - 1 + 1]);
      var e :| Step(run[k - 1], e, run[k]);
      ClosedStays(run[k - 1], e, run[k]);
    }
  }

  /** Termination is truthful and stable although its reads are not atomic: if the lifecycle and the live count are read
      at `i` and the queued count at `j`, then at every later `k` nothing is accepted or run any more, and each job is
      completed, cancelled, or in the hands of a `shutdown_now` call that is about to cancel it. */
  lemma TerminationIsFinal(run: seq<State>, i: int, j: int, k: int)
    requires IsRun(run) && 0 <= i <= j <= k < |run|
    requires run[i].flags.life != Running && run[i].n.live == 0 && run[j].n.queued == 0
    ensures run[k].jobs.Keys == run[j].jobs.Keys && run[k].calls.runs == run[i].calls.runs
    ensures forall x :: x in run[k].jobs ==>
      || run[k].jobs[x].Completed? || run[k].jobs[x].Cancelled?
      || (run[k].jobs[x].Held? && run[k].jobs[x].holder.Stopper? && run[k].jobs[x].stage in {Uncounted, Cancelling})
  {
    hide IsRun, Init, Next, Inv, AllExited, IsDry;
    EveryState(run, i);
    EveryState(run, j);
    EveryState(run, k);
    assert AllExited(run[i]) by { InvParts(run[i]); NobodyLeft(run[i]); }
    ExitedForever(run, i, k);
    ClosedForever(run, i, j);
    DryWhenCountZero(run[j]);
    DryForever(run, j, k);
    OnlyStoppersHold(run[k]);
  }

  lemma InvParts(s: State)
    requires Inv(s)
    ensures Counters(s)
  {
  }

  lemma OnlyStoppersHold(s: State)
    requires Inv(s) && AllExited(s) && IsDry(s)
    ensures forall x :: x in s.jobs ==>
      || s.jobs[x].Completed? || s.jobs[x].Cancelled?
      || (s.jobs[x].Held? && s.jobs[x].holder.Stopper? && s.jobs[x].stage in {Uncounted, Cancelling})
  {
    forall x | x in s.jobs
      ensures || s.jobs[x].Completed? || s.jobs[x].Cancelled?
        || (s.jobs[x].Held? && s.jobs[x].holder.Stopper? && s.jobs[x].stage in {Uncounted, Cancelling})
    {
      assert PlaceOk(s, x, s.jobs[x]);
    }
  }

  /** No counter is ever negative, so no subtraction underflows, and a bounded queue never exceeds its capacity. */
  lemma NoUnderflow(run: seq<State>, i: int)
    requires IsRun(run) && 0 <= i < |run|
    ensures var n := run[i].n;
      && 0 <= n.inflight && 0 <= n.queued && 0 <= n.running && 0 <= n.live
      && 0 <= n.submitted && 0 <= n.completed && 0 <= n.cancelled
      && (run[i].cfg.capacity.Some? ==> n.queued <= run[i].cfg.capacity.value)
  {
    EveryState(run, i);
  }

  // ---------------------------------------------------------------- the admission gate

  ghost predicate Sealed(s: State) {
    !s.flags.accepting && forall t :: t in s.subs ==> !Inside(s.subs[t])
  }

  lemma SealedWhenZero(s: State)
    requires Counters(s) && !s.flags.accepting && s.n.inflight == 0
    ensures Sealed(s)
  {
    CountZero(s.subs, InFlight);
  }

  lemma SubmitterStaysSealed(s: State, e: Event, s': State)
    requires Sealed(s) && Step(s, e, s') && OfSubmitter(e)
    ensures Sealed(s') && s'.jobs.Keys == s.jobs.Keys
  {
  }

  lemma SealStays(s: State, e: Event, s': State)
    requires Hands(s) && Sealed(s) && Step(s, e, s')
    ensures Sealed(s') && s'.jobs.Keys == s.jobs.Keys
  {
    hide Hands, Step;
    if OfSubmitter(e) {
      SubmitterStaysSealed(s, e, s');
    } else {
      OthersAcceptNothing(s, e, s');
    }
  }

  /** Once the gate is closed and the in-flight count has been read as zero, no submitter is inside, then or later,
      and no job is accepted any more. */
  lemma {:induction false} GateSeals(run: seq<State>, i: int, k: int)
    requires IsRun(run) && 0 <= i <= k < |run| && !run[i].flags.accepting && run[i].n.inflight == 0
    ensures Sealed(run[k]) && run[k].jobs.Keys == run[i].jobs.Keys
  {
    hide Init, Step, Sealed;
    if i == k {
      EveryState(run, i);
      assert Sealed(run[i]) by { SealedWhenZero(run[i]); }
    } else {
      GateSeals(run, i, k - 1);
      EveryState(run, k - 1);
      assert Next(run[k - 1], run[k - 1 + 1]);
      var e :| Step(run[k - 1], e, run[k]);
      SealStays(run[k - 1], e, run[k]);
    }
  }
}
