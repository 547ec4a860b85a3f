// What every run over any number of endpoints of one task handle keeps.

module HandleTheorems {
  import opened Counting
  import opened Completion
  import opened HandleProtocol

  lemma StepKeeps(s: State, e: Event, s': State)
    requires Inv(s) && Step(s, e, s')
    ensures Inv(s')
  {
    StepKeepsProgress(s, e, s');
    StepKeepsOthers(s, e, s');
    if e.ELocked? || e.EUnlocked? {
      FinishKeepsGetters(s, e, s');
    } else {
      GetKeepsGetters(s, e, s');
    }
    StepKeepsLog(s, e, s');
    StepKeepsStarters(s, e, s');
  }

  lemma {:induction false} EveryState(run: seq<State>, k: nat)
    requires IsRun(run) && k < |run|
    ensures Inv(run[k])
  {
    if k > 0 {
      EveryState(run, k - 1);
      hide Inv, Step;
      assert Next(run[k - 1], run[k - 1 + 1]);
      var e :| Step(run[k - 1], e, run[k]);
      StepKeeps(run[k - 1], e, run[k]);
    }
  }

  /** At most one call publishes, no start wins after it, and a run that has seen a won start has seen no won cancel, in
      either order. */
  lemma OneDecision(run: seq<State>, k: nat, i: nat, j: nat)
    requires IsRun(run) && k < |run| && i < j < |run[k].hi.log|
    ensures var (first, second) := (run[k].hi.log[i].what, run[k].hi.log[j].what);
      && (first.Published? ==> !second.Published? && second != StartWon)
      && (first == StartWon ==> second != Published(true))
  {
    EveryState(run, k);
  }

  /** Two calls never both return true. */
  lemma OnePublisher(run: seq<State>, k: nat, i: int, j: int)
    requires IsRun(run) && k < |run| && i in run[k].finishers && j in run[k].finishers
    requires run[k].finishers[i].pc == Finished(true) && run[k].finishers[j].pc == Finished(true)
    ensures i == j && run[k].hi.stored == [run[k].finishers[i].outcome]
  {
    EveryState(run, k);
    assert OthersWait(run[k]);
  }

  /** What `get` or a poll hands out is what the one publisher stored, and it is handed out once. */
  lemma RetrievedIsPublished(run: seq<State>, k: nat)
    requires IsRun(run) && k < |run| && run[k].hi.retrieved != []
    ensures run[k].hi.winner.Some? && run[k].hi.winner.value in run[k].finishers
    ensures run[k].hi.retrieved == run[k].hi.stored == [run[k].finishers[run[k].hi.winner.value].outcome]
  {
    EveryState(run, k);
  }

  /** What one `get` ends in: the outcome that was handed out, or a panic because it was handed out before. */
  lemma GetEndsIn(run: seq<State>, k: nat, g: int)
    requires IsRun(run) && k < |run| && g in run[k].getters
    ensures run[k].getters[g].Got? ==> run[k].hi.retrieved == run[k].hi.stored == [run[k].getters[g].outcome]
    ensures run[k].getters[g].NothingLeft? ==> run[k].hi.retrieved == run[k].hi.stored != []
  {
    EveryState(run, k);
  }

  /** The lock-free flag is never ahead of the result: when it reads true the outcome is there, or was handed out. */
  lemma DoneMeansStored(run: seq<State>, k: nat)
    requires IsRun(run) && k < |run| && run[k].sh.done
    ensures run[k].sh.completed && |run[k].hi.stored| == 1
    ensures run[k].sh.result == Some(run[k].hi.stored[0]) || run[k].hi.retrieved == run[k].hi.stored
  {
    EveryState(run, k);
  }

  lemma StepKeepsOutcome(s: State, e: Event, s': State)
    requires Inv(s) && Step(s, e, s') && s.sh.completed
    ensures s'.sh.completed && (s.sh.done ==> s'.sh.done) && s'.hi.stored == s.hi.stored && s'.hi.last == s.hi.last
  {
  }

  /** Completion is final: the flag stays up, the outcome stays the same, and no later poll is left pending. */
  lemma {:induction false} CompletionIsFinal(run: seq<State>, j: nat, k: nat)
    requires IsRun(run) && j <= k < |run| && run[j].sh.completed
    ensures run[k].sh.completed && (run[j].sh.done ==> run[k].sh.done)
    ensures run[k].hi.stored == run[j].hi.stored && run[k].hi.last == run[j].hi.last
    decreases k
  {
    hide Inv, Step, Init;
    if j < k {
      CompletionIsFinal(run, j, k - 1);
      EveryState(run, k - 1);
      assert Next(run[k - 1], run[k - 1 + 1]);
      var e :| Step(run[k - 1], e, run[k]);
      StepKeepsOutcome(run[k - 1], e, run[k]);
    }
  }

  /** No waker is woken twice or too early, only the latest one is woken, and it has been once the publisher returns. */
  lemma LatestWakerWokenOnce(run: seq<State>, k: nat, i: int)
    requires IsRun(run) && k < |run| && i in run[k].finishers
    ensures run[k].hi.woken == [] || run[k].hi.woken == ListOf(run[k].hi.last)
    ensures run[k].hi.woken != [] ==> run[k].sh.completed
    ensures run[k].finishers[i].pc == Finished(true) ==> run[k].hi.woken == ListOf(run[k].hi.last)
  {
    EveryState(run, k);
  }

  /** No getter is parked in a completed state unless the publisher still owes its notification. */
  lemma NobodyLeftParked(run: seq<State>, k: nat, g: int, i: int)
    requires IsRun(run) && k < |run| && g in run[k].getters && run[k].getters[g].Parked?
    requires i in run[k].finishers
    ensures run[k].sh.completed ==> OwesNotify(run[k])
    ensures run[k].finishers[i].pc != Finished(true)
  {
    EveryState(run, k);
  }

  // ---------------------------------------------------------------- polls and retrievals, by the events of a run

  /** A run with the event that leads to each next state. */
  ghost predicate RunBy(run: seq<State>, events: seq<Event>) {
    && |run| == |events| + 1 && Init(run[0])
    && forall k :: 0 <= k < |events| ==> Step(run[k], events[k], run[k + 1])
  }

  lemma RunByIsRun(run: seq<State>, events: seq<Event>)
    requires RunBy(run, events)
    ensures IsRun(run)
  {
    hide Step, Init;
    forall k | 0 <= k < |run| - 1
      ensures Next(run[k], run[k + 1])
    {
      assert Step(run[k], events[k], run[k + 1]);
    }
  }

  /** Every run has such events. */
  lemma EventsOf(run: seq<State>) returns (events: seq<Event>)
    requires IsRun(run)
    ensures RunBy(run, events)
  {
    hide Step, Init;
    events := [];
    while |events| < |run| - 1
      invariant |events| < |run|
      invariant forall k :: 0 <= k < |events| ==> Step(run[k], events[k], run[k + 1])
    {
      assert Next(run[|events|], run[|events| + 1]);
      var e :| Step(run[|events|], e, run[|events| + 1]);
      events := events + [e];
    }
  }

  /** The event is a poll that finds the task not completed. */
  predicate PollsPending(s: State, e: Event) {
    e.EPoll? && !s.sh.completed
  }

  /** The waker of the last poll before state `k` that found the task not completed. */
  function LastPending(run: seq<State>, events: seq<Event>, k: nat): Option<int>
    requires |run| == |events| + 1 && k <= |events|
  {
    if k == 0 then None
    else if PollsPending(run[k - 1], events[k - 1]) then Some(events[k - 1].w)
    else LastPending(run, events, k - 1)
  }

  lemma PollRemembers(s: State, e: Event, s': State)
    requires Step(s, e, s')
    ensures s'.hi.last == if PollsPending(s, e) then Some(e.w) else s.hi.last
  {
  }

  lemma {:induction false} LastIsPending(run: seq<State>, events: seq<Event>, k: nat)
    requires RunBy(run, events) && k <= |events|
    ensures run[k].hi.last == LastPending(run, events, k)
  {
    hide Step;
    if k > 0 {
      LastIsPending(run, events, k - 1);
      assert Step(run[k - 1], events[k - 1], run[k - 1 + 1]);
      PollRemembers(run[k - 1], events[k - 1], run[k]);
    }
  }

  /** Once the call that published has returned, exactly the waker of the last pending poll has been woken, once; nobody
      has been if no poll was ever pending; and before that nobody else ever is. */
  lemma LastPollIsWoken(run: seq<State>, events: seq<Event>, k: nat, i: int)
    requires RunBy(run, events) && k <= |events| && i in run[k].finishers
    ensures run[k].finishers[i].pc == Finished(true) ==> run[k].hi.woken == ListOf(LastPending(run, events, k))
    ensures run[k].hi.woken == [] || run[k].hi.woken == ListOf(LastPending(run, events, k))
  {
    RunByIsRun(run, events);
    LastIsPending(run, events, k);
    LatestWakerWokenOnce(run, k, i);
  }

  /** In particular: a pending poll that is the last one is woken. */
  lemma PendingPollIsWoken(run: seq<State>, events: seq<Event>, m: nat, k: nat, i: int)
    requires RunBy(run, events) && m < k <= |events| && PollsPending(run[m], events[m])
    requires forall x :: m < x < k ==> !PollsPending(run[x], events[x])
    requires i in run[k].finishers && run[k].finishers[i].pc == Finished(true)
    ensures run[k].hi.woken == [events[m].w]
  {
    LastPollIsWoken(run, events, k, i);
    PendingIsLast(run, events, m, k);
  }

  lemma {:induction false} PendingIsLast(run: seq<State>, events: seq<Event>, m: nat, k: nat)
    requires |run| == |events| + 1 && m < k <= |events| && PollsPending(run[m], events[m])
    requires forall x :: m < x < k ==> !PollsPending(run[x], events[x])
    ensures LastPending(run, events, k) == Some(events[m].w)
    decreases k
  {
    if m < k - 1 {
      PendingIsLast(run, events, m, k - 1);
    }
  }

  /** The event is a `get` or a poll that finds the task completed. */
  predicate Retrieves(s: State, e: Event) {
    (e.EGet? || e.EPoll?) && s.sh.completed
  }

  lemma RetrievalHandsOut(s: State, e: Event, s': State)
    requires Inv(s) && Step(s, e, s') && Retrieves(s, e)
    ensures s'.hi.retrieved == s'.hi.stored
    ensures e.EGet? && s.hi.retrieved == [] ==> s'.getters[e.g].Got?
    ensures e.EGet? && s.hi.retrieved != [] ==> s'.getters[e.g].NothingLeft?
  {
  }

  lemma StepKeepsRetrieved(s: State, e: Event, s': State)
    requires Inv(s) && Step(s, e, s') && s.sh.completed && s.hi.retrieved == s.hi.stored
    ensures s'.sh.completed && s'.hi.retrieved == s'.hi.stored
  {
  }

  /** A `get` or a poll that finds the task completed hands its outcome out, unless it has been handed out before: from
      then on exactly the one stored outcome has been handed out. */
  lemma {:induction false} RetrievalSucceeds(run: seq<State>, events: seq<Event>, m: nat, k: nat)
    requires RunBy(run, events) && m < k <= |events| && Retrieves(run[m], events[m])
    ensures run[k].sh.completed && run[k].hi.retrieved == run[k].hi.stored == run[m].hi.stored
    ensures |run[k].hi.stored| == 1
    ensures var g := events[m];
      g.EGet? ==> g.g in run[m + 1].getters && (run[m + 1].getters[g.g].Got? <==> run[m].hi.retrieved == [])
    decreases k
  {
    hide Init, Step, Inv;
    RunByIsRun(run, events);
    EveryState(run, m);
    assert Step(run[m], events[m], run[m + 1]);
    RetrievalHandsOut(run[m], events[m], run[m + 1]);
    CompletionIsFinal(run, m, m + 1);
    CompletionIsFinal(run, m, k);
    RetrievedStays(run, events, m + 1, k);
    EveryState(run, k);
    StoredOnce(run[k]);
    GettersStay(run[m], events[m], run[m + 1]);
  }

  lemma GettersStay(s: State, e: Event, s': State)
    requires Step(s, e, s')
    ensures e.EGet? ==> e.g in s'.getters
  {
  }

  lemma StoredOnce(s: State)
    requires Inv(s) && s.sh.completed
    ensures |s.hi.stored| == 1
  {
  }

  lemma {:induction false} RetrievedStays(run: seq<State>, events: seq<Event>, m: nat, k: nat)
    requires RunBy(run, events) && m <= k <= |events| && run[m].sh.completed && run[m].hi.retrieved == run[m].hi.stored
    ensures run[k].sh.completed && run[k].hi.retrieved == run[k].hi.stored
    decreases k
  {
    hide Init, Step, Inv;
    if m < k {
      RetrievedStays(run, events, m, k - 1);
      RunByIsRun(run, events);
      EveryState(run, k - 1);
      assert Step(run[k - 1], events[k - 1], run[k - 1 + 1]);
      StepKeepsRetrieved(run[k - 1], events[k - 1], run[k]);
    }
  }

  // ---------------------------------------------------------------- start_and_complete

  /** What a `start_and_complete` call that has returned answered: whether it won the start. */
  predicate Answers(f: Finisher) {
    f.starts && f.pc.Finished?
  }

  /** Whether the result of the call was published, which its answer is documented to tell. */
  predicate Publishes(f: Finisher) {
    f.pc == Finished(true)
  }

  /** Between the won start of call `i` and its refusal, another call published. */
  ghost predicate Overtaken(log: seq<Entry>, i: int) {
    exists p, q :: 0 <= p < q < |log| && log[p] == Entry(Some(i), StartWon)
                   && log[q].what.Published? && log[q].caller != Some(i)
  }

  /** The answer of a `start_and_complete` call is what it is documented to be exactly when no other call published
      after its start. */
  lemma AnswersExactlyWhen(run: seq<State>, k: nat, i: int)
    requires IsRun(run) && k < |run| && i in run[k].finishers
    requires run[k].finishers[i].starts && (run[k].finishers[i].pc.Finished? || run[k].finishers[i].pc.Declined?)
    ensures (Answers(run[k].finishers[i]) <==> Publishes(run[k].finishers[i])) <==> !Overtaken(run[k].hi.log, i)
    ensures Overtaken(run[k].hi.log, i) ==>
      && Answers(run[k].finishers[i]) && run[k].hi.winner.Some? && run[k].hi.winner != Some(i)
      && run[k].hi.winner.value in run[k].finishers
      && run[k].hi.stored == [run[k].finishers[run[k].hi.winner.value].outcome]
  {
    EveryState(run, k);
    var s := run[k];
    var log := s.hi.log;
    if s.finishers[i].pc == Finished(false) {
      var p :| 0 <= p < |log| && log[p] == Entry(Some(i), StartWon);
      var q :| 0 <= q < |log| && log[q].what.Published?;
      assert p < q;
    }
  }

  /** Where only cancellations compete with it, as in every executor here, the answer is always the documented one. */
  lemma OnlyCompletersOvertake(run: seq<State>, k: nat, i: int)
    requires IsRun(run) && k < |run| && i in run[k].finishers
    requires forall j :: j in run[k].finishers && j != i ==> run[k].finishers[j].cancels
    ensures !Overtaken(run[k].hi.log, i)
  {
    EveryState(run, k);
  }

  lemma ExtendRun(run: seq<State>, e: Event, s: State)
    requires IsRun(run) && Step(run[|run| - 1], e, s)
    ensures IsRun(run + [s])
  {
    hide Step, Init;
    assert Next(run[|run| - 1], s);
    var longer := run + [s];
    forall k | 0 <= k < |longer| - 1
      ensures Next(longer[k], longer[k + 1])
    {
      assert k < |run| - 1 ==> Next(run[k], run[k + 1]);
    }
  }

  // From a state in which call `i` asks and may finish, its whole critical section.
  lemma PublishRun(run: seq<State>, i: int) returns (longer: seq<State>)
    requires IsRun(run)
    requires var s := run[|run| - 1];
      s.lock == None && i in s.finishers && s.finishers[i].pc == Asking && MayFinish(s, s.finishers[i])
    ensures IsRun(longer)
    ensures var (s, s') := (run[|run| - 1], longer[|longer| - 1]);
      && s'.lock == None && s'.sh.completed
      && i in s'.finishers && s'.finishers == s.finishers[i := s'.finishers[i]]
      && s'.finishers[i].outcome == s.finishers[i].outcome
      && s'.hi.log == s.hi.log + [Entry(Some(i), Published(s.finishers[i].cancels))]
      && s'.hi.stored == s.hi.stored + [s.finishers[i].outcome]
  {
    longer := run;
    var s := run[|run| - 1];
    var f := s.finishers[i];
    var s1 := At(s, i, Storing).(lock := Some(i),
      hi := s.hi.(log := s.hi.log + [Entry(Some(i), Published(f.cancels))], winner := Some(i)));
    var s2 := At(s1, i, Marking).(sh := s1.sh.(result := Some(f.outcome)),
      hi := s1.hi.(stored := s1.hi.stored + [f.outcome]));
    var s3 := At(s2, i, Flagging).(sh := s2.sh.(completed := true));
    var s4 := At(s3, i, Releasing).(sh := s3.sh.(done := true));
    var s5 := At(s4, i, Notifying(s4.sh.waker)).(lock := None, sh := s4.sh.(waker := None));
    hide IsRun;
    ExtendRun(longer, ELocked(i), s1);
    longer := longer + [s1];
    ExtendRun(longer, ELocked(i), s2);
    longer := longer + [s2];
    ExtendRun(longer, ELocked(i), s3);
    longer := longer + [s3];
    ExtendRun(longer, ELocked(i), s4);
    longer := longer + [s4];
    ExtendRun(longer, ELocked(i), s5);
    longer := longer + [s5];
  }

  /** It happens: call 0 wins the start and answers true, but the published outcome is that of call 1. */
  lemma OvertakenRun() returns (run: seq<State>)
    ensures IsRun(run)
    ensures var s := run[|run| - 1];
      && 0 in s.finishers && Answers(s.finishers[0]) && !Publishes(s.finishers[0])
      && s.finishers[0].outcome == Value(1) && s.hi.stored == [Value(2)]
  {
    var f0, f1 := Finisher(Value(1), false, true, Starting), Finisher(Value(2), false, false, Asking);
    var s0 := State(None, Shared(false, false, None, None, false), History([], None, [], [], None, []),
                    map[0 := f0, 1 := f1], map[]);
    assert IsRun([s0]);
    hide IsRun;
    var s1 := At(Begun(s0, Some(0)), 0, Asking);
    assert Step(s0, EBegin(0), s1);
    ExtendRun([s0], EBegin(0), s1);
    run := PublishRun([s0] + [s1], 1);
    var s2 := run[|run| - 1];
    assert s2.finishers[0] == f0.(pc := Asking);
    var s3 := At(s2, 0, Finished(false)).(hi := s2.hi.(log := s2.hi.log + [Entry(Some(0), Refused(false))]));
    assert Step(s2, ELocked(0), s3);
    ExtendRun(run, ELocked(0), s3);
    run := run + [s3];
  }

  // ---------------------------------------------------------------- refinement

  /** The completion cell an observer under the monitor sees. */
  function Abstract(s: State): Cell {
    Cell(s.sh.started, s.sh.completed, if s.sh.completed then s.hi.stored else [])
  }

  /** What the cell operation of a finishing call does, seen as one step. */
  function Finishing(s: State, i: int): (bool, Cell)
    requires i in s.finishers
  {
    var f := s.finishers[i];
    if f.cancels then Cancel(Abstract(s)) else Complete(Abstract(s), f.outcome)
  }

  /**
   * The field-by-field protocol refines the one-step completion cell: a start is one `Start`; a call that publishes
   * takes effect as a whole when it marks the cell, a refused call when it asks; every other step is invisible.
   */
  lemma StepRefinesCell(s: State, e: Event, s': State)
    requires Inv(s) && Step(s, e, s')
    ensures Sound(Abstract(s))
    ensures e.EStart? ==> Start(Abstract(s)) == (s'.hi.log == s.hi.log + [Entry(None, StartWon)], Abstract(s'))
    ensures e.EBegin? ==> Start(Abstract(s)) == (s'.finishers[e.i].pc == Asking, Abstract(s'))
    ensures e.ELocked? && s.finishers[e.i].pc == Marking ==> Finishing(s, e.i) == (true, Abstract(s'))
    ensures e.ELocked? && s'.finishers[e.i].pc == Finished(false) ==> Finishing(s, e.i) == (false, Abstract(s'))
    ensures !e.EStart? && !e.EBegin? && !(e.ELocked? && s.finishers[e.i].pc == Marking) ==> Abstract(s') == Abstract(s)
  {
    if e.ELocked? && s.finishers[e.i].pc == Marking {
      assert s.hi.winner == Some(e.i);
      assert s'.hi.stored == [] + [s.finishers[e.i].outcome];
    } else if e.EStart? {
      assert (s.hi.log + [Entry(None, StartWon)])[|s.hi.log|].what == StartWon;
    }
  }
}
