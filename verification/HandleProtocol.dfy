// Any number of endpoints racing on one task handle, one memory access at a time where another thread could look:
// `finish` writes its fields one by one, and notifies and wakes after it has released the monitor.

module HandleProtocol {
  import opened Counting
  import opened Completion

  // One `complete` or `cancel` call, or one `start_and_complete` call, which starts the task first and, if that fails,
  // does not run it.
  datatype Pc =
    | Starting
    | Declined
    | Asking
    | Storing
    | Marking
    | Flagging
    | Releasing
    | Notifying(taken: Option<int>)
    | Waking(owed: int)
    | Finished(won: bool)

  datatype Finisher = Finisher(outcome: Outcome, cancels: bool, starts: bool, pc: Pc)

  // One `get` call; the last value is the panic of a retrieval that finds the result already handed out.
  datatype Getter = Checking | Parked | Got(outcome: Outcome) | NothingLeft

  datatype Decision = StartWon | StartLost | Published(cancels: bool) | Refused(cancels: bool)

  // A decision and the call it was taken for; a bare `start` has no number.
  datatype Entry = Entry(caller: Option<int>, what: Decision)

  datatype Shared = Shared(started: bool, completed: bool, result: Option<Outcome>, waker: Option<int>, done: bool)

  // What happened so far: the decisions in the order they were taken, the outcomes stored and handed out, the waker
  // of the last poll that answered Pending, and the wakers woken.
  datatype History = History(log: seq<Entry>, winner: Option<int>, stored: seq<Outcome>, retrieved: seq<Outcome>,
                             last: Option<int>, woken: seq<int>)

  datatype State = State(lock: Option<int>, sh: Shared, hi: History, finishers: map<int, Finisher>,
      getters: map<int, Getter>)

  ghost predicate Init(s: State) {
    && s.lock == None && s.sh == Shared(false, false, None, None, false) && s.hi == History([], None, [], [], None, [])
    && (forall i :: i in s.finishers ==>
         && s.finishers[i].pc == (if s.finishers[i].starts then Starting else Asking)
         && (s.finishers[i].cancels ==> s.finishers[i].outcome == Cancelled && !s.finishers[i].starts))
    && (forall g :: g in s.getters ==> s.getters[g] == Checking)
  }

  // The critical section of `start`.
  function Begun(s: State, caller: Option<int>): State {
    s.(sh := s.sh.(started := s.sh.started || !s.sh.completed),
       hi := s.hi.(log := s.hi.log + [Entry(caller, if s.sh.completed then StartLost else StartWon)]))
  }

  ghost predicate StartStep(s: State, s': State) {
    s.lock == None && s' == Begun(s, None)
  }

  ghost predicate BeginStep(s: State, i: int, s': State) {
    && s.lock == None && i in s.finishers && s.finishers[i].pc == Starting
    && s' == At(Begun(s, Some(i)), i, if s.sh.completed then Declined else Asking)
  }

  function At(s: State, i: int, pc: Pc): State
    requires i in s.finishers
  {
    s.(finishers := s.finishers[i := s.finishers[i].(pc := pc)])
  }

  predicate MayFinish(s: State, f: Finisher) {
    !s.sh.completed && (f.cancels ==> !s.sh.started)
  }

  // The critical section of `finish`.
  ghost predicate FinishLocked(s: State, i: int, s': State) {
    && i in s.finishers
    && var f := s.finishers[i];
    match f.pc
    case Asking =>
      && s.lock == None
      && if MayFinish(s, f) then
           s' == At(s, i, Storing).(lock := Some(i),
               hi := s.hi.(log := s.hi.log + [Entry(Some(i), Published(f.cancels))], winner := Some(i)))
         else
           s' == At(s, i, Finished(false)).(hi := s.hi.(log := s.hi.log + [Entry(Some(i), Refused(f.cancels))]))
    case Storing =>
      s' == At(s, i, Marking).(sh := s.sh.(result := Some(f.outcome)), hi := s.hi.(stored := s.hi.stored + [f.outcome]))
    case Marking => s' == At(s, i, Flagging).(sh := s.sh.(completed := true))
    case Flagging => s' == At(s, i, Releasing).(sh := s.sh.(done := true))
    case Releasing => s' == At(s, i, Notifying(s.sh.waker)).(lock := None, sh := s.sh.(waker := None))
    case _ => false
  }

  function Awake(g: Getter): Getter {
    if g == Parked then Checking else g
  }

  function NotifyAll(getters: map<int, Getter>): map<int, Getter> {
    map g | g in getters :: Awake(getters[g])
  }

  // What `finish` does after the monitor is released.
  ghost predicate FinishUnlocked(s: State, i: int, s': State) {
    && i in s.finishers
    && match s.finishers[i].pc
       case Notifying(w) =>
         s' == At(s, i, if w.Some? then Waking(w.value) else Finished(true)).(getters := NotifyAll(s.getters))
       case Waking(w) => s' == At(s, i, Finished(true)).(hi := s.hi.(woken := s.hi.woken + [w]))
       case _ => false
  }

  // Taking the result out, in `get` and in `poll`.
  function Taken(s: State): State {
    s.(sh := s.sh.(result := None),
       hi := s.hi.(retrieved := s.hi.retrieved + (if s.sh.result.Some? then [s.sh.result.value] else [])))
  }

  ghost predicate GetStep(s: State, g: int, s': State) {
    && g in s.getters && s.getters[g] == Checking && s.lock == None
    && if !s.sh.completed then s' == s.(getters := s.getters[g := Parked])
       else s' == Taken(s).(
         getters := s.getters[g := if s.sh.result.Some? then Got(s.sh.result.value) else NothingLeft])
  }

  ghost predicate SpuriousWake(s: State, g: int, s': State) {
    g in s.getters && s.getters[g] == Parked && s' == s.(getters := s.getters[g := Checking])
  }

  ghost predicate PollStep(s: State, w: int, s': State) {
    && s.lock == None
    && if s.sh.completed then s' == Taken(s)
       else s' == s.(sh := s.sh.(waker := Some(w)), hi := s.hi.(last := Some(w)))
  }

  datatype Event =
    | EStart | EBegin(i: int) | ELocked(i: int) | EUnlocked(i: int)
    | EGet(g: int) | ESpurious(g: int) | EPoll(w: int)

  ghost predicate Step(s: State, e: Event, s': State) {
    match e
    case EStart => StartStep(s, s')
    case EBegin(i) => BeginStep(s, i, s')
    case ELocked(i) => FinishLocked(s, i, s')
    case EUnlocked(i) => FinishUnlocked(s, i, s')
    case EGet(g) => GetStep(s, g, s')
    case ESpurious(g) => SpuriousWake(s, g, s')
    case EPoll(w) => PollStep(s, w, s')
  }

  ghost predicate Next(s: State, s': State) {
    exists e :: Step(s, e, s')
  }

  ghost predicate IsRun(run: seq<State>) {
    && |run| > 0
    && Init(run[0])
    && forall k :: 0 <= k < |run| - 1 ==> Next(run[k], run[k + 1])
  }

  // ---------------------------------------------------------------- the invariant

  predicate Untouched(s: State) {
    && !s.sh.completed && !s.sh.done && s.hi.retrieved == [] && s.hi.woken == [] && s.sh.waker == s.hi.last
  }

  /** The publisher's outcome is stored, and handed out at most once. */
  predicate Stored(s: State, r: Outcome) {
    && s.sh.completed && s.hi.stored == [r]
    && ((s.sh.result == Some(r) && s.hi.retrieved == []) || (s.sh.result == None && s.hi.retrieved == [r]))
  }

  function ListOf(w: Option<int>): seq<int> {
    if w.Some? then [w.value] else []
  }

  /** Everything shared is determined by how far the one publisher has come. */
  predicate Progress(s: State) {
    match s.hi.winner
    case None => Untouched(s) && s.lock == None && s.hi.stored == [] && s.sh.result == None
    case Some(i) =>
      && i in s.finishers
      && var f := s.finishers[i];
      && (f.cancels ==> !s.sh.started && f.outcome == Cancelled)
      && match f.pc
         case Storing => Untouched(s) && s.lock == Some(i) && s.hi.stored == [] && s.sh.result == None
         case Marking => Untouched(s) && s.lock == Some(i) && s.hi.stored == [f.outcome]
             && s.sh.result == Some(f.outcome)
         case Flagging => Stored(s, f.outcome) && !s.sh.done && s.lock == Some(i) && s.sh.waker == s.hi.last
             && s.hi.woken == []
         case Releasing => Stored(s, f.outcome) && s.sh.done && s.lock == Some(i) && s.sh.waker == s.hi.last
             && s.hi.woken == []
         case Notifying(w) => Stored(s, f.outcome) && s.sh.done && s.lock == None && w == s.hi.last && s.hi.woken == []
         case Waking(w) => Stored(s, f.outcome) && s.sh.done && s.lock == None && Some(w) == s.hi.last
             && s.hi.woken == []
         case Finished(won) => won && Stored(s, f.outcome) && s.sh.done && s.lock == None
             && s.hi.woken == ListOf(s.hi.last)
         case _ => false
  }

  predicate Undecided(pc: Pc) {
    pc.Starting? || pc.Declined? || pc.Asking?
  }

  /** Only the winner is past the question, and cancelling calls carry the cancellation. */
  ghost predicate OthersWait(s: State) {
    forall i :: i in s.finishers ==>
      && (Undecided(s.finishers[i].pc) || s.finishers[i].pc == Finished(false) || s.hi.winner == Some(i))
      && (s.finishers[i].cancels ==> s.finishers[i].outcome == Cancelled && !s.finishers[i].starts)
  }

  /** The publisher has yet to notify the parked getters. */
  predicate OwesNotify(s: State) {
    && s.hi.winner.Some? && s.hi.winner.value in s.finishers
    && var pc := s.finishers[s.hi.winner.value].pc;
    pc.Flagging? || pc.Releasing? || pc.Notifying?
  }

  ghost predicate GettersOk(s: State) {
    && (forall g :: g in s.getters && s.getters[g].Parked? && s.sh.completed ==> OwesNotify(s))
    && (forall g :: g in s.getters && s.getters[g].Got? ==> s.hi.retrieved == [s.getters[g].outcome])
    && (forall g :: g in s.getters && s.getters[g].NothingLeft? ==> s.hi.retrieved != [])
  }

  /** The decisions taken, against what they decided: whether a start won, which call published, whether it cancelled.
      No start wins after the publication. */
  ghost predicate Consistent(log: seq<Entry>, started: bool, winner: Option<int>, cancelled: bool) {
    && (forall k :: 0 <= k < |log| && log[k].what == StartWon ==> started)
    && (forall k :: 0 <= k < |log| && log[k].what == Published(true) ==> cancelled)
    && (forall k :: 0 <= k < |log| && log[k].what.Published? ==> winner.Some? && log[k].caller == winner)
    && (forall j, k :: 0 <= j < k < |log| && log[j].what.Published? ==>
          !log[k].what.Published? && log[k].what != StartWon)
    && (winner.Some? ==> exists k :: 0 <= k < |log| && log[k].what.Published?)
  }

  predicate CancelWon(s: State) {
    s.hi.winner.Some? && s.hi.winner.value in s.finishers && s.finishers[s.hi.winner.value].cancels
  }

  ghost predicate LogOk(s: State) {
    Consistent(s.hi.log, s.sh.started, s.hi.winner, CancelWon(s))
  }

  ghost predicate StartedBy(log: seq<Entry>, i: int) {
    Entry(Some(i), StartWon) in log
  }

  /** A `start_and_complete` call goes on exactly when it won the start, and is refused only by another's result. */
  ghost predicate StartersOk(s: State) {
    forall i :: i in s.finishers && s.finishers[i].starts ==>
      && (StartedBy(s.hi.log, i) <==> !s.finishers[i].pc.Starting? && !s.finishers[i].pc.Declined?)
      && (s.finishers[i].pc == Finished(false) ==> s.sh.completed)
  }

  ghost predicate Inv(s: State) {
    Progress(s) && OthersWait(s) && GettersOk(s) && LogOk(s) && StartersOk(s)
  }

  lemma StepKeepsProgress(s: State, e: Event, s': State)
    requires Progress(s) && OthersWait(s) && Step(s, e, s')
    ensures Progress(s')
  {
  }

  lemma StepKeepsOthers(s: State, e: Event, s': State)
    requires Progress(s) && OthersWait(s) && Step(s, e, s')
    ensures OthersWait(s')
  {
    assert s.lock == None && !s.sh.completed ==> s.hi.winner == None;
    hide Progress, Awake;
  }

  lemma FinishKeepsGetters(s: State, e: Event, s': State)
    requires Progress(s) && OthersWait(s) && GettersOk(s) && Step(s, e, s') && (e.ELocked? || e.EUnlocked?)
    ensures GettersOk(s')
  {
    assert s'.hi.retrieved == s.hi.retrieved;
    assert e.ELocked? ==> s'.getters == s.getters;
    assert e.EUnlocked? ==> s'.getters == NotifyAll(s.getters) || (s'.getters == s.getters && !OwesNotify(s));
  }

  lemma GetKeepsGetters(s: State, e: Event, s': State)
    requires Progress(s) && GettersOk(s) && Step(s, e, s') && !e.ELocked? && !e.EUnlocked?
    ensures GettersOk(s')
  {
    assert s'.hi.winner == s.hi.winner && s'.sh.completed == s.sh.completed;
    assert OwesNotify(s') == OwesNotify(s);
    hide OwesNotify;
  }

  lemma StepKeepsLog(s: State, e: Event, s': State)
    requires Progress(s) && OthersWait(s) && LogOk(s) && Step(s, e, s')
    ensures LogOk(s')
  {
    hide Consistent;
    match e
    case EStart => StartKeepsLog(s, None, s');
    case EBegin(i) =>
      assert CancelWon(s') == CancelWon(s);
      StartKeepsLog(s, Some(i), s');
    case ELocked(i) => FinishKeepsLog(s, i, s');
    case _ =>
      assert s'.hi.log == s.hi.log && s'.hi.winner == s.hi.winner && s'.sh.started == s.sh.started;
  }

  lemma StartKeepsLog(s: State, caller: Option<int>, s': State)
    requires Progress(s) && LogOk(s) && s.lock == None
    requires s'.sh == Begun(s, caller).sh && s'.hi == Begun(s, caller).hi && CancelWon(s') == CancelWon(s)
    ensures LogOk(s')
  {
    assert !s.sh.completed ==> s.hi.winner == None;
    LogStarted(s.hi.log, s.sh.started, s.hi.winner, CancelWon(s), caller, !s.sh.completed);
  }

  lemma FinishKeepsLog(s: State, i: int, s': State)
    requires Progress(s) && LogOk(s) && FinishLocked(s, i, s')
    ensures LogOk(s')
  {
    hide Consistent;
    if s.finishers[i].pc != Asking {
      assert CancelWon(s') == CancelWon(s);
    } else if MayFinish(s, s.finishers[i]) {
      LogPublished(s.hi.log, s.sh.started, i, s.finishers[i].cancels);
    } else {
      LogRefused(s.hi.log, s.sh.started, s.hi.winner, CancelWon(s), i, s.finishers[i].cancels);
      assert CancelWon(s') == CancelWon(s);
    }
  }

  lemma LogStarted(log: seq<Entry>, started: bool, winner: Option<int>, cancelled: bool, caller: Option<int>, won: bool)
    requires Consistent(log, started, winner, cancelled) && (won ==> winner == None)
    ensures Consistent(log + [Entry(caller, if won then StartWon else StartLost)], started || won, winner, cancelled)
  {
    LogKept(log, Entry(caller, if won then StartWon else StartLost));
  }

  lemma LogPublished(log: seq<Entry>, started: bool, i: int, cancels: bool)
    requires Consistent(log, started, None, false)
    ensures Consistent(log + [Entry(Some(i), Published(cancels))], started, Some(i), cancels)
  {
    var longer := log + [Entry(Some(i), Published(cancels))];
    assert longer[|log|].what.Published?;
  }

  lemma LogRefused(log: seq<Entry>, started: bool, winner: Option<int>, cancelled: bool, i: int, cancels: bool)
    requires Consistent(log, started, winner, cancelled)
    ensures Consistent(log + [Entry(Some(i), Refused(cancels))], started, winner, cancelled)
  {
    LogKept(log, Entry(Some(i), Refused(cancels)));
  }

  lemma LogKept(log: seq<Entry>, x: Entry)
    ensures (exists k :: 0 <= k < |log| && log[k].what.Published?) ==>
              exists k :: 0 <= k < |log + [x]| && (log + [x])[k].what.Published?
  {
    if k :| 0 <= k < |log| && log[k].what.Published? {
      assert (log + [x])[k].what.Published?;
    }
  }

  /** Whose start has won is changed by winning starts only. */
  lemma StartedByAppend(log: seq<Entry>, x: Entry, i: int)
    ensures StartedBy(log + [x], i) <==> StartedBy(log, i) || x == Entry(Some(i), StartWon)
  {
  }

  lemma BeginKeepsStarters(s: State, i: int, s': State)
    requires StartersOk(s) && BeginStep(s, i, s')
    ensures StartersOk(s')
  {
    forall j
      ensures StartedBy(s'.hi.log, j) <==> StartedBy(s.hi.log, j) || (j == i && !s.sh.completed)
    {
      StartedByAppend(s.hi.log, s'.hi.log[|s.hi.log|], j);
    }
    hide StartedBy;
  }

  lemma FinishKeepsStarters(s: State, i: int, s': State)
    requires Progress(s) && OthersWait(s) && StartersOk(s) && FinishLocked(s, i, s')
    ensures StartersOk(s')
  {
    forall j
      ensures StartedBy(s'.hi.log, j) <==> StartedBy(s.hi.log, j)
    {
      if s'.hi.log != s.hi.log {
        StartedByAppend(s.hi.log, s'.hi.log[|s.hi.log|], j);
      }
    }
    hide StartedBy;
  }

  lemma StepKeepsStarters(s: State, e: Event, s': State)
    requires Progress(s) && OthersWait(s) && StartersOk(s) && Step(s, e, s')
    ensures StartersOk(s')
  {
    hide StartedBy;
    match e
    case EBegin(i) => BeginKeepsStarters(s, i, s');
    case ELocked(i) => FinishKeepsStarters(s, i, s');
    case EStart =>
      forall j
        ensures StartedBy(s'.hi.log, j) <==> StartedBy(s.hi.log, j)
      {
        StartedByAppend(s.hi.log, s'.hi.log[|s.hi.log|], j);
      }
    case _ =>
  }
}
