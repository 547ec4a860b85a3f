// The Rayon-backed executor service as an interleaved machine: submissions and shutdowns serialised by one lock, and
// runners, handle cancellations and `shutdown_now` calls racing on atomic counters, the pending map and the completion
// cells outside it.

module RayonService {
  import opened Counting
  import opened Completion

  type Id = int

  // How far one accepted task has come. After the race on the cell is won, by the runner or by one canceller, only the
  // winner moves the task on.
  datatype Phase =
    | Admitted
    | Counted
    | Waiting
    | StartWon
    | StartRemoved
    | Running
    | Published
    | Done
    | CancelWon
    | CancelRemoved
    | CancelUncounted
    | CancelDone

  datatype Task = Task(phase: Phase, cell: Cell, spawned: bool)

  // Who holds the submission lock, and how far the holder is.
  datatype Lock =
    | Free
    | Checked
    | Numbered(id: Id)
    | Activated(id: Id)
    | Queued(id: Id)
    | Registered(id: Id)
    | Stopper(c: Id)

  datatype StopPc = ReadQueued | ReadActive | Drain | Unlock | Cancelling | Returned

  // One `shutdown_now` call: the waiting tasks when it read the queued count, the hooks it drained and has not called
  // yet, the tasks it cancelled, the one it is still accounting for, and the three numbers it reports.
  datatype StopCall = StopCall(pc: StopPc, seen: set<Id>, todo: set<Id>, won: set<Id>, busy: Option<Id>,
                               queued: int, running: int, cancelled: int)

  datatype State = State(shutdown: bool, lock: Lock, active: int, queued: int, nextId: Id, pending: set<Id>,
                         tasks: map<Id, Task>, stops: map<Id, StopCall>)

  ghost predicate Init(s: State) {
    s == State(false, Free, 0, 0, 0, {}, map[], map[])
  }

  ghost predicate In(s: State, i: Id, p: Phase) {
    i in s.tasks && s.tasks[i].phase == p
  }

  function At(s: State, i: Id, p: Phase): State
    requires i in s.tasks
  {
    s.(tasks := s.tasks[i := s.tasks[i].(phase := p)])
  }

  // ---------------------------------------------------------------- submission, under the lock

  ghost predicate Lockstep(s: State, s': State) {
    match s.lock
    case Free => !s.shutdown && s' == s.(lock := Checked)
    case Checked => s' == s.(lock := Numbered(s.nextId), nextId := s.nextId + 1)
    case Numbered(i) =>
      s' == s.(lock := Activated(i), active := s.active + 1, tasks := s.tasks[i := Task(Admitted, Fresh, false)])
    case Activated(i) => In(s, i, Admitted) && s' == At(s, i, Counted).(lock := Queued(i), queued := s.queued + 1)
    case Queued(i) => In(s, i, Counted) && s' == At(s, i, Waiting).(lock := Registered(i), pending := s.pending + {i})
    case Registered(_) => s' == s.(lock := Free)
    case Stopper(_) => false
  }

  // After the lock is released the task is spawned and the handle returned.
  ghost predicate Spawn(s: State, i: Id, s': State) {
    && i in s.tasks && !s.tasks[i].spawned && !s.tasks[i].phase.Admitted? && !s.tasks[i].phase.Counted?
    && s.lock != Registered(i)
    && s' == s.(tasks := s.tasks[i := s.tasks[i].(spawned := true)])
  }

  // ---------------------------------------------------------------- the runner

  ghost predicate RunnerStart(s: State, i: Id, s': State) {
    && i in s.tasks && s.tasks[i].spawned && Start(s.tasks[i].cell).0 && s.tasks[i].phase.Waiting?
    && s' == s.(tasks := s.tasks[i := s.tasks[i].(phase := StartWon, cell := Start(s.tasks[i].cell).1)])
  }

  ghost predicate RunnerStep(s: State, i: Id, r: Outcome, s': State) {
    && i in s.tasks
    && match s.tasks[i].phase
       case StartWon => s' == At(s, i, StartRemoved).(pending := s.pending - {i})
       case StartRemoved => s' == At(s, i, Running).(queued := s.queued - 1)
       case Running =>
         r != Cancelled &&
         s' == s.(tasks := s.tasks[i := s.tasks[i].(phase := Published, cell := Complete(s.tasks[i].cell, r).1)])
       case Published => s' == At(s, i, Done).(active := s.active - 1)
       case _ => false
  }

  // ---------------------------------------------------------------- cancellation

  // The state after a cancel hook ran its race on the cell.
  ghost function Raced(s: State, i: Id): State
    requires i in s.tasks
  {
    var (won, cell) := Cancel(s.tasks[i].cell);
    if won then s.(tasks := s.tasks[i := s.tasks[i].(phase := CancelWon, cell := cell)]) else s
  }

  ghost predicate HandleCancel(s: State, i: Id, s': State) {
    i in s.tasks && s.tasks[i].spawned && s' == Raced(s, i)
  }

  ghost predicate CancelStep(s: State, i: Id, s': State) {
    && i in s.tasks
    && match s.tasks[i].phase
       case CancelWon => s' == At(s, i, CancelRemoved).(pending := s.pending - {i})
       case CancelRemoved => s' == At(s, i, CancelUncounted).(queued := s.queued - 1)
       case CancelUncounted => s' == At(s, i, CancelDone).(active := s.active - 1)
       case _ => false
  }

  // ---------------------------------------------------------------- shutdown

  ghost predicate ShutdownStep(s: State, s': State) {
    s.lock == Free && s' == s.(shutdown := true)
  }

  ghost predicate IsWaiting(t: Task) { t.phase.Waiting? }

  const NewStop := StopCall(ReadQueued, {}, {}, {}, None, 0, 0, 0)

  ghost predicate StopBegin(s: State, c: Id, s': State) {
    && c !in s.stops && s.lock == Free
    && s' == s.(shutdown := true, lock := Stopper(c), stops := s.stops[c := NewStop])
  }

  ghost predicate StopStep(s: State, c: Id, s': State) {
    && c in s.stops
    && var call := s.stops[c];
    match call.pc
    case ReadQueued =>
      s' == s.(stops := s.stops[c := call.(pc := ReadActive, queued := s.queued, seen := Keys(s.tasks, IsWaiting))])
    case ReadActive =>
      s' == s.(stops := s.stops[c := call.(pc := Drain,
                                           running := if s.active > call.queued then s.active - call.queued else 0)])
    case Drain => s' == s.(pending := {}, stops := s.stops[c := call.(pc := Unlock, todo := s.pending)])
    case Unlock => s' == s.(lock := Free, stops := s.stops[c := call.(pc := Cancelling)])
    case _ => false
  }

  // Calling one drained hook.
  ghost predicate StopCancel(s: State, c: Id, i: Id, s': State) {
    && c in s.stops && s.stops[c].pc == Cancelling && s.stops[c].busy.None? && i in s.stops[c].todo && i in s.tasks
    && var call := s.stops[c];
    var won := Cancel(s.tasks[i].cell).0;
    s' == Raced(s, i).(stops := s.stops[c := call.(
      todo := call.todo - {i},
      won := if won then call.won + {i} else call.won,
      cancelled := call.cancelled + (if won then 1 else 0),
      busy := if won then Some(i) else None)])
  }

  ghost predicate StopSettled(s: State, c: Id, s': State) {
    && c in s.stops && s.stops[c].busy.Some? && In(s, s.stops[c].busy.value, CancelDone)
    && s' == s.(stops := s.stops[c := s.stops[c].(busy := None)])
  }

  ghost predicate StopReturn(s: State, c: Id, s': State) {
    && c in s.stops && s.stops[c].pc == Cancelling && s.stops[c].busy.None? && s.stops[c].todo == {}
    && s' == s.(stops := s.stops[c := s.stops[c].(pc := Returned)])
  }

  // ---------------------------------------------------------------- runs

  datatype Event =
    | ELock | ESpawn(i: Id) | EStart(i: Id) | ERun(i: Id, r: Outcome) | EHandleCancel(i: Id) | ECancel(i: Id)
    | EShutdown | EStopBegin(c: Id) | EStop(c: Id) | EStopCancel(c: Id, i: Id)
    | EStopSettled(c: Id) | EStopReturn(c: Id)

  ghost predicate Step(s: State, e: Event, s': State) {
    match e
    case ELock => Lockstep(s, s')
    case ESpawn(i) => Spawn(s, i, s')
    case EStart(i) => RunnerStart(s, i, s')
    case ERun(i, r) => RunnerStep(s, i, r, s')
    case EHandleCancel(i) => HandleCancel(s, i, s')
    case ECancel(i) => CancelStep(s, i, s')
    case EShutdown => ShutdownStep(s, s')
    case EStopBegin(c) => StopBegin(s, c, s')
    case EStop(c) => StopStep(s, c, s')
    case EStopCancel(c, i) => StopCancel(s, c, i, s')
    case EStopSettled(c) => StopSettled(s, c, s')
    case EStopReturn(c) => StopReturn(s, c, s')
  }

  ghost predicate Next(s: State, s': State) {
    exists e :: Step(s, e, s')
  }

  ghost predicate IsRun(run: seq<State>) {
    && |run| > 0
    && Init(run[0])
    && forall i :: 0 <= i < |run| - 1 ==> Next(run[i], run[i + 1])
  }
}
