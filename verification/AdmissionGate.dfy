// The submission gate and the in-flight counter: any number of submitters enter, leave and roll back, one atomic access
// at a time, while other threads close the gate.

module AdmissionGate {
  import opened Counting

  // Where one submit call stands. The answers record whether the decrement reported that the counter reached zero.
  datatype Submitter =
    | Arriving
    | SawOpen
    | Counted
    | Entered
    | RollingBack
    | Rejected(becameZero: bool)
    | Left(becameZero: bool)

  datatype Closer = Closing | Closed(won: bool)

  datatype State = State(open: bool, count: int, submitters: map<int, Submitter>, closers: map<int, Closer>)

  ghost predicate Init(s: State) {
    && s.open && s.count == 0
    && (forall i :: i in s.submitters ==> s.submitters[i] == Arriving)
    && (forall i :: i in s.closers ==> s.closers[i] == Closing)
  }

  function Moved(s: State, i: int, p: Submitter, change: int): State {
    s.(count := s.count + change, submitters := s.submitters[i := p])
  }

  /** The next atomic access of submitter `i` in `try_enter`, then in `leave`. */
  ghost predicate Submit(s: State, i: int, s': State) {
    && i in s.submitters
    && match s.submitters[i]
       case Arriving => s' == Moved(s, i, if s.open then SawOpen else Rejected(false), 0)
       case SawOpen => s' == Moved(s, i, Counted, 1)
       case Counted => s' == Moved(s, i, if s.open then Entered else RollingBack, 0)
       case RollingBack => s' == Moved(s, i, Rejected(s.count == 1), -1)
       case Entered => s' == Moved(s, i, Left(s.count == 1), -1)
       case _ => false
  }

  ghost predicate Close(s: State, i: int, s': State) {
    && i in s.closers && s.closers[i] == Closing
    && s' == s.(open := false, closers := s.closers[i := Closed(s.open)])
  }

  ghost predicate Next(s: State, s': State) {
    exists i :: Submit(s, i, s') || Close(s, i, s')
  }

  ghost predicate IsRun(run: seq<State>) {
    && |run| > 0
    && Init(run[0])
    && forall k :: 0 <= k < |run| - 1 ==> Next(run[k], run[k + 1])
  }

  predicate IsCounted(p: Submitter) {
    p.Counted? || p.Entered? || p.RollingBack?
  }

  predicate SaysZero(p: Submitter) {
    p == Rejected(true) || p == Left(true)
  }

  predicate WonClose(c: Closer) {
    c == Closed(true)
  }

  /** Positions a submitter reaches only after it has seen the gate closed. */
  predicate SawClosed(p: Submitter) {
    p.RollingBack? || p.Rejected?
  }

  ghost predicate Inv(s: State) {
    && s.count == Count(s.submitters, IsCounted)
    && (forall i :: i in s.submitters && SawClosed(s.submitters[i]) ==> !s.open)
    && Count(s.closers, WonClose) == Bit(!s.open)
  }

  lemma StepKeeps(s: State, s': State)
    requires Inv(s) && Next(s, s')
    ensures Inv(s')
  {
    hide Count;
    var i :| Submit(s, i, s') || Close(s, i, s');
    if Submit(s, i, s') {
      CountUpdate(s.submitters, i, s'.submitters[i], IsCounted);
    } else {
      CountUpdate(s.closers, i, s'.closers[i], WonClose);
    }
  }

  lemma {:induction false} EveryState(run: seq<State>, k: nat)
    requires IsRun(run) && k < |run|
    ensures Inv(run[k])
  {
    if k == 0 {
      var s := run[0];
      assert forall i :: i in s.submitters ==> !IsCounted(s.submitters[i]);
      assert forall i :: i in s.closers ==> !WonClose(s.closers[i]);
      CountZero(s.submitters, IsCounted);
      CountZero(s.closers, WonClose);
    } else {
      EveryState(run, k - 1);
      assert Next(run[k - 1], run[k - 1 + 1]);
      StepKeeps(run[k - 1], run[k]);
    }
  }

  /** The counter is the submitters inside plus those still to roll back, so it never underflows; one close wins at
      most. */
  lemma CounterIsExact(run: seq<State>, k: nat)
    requires IsRun(run) && k < |run|
    ensures run[k].count == Count(run[k].submitters, IsCounted) >= 0
    ensures Count(run[k].closers, WonClose) == Bit(!run[k].open)
    ensures forall i :: i in run[k].submitters && IsCounted(run[k].submitters[i]) ==> run[k].count >= 1
  {
    EveryState(run, k);
    forall i | i in run[k].submitters && IsCounted(run[k].submitters[i])
      ensures run[k].count >= 1
    {
      CountPositive(run[k].submitters, i, IsCounted);
    }
  }

  /** Behind a closed gate nobody gets in. */
  lemma {:induction false} ClosedStaysClosed(run: seq<State>, j: nat, k: nat, i: int)
    requires IsRun(run) && j <= k < |run| && !run[j].open
    ensures !run[k].open
    ensures i in run[k].submitters && run[k].submitters[i].Entered? ==>
        i in run[j].submitters && run[j].submitters[i].Entered?
    decreases k
  {
    if j < k {
      ClosedStaysClosed(run, j, k - 1, i);
      assert Next(run[k - 1], run[k - 1 + 1]);
    }
  }

  /**
   * The gate was found closed at `h`, and afterwards, at `j`, the counter was read as zero: then and ever after no
   * submitter is inside, although late ones may still bump the counter and roll it back.
   */
  lemma ZeroAfterClosingIsFinal(run: seq<State>, h: nat, j: nat, k: nat, i: int)
    requires IsRun(run) && h <= j <= k < |run|
    requires !run[h].open && run[j].count == 0
    requires i in run[k].submitters
    ensures !run[k].submitters[i].Entered?
  {
    ClosedStaysClosed(run, h, j, i);
    ClosedStaysClosed(run, j, k, i);
    if run[k].submitters[i].Entered? {
      CounterIsExact(run, j);
      assert false;
    }
  }

  /** How often the counter fell to zero in the first `k` steps. */
  ghost function Drops(run: seq<State>, k: nat): nat
    requires k < |run|
  {
    if k == 0 then 0 else Drops(run, k - 1) + Bit(run[k - 1].count != 0 && run[k].count == 0)
  }

  lemma DropIsReported(s: State, s': State)
    requires Inv(s) && Next(s, s')
    ensures Count(s'.submitters, SaysZero) == Count(s.submitters, SaysZero) + Bit(s.count != 0 && s'.count == 0)
  {
    hide Count;
    var i :| Submit(s, i, s') || Close(s, i, s');
    if Submit(s, i, s') {
      CountUpdate(s.submitters, i, s'.submitters[i], SaysZero);
    }
  }

  /** Between any two points of a run, each fall to zero was reported by exactly one leave or rollback, and nothing
      else was. */
  lemma {:induction false} EveryDropIsReportedOnce(run: seq<State>, j: nat, k: nat)
    requires IsRun(run) && j <= k < |run|
    ensures Count(run[k].submitters, SaysZero) - Count(run[j].submitters, SaysZero) == Drops(run, k) - Drops(run, j)
    decreases k
  {
    hide Next, Init, Inv, Count;
    if j < k {
      EveryDropIsReportedOnce(run, j, k - 1);
      assert Next(run[k - 1], run[k - 1 + 1]);
      EveryState(run, k - 1);
      DropIsReported(run[k - 1], run[k]);
    }
  }

  /** A submitter is turned away only if the gate is closed, from the first state on in which it is turned away; while
      the gate is open every one that has been through is inside or has left. */
  lemma RejectedOnlyWhenClosed(run: seq<State>, k: nat, i: int)
    requires IsRun(run) && k < |run| && i in run[k].submitters
    ensures SawClosed(run[k].submitters[i]) ==> !run[k].open
    ensures run[k].open ==> !run[k].submitters[i].Rejected?
  {
    EveryState(run, k);
  }

  lemma StepDecides(s: State, s': State, i: int)
    requires Next(s, s') && i in s.submitters && i in s'.submitters && s'.submitters[i] != s.submitters[i]
    ensures s'.submitters[i].Entered? ==> s.submitters[i].Counted? && s.open
    ensures s'.submitters[i].Rejected? ==> (s.submitters[i].Arriving? && !s.open) || s.submitters[i].RollingBack?
    ensures s'.submitters[i].Left? ==> s.submitters[i].Entered?
  {
  }

  /** A submitter that has got inside was counted while it saw the gate open. */
  lemma {:induction false} EnteredThroughOpenGate(run: seq<State>, k: nat, i: int) returns (m: nat)
    requires IsRun(run) && k < |run| && i in run[k].submitters
    requires run[k].submitters[i].Entered? || run[k].submitters[i].Left?
    ensures m < k && i in run[m].submitters && run[m].submitters[i].Counted? && run[m].open && run[m].count > 0
    decreases k
  {
    assert forall x :: x in run[0].submitters ==> run[0].submitters[x] == Arriving;
    var s := run[k - 1];
    assert Next(s, run[k - 1 + 1]);
    assert i in s.submitters;
    if s.submitters[i].Entered? || s.submitters[i].Left? {
      m := EnteredThroughOpenGate(run, k - 1, i);
    } else {
      StepDecides(s, run[k], i);
      CounterIsExact(run, k - 1);
      m := k - 1;
    }
  }
}
