// The lifecycle tag of a pool: its byte encoding, the transition methods under interference from other threads, and a
// machine in which any number of threads call them.

module LifecycleCas {
  import opened Counting
  import opened Lifecycles

  type Byte = b: int | 0 <= b < 256

  function Encode(l: Life): Byte {
    match l
    case Running => 0
    case Shutdown => 1
    case Stopping => 2
  }

  /** `None` is the panic on an unknown tag. */
  function Decode(tag: Byte): Option<Life> {
    match tag
    case 0 => Some(Running)
    case 1 => Some(Shutdown)
    case 2 => Some(Stopping)
    case _ => None
  }

  /** Decoding undoes encoding, and accepts no tag that encoding does not produce. */
  lemma EncodingIsExact(tag: Byte, l: Life)
    ensures Decode(tag) == Some(l) <==> tag == Encode(l)
    ensures Decode(tag) == None <==> forall m :: Encode(m) != tag
  {
    if tag < 3 {
      var m := if tag == 0 then Running else if tag == 1 then Shutdown else Stopping;
      assert Encode(m) == tag;
    }
  }

  /** What other threads do to the tag just before the `k`-th access of this one: they may only raise it. */
  ghost predicate OnlyRaises(others: (nat, Byte) -> Byte) {
    forall k: nat, tag: Byte :: tag <= 2 ==> tag <= others(k, tag) <= 2
  }

  datatype Write = Mine(tag: Byte) | Theirs(tag: Byte)

  class LifecycleStateMachine {
    var state: Byte
    // Every write since the machine was made, by this thread or by the others.
    ghost var writes: seq<Write>

    constructor NewRunning()
      ensures Decode(state) == Some(Running) && writes == []
    {
      state := Encode(Running);
      writes := [];
    }

    /** One hardware compare-and-exchange. */
    method CompareExchange(expected: Byte, desired: Byte) returns (ok: bool)
      modifies this
      ensures ok <==> old(state) == expected
      ensures state == if ok then desired else old(state)
      ensures writes == if ok then old(writes) + [Mine(desired)] else old(writes)
    {
      ok := state == expected;
      if ok {
        state := desired;
        writes := writes + [Mine(desired)];
      }
    }

    /** Wins exactly when the pool was still running at the exchange. */
    method TransitionRunningToShutdown() returns (won: bool)
      requires state <= 2
      modifies this
      ensures won <==> Decode(old(state)) == Some(Running)
      ensures Decode(state) == if won then Some(Shutdown) else Decode(old(state))
      ensures writes == if won then old(writes) + [Mine(Encode(Shutdown))] else old(writes)
    {
      won := CompareExchange(Encode(Running), Encode(Shutdown));
    }

    /** Other threads run between two accesses of this one. */
    method Interfere(others: (nat, Byte) -> Byte, k: nat)
      requires state <= 2 && OnlyRaises(others)
      modifies this
      ensures old(state) <= state == others(k, old(state)) <= 2
      ensures writes == if state == old(state) then old(writes) else old(writes) + [Theirs(state)]
    {
      ghost var before := state;
      state := others(k, state);
      writes := if state == before then writes else writes + [Theirs(state)];
    }

    /**
     * Ends in `Stopping` whatever the other threads do, within three rounds, because a lost round means that the tag
     * rose. It answers true exactly when the write that stopped the pool was its own, and it writes nothing else.
     */
    method TransitionToStopping(others: (nat, Byte) -> Byte) returns (won: bool, rounds: nat)
      requires state <= 2 && OnlyRaises(others)
      modifies this
      ensures 1 <= rounds <= 3
      ensures Decode(state) == Some(Stopping)
      ensures old(writes) <= writes
      ensures won ==> |writes| > |old(writes)| && writes[|writes| - 1] == Mine(Encode(Stopping))
      ensures forall i :: |old(writes)| <= i < |writes| && writes[i].Mine? ==> won && i == |writes| - 1
    {
      rounds := 0;
      while true
        invariant state <= 2 && rounds <= state && old(writes) <= writes
        invariant forall i :: |old(writes)| <= i < |writes| ==> writes[i].Theirs?
        decreases 3 - rounds
      {
        Interfere(others, 2 * rounds);
        var current := state;
        rounds := rounds + 1;
        if current == Encode(Stopping) {
          return false, rounds;
        }
        Interfere(others, 2 * rounds - 1);
        won := CompareExchange(current, Encode(Stopping));
        if won {
          return;
        }
      }
    }
  }

  // ---------------------------------------------------------------- any number of callers

  datatype Caller =
    | Shutting
    | Loading(lost: nat)
    | Exchanging(current: Byte, lost: nat)
    | ShutReturned(won: bool)
    | StopReturned(won: bool)

  datatype State = State(tag: Byte, callers: map<int, Caller>)

  ghost predicate Init(s: State) {
    s.tag == Encode(Running) && forall c :: c in s.callers ==> s.callers[c] == Shutting || s.callers[c] == Loading(0)
  }

  function Moved(s: State, c: int, caller: Caller, tag: Byte): State {
    State(tag, s.callers[c := caller])
  }

  /** The next atomic access of caller `c`. */
  ghost predicate Step(s: State, c: int, s': State) {
    && c in s.callers
    && match s.callers[c]
       case Shutting =>
         var ok := s.tag == Encode(Running);
         s' == Moved(s, c, ShutReturned(ok), if ok then Encode(Shutdown) else s.tag)
       case Loading(lost) =>
         s' == Moved(s, c, if s.tag == Encode(Stopping) then StopReturned(false) else Exchanging(s.tag, lost), s.tag)
       case Exchanging(current, lost) =>
         var ok := s.tag == current;
         s' == Moved(s, c, if ok then StopReturned(true) else Loading(lost + 1), if ok then Encode(Stopping) else s.tag)
       case _ => false
  }

  ghost predicate Next(s: State, s': State) {
    exists c :: Step(s, c, s')
  }

  ghost predicate IsRun(run: seq<State>) {
    && |run| > 0
    && Init(run[0])
    && forall k :: 0 <= k < |run| - 1 ==> Next(run[k], run[k + 1])
  }

  predicate WonShutdown(c: Caller) { c == ShutReturned(true) }
  predicate WonStopping(c: Caller) { c == StopReturned(true) }

  /** A caller that lost `lost` exchanges has seen the tag rise that often. */
  predicate CallerOk(tag: Byte, c: Caller) {
    match c
    case Loading(lost) => lost <= tag
    case Exchanging(current, lost) => lost <= current <= tag && current < 2
    case StopReturned(_) => tag == 2
    case ShutReturned(_) => tag >= 1
    case _ => true
  }

  ghost predicate Inv(s: State) {
    && s.tag <= 2
    && (forall c :: c in s.callers ==> CallerOk(s.tag, s.callers[c]))
    && Count(s.callers, WonStopping) == (if s.tag == 2 then 1 else 0)
    && Count(s.callers, WonShutdown) <= (if s.tag == 0 then 0 else 1)
    && (s.tag == 1 ==> Count(s.callers, WonShutdown) == 1)
  }

  lemma StepKeeps(s: State, c: int, s': State)
    requires Inv(s) && Step(s, c, s')
    ensures Inv(s') && s.tag <= s'.tag
  {
    hide Count;
    CountUpdate(s.callers, c, s'.callers[c], WonShutdown);
    CountUpdate(s.callers, c, s'.callers[c], WonStopping);
  }

  lemma {:induction false} EveryState(run: seq<State>, k: nat)
    requires IsRun(run) && k < |run|
    ensures Inv(run[k])
  {
    if k == 0 {
      var callers := run[0].callers;
      assert forall c :: c in callers ==> !WonShutdown(callers[c]) && !WonStopping(callers[c]);
      CountZero(run[0].callers, WonShutdown);
      CountZero(run[0].callers, WonStopping);
    } else {
      EveryState(run, k - 1);
      assert Next(run[k - 1], run[k - 1 + 1]);
      var c :| Step(run[k - 1], c, run[k]);
      StepKeeps(run[k - 1], c, run[k]);
    }
  }

  /** The tag only rises: running, then shut down, then stopping. */
  lemma {:induction false} TagOnlyRises(run: seq<State>, j: nat, k: nat)
    requires IsRun(run) && j <= k < |run|
    ensures run[j].tag <= run[k].tag <= 2
    decreases k
  {
    EveryState(run, k);
    if j < k {
      TagOnlyRises(run, j, k - 1);
      EveryState(run, k - 1);
      assert Next(run[k - 1], run[k - 1 + 1]);
      var c :| Step(run[k - 1], c, run[k]);
      StepKeeps(run[k - 1], c, run[k]);
    }
  }

  /**
   * In every run at most one shutdown and at most one stopping call return true; one stopping call has won exactly when
   * the pool is stopping, and while it is merely shut down exactly one shutdown call has.
   */
  lemma EachTransitionOnce(run: seq<State>, k: nat)
    requires IsRun(run) && k < |run|
    ensures Count(run[k].callers, WonShutdown) <= 1
    ensures Count(run[k].callers, WonStopping) == Bit(Decode(run[k].tag) == Some(Stopping))
    ensures Decode(run[k].tag) == Some(Shutdown) ==> Count(run[k].callers, WonShutdown) == 1
    ensures Decode(run[k].tag) == Some(Running) ==> Count(run[k].callers, WonShutdown) == 0
  {
    EveryState(run, k);
  }

  /** No stopping call ever loses more than two exchanges, so its loop goes round at most three times. */
  lemma AtMostThreeRounds(run: seq<State>, k: nat, c: int)
    requires IsRun(run) && k < |run| && c in run[k].callers
    ensures run[k].callers[c].Loading? ==> run[k].callers[c].lost <= 2
    ensures run[k].callers[c].Exchanging? ==> run[k].callers[c].lost <= 1
  {
    EveryState(run, k);
    assert CallerOk(run[k].tag, run[k].callers[c]);
  }
}
