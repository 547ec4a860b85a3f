// Guarded suspension on a monitor. Other threads, notifications and spurious wake-ups appear as an environment that
// says which state a waiter finds each time it holds the lock, and how much time has passed by then.

module Monitors {

  // `found(k)` is the state at the `k`-th check, and `elapsed(k)` the time read there if the waiter asks for it.
  datatype Environment<!T> = Environment(found: nat -> T, elapsed: nat -> nat)

  datatype WaitTimeoutResult<+R> = Ready(value: R) | TimedOut

  /** From round `n` on no wait returns early: each lasts for the rest of the time limit. */
  ghost predicate NoEarlyWakeFrom<T>(env: Environment<T>, timeout: nat, n: nat) {
    forall k: nat :: k >= n && env.elapsed(k) < timeout ==> env.elapsed(k + 1) >= timeout
  }

  /** Round `k` is still worth waiting after: the predicate blocks and some time is left. */
  predicate Blocked<T>(env: Environment<T>, timeout: nat, waiting: T -> bool, k: nat) {
    waiting(env.found(k)) && env.elapsed(k) < timeout
  }

  /** Round `k` is the first that decides. */
  ghost predicate Decides<T>(env: Environment<T>, timeout: nat, waiting: T -> bool, k: nat) {
    !Blocked(env, timeout, waiting, k) && forall j: nat :: j < k ==> Blocked(env, timeout, waiting, j)
  }

  /** The waiter is done by round `n + 1`: an earlier round decides, or from round `n` on no wait returns early. */
  ghost predicate EndsBy<T>(env: Environment<T>, timeout: nat, waiting: T -> bool, n: nat) {
    || (exists k: nat :: k <= n && !Blocked(env, timeout, waiting, k))
    || NoEarlyWakeFrom(env, timeout, n)
  }

  class Monitor<!T> {
    var state: T

    constructor (initial: T)
      ensures state == initial
    {
      state := initial;
    }

    /**
     * Applies `f` once, to the very state in which the predicate was found satisfied, or gives up without touching the
     * state, only if the predicate blocks at the last check and the time is up. No wait asks for more than is left. If
     * some round up to `n` decides, or all wake-ups after it are late, the loop ends after at most `n + 1` waits.
     */
    method WaitTimeoutWhile<R>(timeout: nat, waiting: T -> bool, f: T -> (T, R), env: Environment<T>, ghost n: nat)
      returns (r: WaitTimeoutResult<R>, waits: seq<nat>)
      requires EndsBy(env, timeout, waiting, n)
      modifies this
      ensures |waits| <= n + 1 && Decides(env, timeout, waiting, |waits|)
      ensures forall j :: 0 <= j < |waits| ==> 0 < waits[j] == timeout - env.elapsed(j)
      ensures r.Ready? ==> !waiting(env.found(|waits|)) && (state, r.value) == f(env.found(|waits|))
      ensures r.TimedOut? ==>
          waiting(env.found(|waits|)) && env.elapsed(|waits|) >= timeout && state == env.found(|waits|)
    {
      waits := [];
      state := env.found(0);
      while true
        invariant state == env.found(|waits|)
        invariant forall j: nat :: j < |waits| ==> Blocked(env, timeout, waiting, j)
        invariant forall j :: 0 <= j < |waits| ==> 0 < waits[j] == timeout - env.elapsed(j)
        invariant |waits| <= n || env.elapsed(|waits|) >= timeout
        invariant |waits| <= n + 1
        decreases n + 1 - |waits|
      {
        if !waiting(state) {
          var (after, value) := f(state);
          state := after;
          return Ready(value), waits;
        }
        var elapsed := env.elapsed(|waits|);
        var remaining := if elapsed <= timeout then timeout - elapsed else 0;
        if remaining == 0 {
          return TimedOut, waits;
        }
        waits := waits + [remaining];
        state := env.found(|waits|);
      }
    }

    method WaitTimeoutUntil<R>(timeout: nat, ready: T -> bool, f: T -> (T, R), env: Environment<T>, ghost n: nat)
      returns (r: WaitTimeoutResult<R>, waits: seq<nat>)
      requires EndsBy(env, timeout, s => !ready(s), n)
      modifies this
      ensures |waits| <= n + 1
      ensures forall j :: 0 <= j < |waits| ==> !ready(env.found(j)) && 0 < waits[j] == timeout - env.elapsed(j)
      ensures r.Ready? ==> ready(env.found(|waits|)) && (state, r.value) == f(env.found(|waits|))
      ensures r.TimedOut? ==>
          !ready(env.found(|waits|)) && env.elapsed(|waits|) >= timeout && state == env.found(|waits|)
    {
      var blocking := s => !ready(s);
      r, waits := WaitTimeoutWhile(timeout, blocking, f, env, n);
      forall j: nat | j < |waits|
        ensures !ready(env.found(j))
      {
        assert Blocked(env, timeout, blocking, j);
      }
    }

    /** Waits for as long as the predicate blocks, then applies `f` in the same critical section; round `n` is
        unblocked. */
    method WaitWhile<R>(waiting: T -> bool, f: T -> (T, R), env: Environment<T>, ghost n: nat)
      returns (r: R, ghost waits: nat)
      requires !waiting(env.found(n))
      modifies this
      ensures waits <= n && !waiting(env.found(waits)) && forall j: nat :: j < waits ==> waiting(env.found(j))
      ensures (state, r) == f(env.found(waits))
    {
      var round: nat := 0;
      state := env.found(0);
      while waiting(state)
        invariant round <= n && state == env.found(round)
        invariant forall j: nat :: j < round ==> waiting(env.found(j))
        decreases n - round
      {
        round := round + 1;
        state := env.found(round);
      }
      var (after, value) := f(state);
      state := after;
      return value, round;
    }

    method WaitUntil<R>(ready: T -> bool, f: T -> (T, R), env: Environment<T>, ghost n: nat)
      returns (r: R, ghost waits: nat)
      requires ready(env.found(n))
      modifies this
      ensures waits <= n && ready(env.found(waits)) && forall j: nat :: j < waits ==> !ready(env.found(j))
      ensures (state, r) == f(env.found(waits))
    {
      var blocking := s => !ready(s);
      r, waits := WaitWhile(blocking, f, env, n);
      assert forall j: nat :: j < waits ==> blocking(env.found(j));
    }
  }

  /** No check before the `j`-th would find the time used up. */
  ghost predicate InTime<T>(env: Environment<T>, timeout: nat, j: nat) {
    forall i: nat :: i < j ==> env.elapsed(i) < timeout
  }

  /**
   * When a timed wait succeeds, for every environment: some check finds the predicate satisfied and no check before
   * it finds the time used up. In particular a predicate satisfied only after the limit still succeeds if it is seen
   * first.
   */
  lemma SucceedsExactlyWhen<T>(env: Environment<T>, timeout: nat, waiting: T -> bool, k: nat)
    requires Decides(env, timeout, waiting, k)
    ensures !waiting(env.found(k)) <==> exists j: nat :: !waiting(env.found(j)) && InTime(env, timeout, j)
  {
    assert InTime(env, timeout, k) by {
      forall i: nat | i < k
        ensures env.elapsed(i) < timeout
      {
        assert Blocked(env, timeout, waiting, i);
      }
    }
    assert forall j: nat :: !waiting(env.found(j)) ==> !Blocked(env, timeout, waiting, j);
    if j: nat :| !waiting(env.found(j)) && InTime(env, timeout, j) && waiting(env.found(k)) {
      assert false;
    }
  }

  /** Check `j` is the first that finds the predicate satisfied. */
  ghost predicate FirstSatisfied<T>(env: Environment<T>, waiting: T -> bool, j: nat) {
    !waiting(env.found(j)) && forall i: nat :: i < j ==> waiting(env.found(i))
  }

  /** A timed wait succeeds after its limit exactly when the first satisfied check comes after the limit and no check
      before it did: the waiter is not told that the time is up as long as it sleeps. */
  lemma SucceedsLateExactlyWhen<T>(env: Environment<T>, timeout: nat, waiting: T -> bool, k: nat)
    requires Decides(env, timeout, waiting, k)
    ensures !waiting(env.found(k)) && env.elapsed(k) >= timeout <==>
      exists j: nat :: FirstSatisfied(env, waiting, j) && env.elapsed(j) >= timeout && InTime(env, timeout, j)
  {
    forall i: nat | i < k
      ensures waiting(env.found(i)) && env.elapsed(i) < timeout
    {
      assert Blocked(env, timeout, waiting, i);
    }
    assert InTime(env, timeout, k);
    if !waiting(env.found(k)) {
      assert FirstSatisfied(env, waiting, k);
    }
    assert forall j: nat :: FirstSatisfied(env, waiting, j) ==> k <= j;
  }

  /** It happens: a wait with a limit of 10 finds its state changed at time 20, and succeeds. */
  method LateSuccess() returns (m: Monitor<int>, r: WaitTimeoutResult<int>, waits: seq<nat>, late: nat)
    ensures fresh(m) && r == Ready(1) && m.state == 2 && waits == [10] && late == 20
  {
    var env := Environment((k: nat) => if k == 0 then 0 else 1, (k: nat) => 20 * k);
    var zero := (x: int) => x == 0;
    m := new Monitor<int>(0);
    assert !Blocked(env, 10, zero, 1);
    assert Blocked(env, 10, zero, 0);
    r, waits := m.WaitTimeoutWhile(10, zero, x => (x + 1, x), env, 1);
    late := env.elapsed(|waits|);
  }
}
