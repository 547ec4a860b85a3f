// The task handle's shared state as an object; each method is one critical section of its monitor.

module TaskHandles {
  import opened Counting
  import opened Completion

  type Waker = int

  datatype PollResult = Pending | Ready(outcome: Outcome) | Panic

  class TaskHandleInner {
    var result: Option<Outcome>
    var started: bool
    var completed: bool
    var waker: Option<Waker>
    var done: bool
    ghost var published: seq<Outcome>

    /** The completion cell this object implements. */
    ghost function View(): Cell
      reads this
    {
      Cell(started, completed, published)
    }

    ghost predicate Valid()
      reads this
    {
      && Sound(View()) && done == completed
      && (completed ==> waker == None)
      && (result.Some? ==> published == [result.value])
    }

    constructor ()
      ensures Valid() && View() == Fresh && result == None && waker == None
    {
      result, started, completed, waker, done, published := None, false, false, None, false, [];
    }

    method Start() returns (won: bool)
      requires Valid()
      modifies this
      ensures Valid() && (won, View()) == Completion.Start(old(View()))
      ensures won == !old(completed) && started == (old(started) || won) && completed == old(completed)
      ensures result == old(result) && waker == old(waker)
    {
      if completed {
        return false;
      }
      started := true;
      return true;
    }

    /** The critical section of `finish`: publishes once, and hands the last waker to whoever published. */
    method Finish(r: Outcome, unstartedOnly: bool) returns (won: bool, wake: Option<Waker>)
      requires Valid()
      modifies this
      ensures Valid() && (won, View()) == Completion.Finish(old(View()), r, !unstartedOnly || !old(started))
      ensures won == (!old(completed) && (unstartedOnly ==> !old(started))) && started == old(started)
      ensures won ==> result == Some(r) && wake == old(waker) && done && published == [r]
      ensures !won ==> result == old(result) && wake == None && waker == old(waker)
    {
      if completed || (unstartedOnly && started) {
        return false, None;
      }
      result := Some(r);
      published := published + [r];
      completed := true;
      done := true;
      wake := waker;
      waker := None;
      return true, wake;
    }

    method Complete(r: Outcome) returns (wake: Option<Waker>)
      requires Valid()
      modifies this
      ensures Valid() && View() == Completion.Complete(old(View()), r).1
      ensures wake == if old(completed) then None else old(waker)
    {
      var won;
      won, wake := Finish(r, false);
    }

    method Cancel() returns (won: bool, wake: Option<Waker>)
      requires Valid()
      modifies this
      ensures Valid() && (won, View()) == Completion.Cancel(old(View()))
      ensures won == (!old(completed) && !old(started)) && started == old(started)
      ensures won ==> published == [Cancelled] && done
      ensures wake == if won then old(waker) else None
    {
      won, wake := Finish(Cancelled, true);
    }

    /** Hands the published outcome out once; a second retrieval panics. */
    method Take() returns (r: PollResult)
      requires Valid() && completed
      modifies this
      ensures Valid() && View() == old(View()) && result == None && waker == None
      ensures r == if old(result).Some? then Ready(published[0]) else Panic
    {
      r := if result.Some? then Ready(result.value) else Panic;
      result := None;
    }

    method Poll(w: Waker) returns (r: PollResult)
      requires Valid()
      modifies this
      ensures Valid() && View() == old(View())
      ensures r == Pending <==> !completed
      ensures r == Pending ==> waker == Some(w) && result == old(result)
      ensures r.Ready? ==> published == [r.outcome] && result == None && waker == None
      ensures r == Panic ==> old(result) == None
    {
      if completed {
        r := Take();
      } else {
        waker := Some(w);
        r := Pending;
      }
    }
  }
}
