// The one-shot completion cell shared by a task handle and its completion endpoints.
// Each function is one critical section of the cell's monitor.

module Completion {
  import opened Counting

  datatype Outcome = Value(v: int) | Failed(e: int) | Panicked | Cancelled

  // `published` records every outcome ever stored, so that "at most one" has to be proved.
  datatype Cell = Cell(started: bool, completed: bool, published: seq<Outcome>)

  const Fresh := Cell(false, false, [])

  /** `start`: whether the runner should execute the task, and the cell afterwards. */
  function Start(c: Cell): (bool, Cell) {
    if c.completed then (false, c) else (true, c.(started := true))
  }

  /** `finish`: publishes unless another path already completed the cell or this one may not. */
  function Finish(c: Cell, r: Outcome, may: bool): (bool, Cell) {
    if c.completed || !may then (false, c) else (true, c.(completed := true, published := c.published + [r]))
  }

  function Complete(c: Cell, r: Outcome): (bool, Cell) {
    Finish(c, r, true)
  }

  function Cancel(c: Cell): (bool, Cell) {
    Finish(c, Cancelled, !c.started)
  }

  /** A cell is completed exactly when one outcome has been published. */
  predicate Sound(c: Cell) {
    && (c.completed <==> |c.published| == 1)
    && (!c.completed ==> c.published == [])
  }

  /** A cell against the history of its callable, which was invoked so often and yielded `own`: one outcome at most, the
      callable's own if it ran, and a cancellation only if it was never invoked. */
  ghost predicate Honest(c: Cell, invoked: int, own: Option<Outcome>) {
    && Sound(c)
    && invoked == Bit(c.started)
    && (own.Some? ==> c.completed && c.started && own.value != Cancelled)
    && (c.completed ==> c.published == [if own.Some? then own.value else Cancelled])
    && (c.completed && c.started ==> own.Some?)
  }

  /** What the holder of a handle finds: one outcome, which is the callable's own unless the task was cancelled first.
      */
  ghost predicate Answered(c: Cell, invoked: int, own: Option<Outcome>) {
    && c.completed && |c.published| == 1
    && (c.published[0] == Cancelled ==> invoked == 0)
    && (c.published[0] != Cancelled ==> invoked == 1 && own == Some(c.published[0]))
  }
}
