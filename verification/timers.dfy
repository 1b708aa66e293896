// A one-shot timer of the host clock (Phaser's `time.delayedCall`): an action
// registered to run `delayMs` milliseconds after the moment it was scheduled.
// Each component keeps its own explicit queue of these instead of a real clock.
module Timers {

  datatype Option<T> = None | Some(value: T)

  datatype Timer<A> = Timer(delayMs: nat, action: A)

  /** The delays of a queue never decrease, so the clock fires its head first. */
  ghost predicate InFiringOrder<A>(q: seq<Timer<A>>)
  {
    forall i, j :: 0 <= i < j < |q| ==> q[i].delayMs <= q[j].delayMs
  }
}
