/** Time. */
module Clocks {

  /** The monotonic clock: it may move on whenever it is read. */
  class Clock {
    var now: nat

    constructor () {
      now := 0;
    }

    method Monotonic() returns (t: nat)
      modifies this
      ensures t == now && old(now) <= now
    {
      var passed: nat :| 0 <= passed;
      now := now + passed;
      t := now;
    }
  }
}
