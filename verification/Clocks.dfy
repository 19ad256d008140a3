/** The monotonic clock and the sleep the control loops are given, in clock ticks. */
module Clocks {

  class Clock {
    var now: int

    constructor (start: int)
      ensures now == start
    {
      now := start;
    }

    /** Reading takes any amount of time. */
    method Read() returns (t: int)
      modifies this
      ensures t == now && old(now) <= now
    {
      var passed: int := *;
      now := if passed > 0 then now + passed else now;
      t := now;
    }

    method Sleep(ticks: nat)
      modifies this
      ensures old(now) + ticks <= now
    {
      var passed: int := *;
      now := now + if passed > ticks then passed else ticks;
    }
  }
}
