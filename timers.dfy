/**
 * The browser's table of repeating timers, as seen through `window.setInterval`
 * and `clearInterval`. A handle is a positive integer; a timer is live from the
 * `setInterval` that returned its handle until the `clearInterval` of that handle.
 * Wall-clock scheduling is not modelled: a timer firing is an explicit call.
 */
module Timers {

  type TimerId = nat

  class IntervalTable {
    /** Handles of the timers that are currently scheduled. */
    var live: set<TimerId>
    /** The handle the next `setInterval` returns. */
    var nextId: TimerId

    ghost predicate Valid()
      reads this
    {
      0 < nextId && forall h :: h in live ==> 0 < h < nextId
    }

    constructor ()
      ensures Valid() && live == {}
    {
      live := {};
      nextId := 1;
    }

    /** `window.setInterval(callback, delay)`: schedules a new timer and returns its handle. */
    method SetInterval() returns (h: TimerId)
      requires Valid()
      modifies this
      ensures Valid()
      ensures 0 < h && h !in old(live)
      ensures old(nextId) <= h < nextId
      ensures live == old(live) + {h}
    {
      h := nextId;
      live := live + {h};
      nextId := nextId + 1;
    }

    /** `clearInterval(h)`: cancels the timer `h`; a handle that is not live is ignored. */
    method ClearInterval(h: TimerId)
      requires Valid()
      modifies this
      ensures Valid()
      ensures live == old(live) - {h}
      ensures nextId == old(nextId)
    {
      live := live - {h};
    }
  }
}
