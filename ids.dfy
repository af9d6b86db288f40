/**
 * The three id generators (`createBadgeId`, `createLogId`, `createId`) each bump a
 * module-level counter and render `${prefix}-${Date.now()}-${counter}`. The clock part
 * is left out: an id is its prefix and the counter value it was issued with.
 */
module Ids {

  datatype GeneratedId = GeneratedId(prefix: string, serial: nat)

  /** A module-level counter, made an explicit object owned by its caller. */
  class Counter {
    var count: nat

    /** `let counter = 0` */
    constructor ()
      ensures count == 0
    {
      count := 0;
    }

    /** Increments the counter by one and issues an id carrying the new value. */
    method Next(prefix: string) returns (id: GeneratedId)
      modifies this
      ensures count == old(count) + 1
      ensures id == GeneratedId(prefix, count)
    {
      count := count + 1;
      id := GeneratedId(prefix, count);
    }
  }
}
