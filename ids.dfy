/** The `private static int nextId = 1` counter that BloodUnit, Donor and
    Recipient each keep, with its `setNextId` and its `nextId++`. A program
    holds one IdCounter per entity kind. */
module Ids {
  import opened JavaTypes

  class IdCounter {
    var next: Int32

    /** The static initialiser `nextId = 1`. */
    constructor ()
      ensures next == 1
    {
      next := 1;
    }

    /** `setNextId(id)`: overwrites the counter, with no check. */
    method SetNextId(id: Int32)
      modifies this
      ensures next == id
    {
      next := id;
    }

    /** `nextId++`: yields the current value and advances the counter by one. */
    method Take() returns (id: Int32)
      modifies this
      ensures id == old(next)
      ensures next == Succ(old(next))
    {
      id := next;
      next := Succ(next);
    }
  }
}
