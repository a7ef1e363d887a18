/** The part of Go's sync.WaitGroup the start loops touch: its counter. */
module Sync {
  class WaitGroup {
    var counter: int

    constructor ()
      ensures counter == 0
    {
      counter := 0;
    }

    /** wg.Add(delta) */
    method Add(delta: int)
      modifies this
      ensures counter == old(counter) + delta
    {
      counter := counter + delta;
    }
  }
}
