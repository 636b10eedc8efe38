/**
 * The class-level id counters of the Python source (`Node.id`, `Edge.id`,
 * `Establishment.id`, `Region.id`): each class attribute starts at 0, and
 * every constructor takes its current value and bumps it. Here each counter
 * is an object handed to the constructors that read and bump it.
 */
module Ids {

  class IdCounter {
    /** The id the next constructed object receives. */
    var next: int

    constructor ()
      ensures next == 0
    {
      next := 0;
    }
  }
}
