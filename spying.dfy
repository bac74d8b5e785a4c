/** The opposing side's spy, seen from the agent that consults it: a count of
    how often its position has been read and the position it reveals. How the
    spy itself works is not part of this model. */
module Spying {
  import opened Grid

  class Spy {
    /** What `get_spy_number_uses` reports. */
    var numberOfUses: nat
    /** The opponent's true position. */
    var position: Position

    constructor (position: Position)
      ensures this.position == position && numberOfUses == 0
    {
      this.position := position;
      numberOfUses := 0;
    }

    /** `get_spy_position`: reading the position counts as one more use. */
    method GetPosition() returns (p: Position)
      modifies this
      ensures p == position && position == old(position)
      ensures numberOfUses == old(numberOfUses) + 1
    {
      p := position;
      numberOfUses := numberOfUses + 1;
    }
  }
}
