/**
 * src/2048/position.ts: a coordinate pair whose missing coordinates are drawn
 * at random as `Math.floor(Math.random() * 4)`. The random draw is a parameter
 * (a real in [0, 1)); floating point rounding is not modelled.
 */
module Positions {
  import opened Wrappers

  datatype Position = Position(x: int, y: int)

  /** `Math.floor(r * 4)` for a draw `r` of `Math.random()`. */
  function RandomCoordinate(r: real): (c: int)
    requires 0.0 <= r < 1.0
    ensures 0 <= c < 4
  {
    (r * 4.0).Floor
  }

  /**
   * The constructor: a supplied coordinate (the test is `!= null`, so 0 is
   * kept) is stored as it is, a missing one is drawn from its own random value.
   */
  function NewPosition(x: Option<int>, y: Option<int>, rx: real, ry: real): (p: Position)
    requires 0.0 <= rx < 1.0 && 0.0 <= ry < 1.0
    ensures x.Some? ==> p.x == x.value
    ensures y.Some? ==> p.y == y.value
    ensures x.None? ==> 0 <= p.x < 4
    ensures y.None? ==> 0 <= p.y < 4
  {
    Position(if x.Some? then x.value else RandomCoordinate(rx),
             if y.Some? then y.value else RandomCoordinate(ry))
  }

  /** The two coordinates default independently: supplying only x leaves x fixed whatever the draws. */
  lemma SuppliedXIgnoresDraws(x: int, rx: real, ry: real, rx': real, ry': real)
    requires 0.0 <= rx < 1.0 && 0.0 <= ry < 1.0 && 0.0 <= rx' < 1.0 && 0.0 <= ry' < 1.0
    ensures NewPosition(Some(x), None, rx, ry).x == NewPosition(Some(x), None, rx', ry').x == x
    ensures NewPosition(Some(x), None, rx, ry).y == NewPosition(None, None, rx', ry).y
  {
  }

  /** A position addresses a cell of the 4 x 4 board. */
  predicate OnBoard(p: Position) {
    0 <= p.x < 4 && 0 <= p.y < 4
  }

  /** A position with both coordinates drawn at random is always on the board. */
  lemma RandomPositionOnBoard(rx: real, ry: real)
    requires 0.0 <= rx < 1.0 && 0.0 <= ry < 1.0
    ensures OnBoard(NewPosition(None, None, rx, ry))
  {
  }
}
