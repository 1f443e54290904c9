/**
 * Swipe directions. The enum of src/2048/direction.ts is not part of this
 * model: the numbering below (Up, Down, Left, Right as 0..3) is an assumption,
 * and no property proved here depends on which name carries which number.
 */
module Directions {
  import opened Wrappers

  datatype Direction = Up | Down | Left | Right

  /** A numeric direction code as the callers pass it; anything else is no direction. */
  function DirectionOf(code: int): (r: Option<Direction>)
    ensures r.Some? <==> 0 <= code < 4
  {
    if code == 0 then Some(Up)
    else if code == 1 then Some(Down)
    else if code == 2 then Some(Left)
    else if code == 3 then Some(Right)
    else None
  }
}
