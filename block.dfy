/**
 * src/2048/block.ts: one cell of the board. The `value` getter reads as null
 * while the cell is open. `canCombine` is not declared in the shown class but
 * the engine reads and copies it; it is the "may still merge this sweep" flag.
 */
module Cells {
  import opened Wrappers

  /** The state of one Block, as the engine stores it in its grid slot. */
  datatype Cell = Cell(open: bool, val: Option<int>, canCombine: bool)

  /** The `value` getter: null while the cell is open, the stored value otherwise. */
  function Value(c: Cell): (r: Option<int>)
    ensures c.open ==> r == None
    ensures !c.open ==> r == c.val
  {
    if c.open then None else c.val
  }

  /** A freshly constructed Block: open, no value, free to combine. */
  const EmptyCell := Cell(true, None, true)

  /** A tile value of the game: 2, 4, 8, ... */
  predicate IsTileValue(v: int)
    decreases if v < 0 then 0 else v
  {
    v == 2 || (v > 2 && v % 2 == 0 && IsTileValue(v / 2))
  }

  lemma {:induction false} TileValueDoubles(v: int)
    requires IsTileValue(v)
    ensures IsTileValue(2 * v) && 2 * v > v >= 2
  {
    assert (2 * v) / 2 == v;
    if v > 2 { TileValueDoubles(v / 2); }
  }

  /** A well-formed cell: open exactly when it holds no value, and a held value is a tile value. */
  predicate WellFormedCell(c: Cell) {
    (c.open <==> c.val.None?) && (c.val.Some? ==> IsTileValue(c.val.value))
  }

  /** The numeric contribution of a cell: its value, or 0 when open. */
  function Num(c: Cell): (n: int)
    ensures WellFormedCell(c) ==> n >= 0
    ensures WellFormedCell(c) && !c.open ==> n >= 2
  {
    match Value(c)
    case Some(v) => v
    case None => 0
  }

  /** The Block class itself, with the fields the shown source declares. */
  class Block {
    var open: bool
    var val: Option<int>

    /** A new Block is open and holds no value. */
    constructor ()
      ensures open && val == None
    {
      open := true;
      val := None;
    }

    /** The `value` getter. */
    function GetValue(): (r: Option<int>)
      reads this
      ensures r == None <==> (open || val == None)
      ensures !open ==> r == val
    {
      Value(Cell(open, val, true))
    }

    /** The `value` setter: stores x and leaves `open` as it was. */
    method SetValue(x: Option<int>)
      modifies this
      ensures val == x && open == old(open)
      ensures !open ==> GetValue() == x
    {
      val := x;
    }
  }
}
