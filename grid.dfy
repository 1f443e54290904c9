/**
 * src/2048/grid.ts: a flat occupancy grid. Slot `pos` is row `pos / 4`,
 * column `pos % 4`; a 16-slot `Uint16Array` holds 1 for an occupied slot and
 * 0 for an empty one, and a 16-slot array holds the values. Reading a typed
 * array outside its bounds gives `undefined`, which is never `=== 0`, and
 * writing outside them does nothing; `%` truncates toward zero.
 */
module FlatGrid {
  import opened Wrappers
  import opened Directions

  datatype Result<+T> = Ok(value: T) | Err(message: string)

  /** JavaScript's `a % 4`: the remainder takes the sign of a. */
  function JsRem4(a: int): (r: int)
    ensures -4 < r < 4 && (a - r) % 4 == 0
    ensures a >= 0 ==> r >= 0
    ensures a <= 0 ==> r <= 0
  {
    if a >= 0 then a % 4 else -((-a) % 4)
  }

  class Grid {
    var grid: array<int>
    var vals: array<Option<int>>

    ghost predicate Valid()
      reads this, grid
    {
      grid.Length == 16 && vals.Length == 16 && forall k :: 0 <= k < 16 ==> grid[k] == 0 || grid[k] == 1
    }

    /** A new Grid: all 16 slots empty, no values. */
    constructor ()
      ensures Valid() && fresh(grid) && fresh(vals)
      ensures forall k :: 0 <= k < 16 ==> grid[k] == 0 && vals[k] == None
    {
      grid := new int[16](k => 0);
      vals := new Option<int>[16](k => None);
    }

    /** The typed-array read `this.grid[pos]`: `undefined` (None) out of bounds. */
    function At(pos: int): (r: Option<int>)
      reads this, grid
      ensures r.Some? <==> 0 <= pos < grid.Length
    {
      if 0 <= pos < grid.Length then Some(grid[pos]) else None
    }

    /** Slot pos exists and is empty (`this.grid[pos] === 0`). */
    predicate EmptyAt(pos: int)
      reads this, grid
    {
      At(pos) == Some(0)
    }

    /**
     * `addTile`: an empty slot gets the value and is marked occupied, and the
     * result is true; an occupied or nonexistent slot changes nothing, and the
     * result is false.
     */
    method AddTile(pos: int, val: int) returns (added: bool)
      requires Valid()
      modifies grid, vals
      ensures Valid()
      ensures added <==> old(EmptyAt(pos))
      ensures added ==> grid[..] == old(grid[..])[pos := 1] && vals[..] == old(vals[..])[pos := Some(val)]
      ensures !added ==> grid[..] == old(grid[..]) && vals[..] == old(vals[..])
    {
      if EmptyAt(pos) {
        vals[pos] := Some(val);
        grid[pos] := 1;
        return true;
      }
      return false;
    }

    /** `removeTile`: the slot is marked empty; the stored value stays. */
    method RemoveTile(pos: int)
      requires Valid()
      modifies grid
      ensures Valid()
      ensures 0 <= pos < 16 ==> grid[..] == old(grid[..])[pos := 0]
      ensures !(0 <= pos < 16) ==> grid[..] == old(grid[..])
    {
      if 0 <= pos < grid.Length {
        grid[pos] := 0;
      }
    }

    /**
     * `isNeighborOpen`: false at the edge the direction points to, otherwise
     * whether the neighbouring slot is empty; an unknown direction throws.
     */
    function IsNeighborOpen(pos: int, code: int): (r: Result<bool>)
      reads this, grid
      ensures r.Err? <==> DirectionOf(code).None?
    {
      match DirectionOf(code)
      case Some(Up) => if pos <= 3 then Ok(false) else Ok(EmptyAt(pos - 4))
      case Some(Down) => if pos >= 12 then Ok(false) else Ok(EmptyAt(pos + 4))
      case Some(Left) => if JsRem4(pos) == 0 then Ok(false) else Ok(EmptyAt(pos - 1))
      case Some(Right) => if JsRem4(pos - 3) == 0 then Ok(false) else Ok(EmptyAt(pos + 1))
      case None => Err("Invalid direction")
    }
  }

  /** The slot one step from pos in direction d, when pos is on the board and not at that edge. */
  function FlatNeighbor(pos: int, d: Direction): (r: Option<int>)
    requires 0 <= pos < 16
    ensures r.Some? ==> 0 <= r.value < 16
  {
    match d
    case Up => if pos <= 3 then None else Some(pos - 4)
    case Down => if pos >= 12 then None else Some(pos + 4)
    case Left => if pos % 4 == 0 then None else Some(pos - 1)
    case Right => if pos % 4 == 3 then None else Some(pos + 1)
  }

  /**
   * On a board slot, `isNeighborOpen` is false exactly at the edge (Up when
   * pos <= 3, Down when pos >= 12, Left when pos % 4 = 0, Right when pos % 4 = 3)
   * and otherwise tells whether the neighbouring slot is empty.
   */
  lemma NeighborOpenOnBoard(g: Grid, pos: int, code: int)
    requires g.Valid() && 0 <= pos < 16 && 0 <= code < 4
    ensures var d := DirectionOf(code).value;
      g.IsNeighborOpen(pos, code) == Ok(FlatNeighbor(pos, d).Some? && g.grid[FlatNeighbor(pos, d).value] == 0)
  {
    var d := DirectionOf(code).value;
    if d == Right {
      assert JsRem4(pos - 3) == 0 <==> pos % 4 == 3 by {
        if pos < 3 {
          assert JsRem4(pos - 3) == -((3 - pos) % 4);
        }
      }
    }
  }

  /** Above the top row nothing is open; the same for the other three edges. */
  lemma NeighborClosedAtEdges(g: Grid, pos: int)
    requires g.Valid() && 0 <= pos < 16
    ensures pos <= 3 ==> g.IsNeighborOpen(pos, 0) == Ok(false)
    ensures pos >= 12 ==> g.IsNeighborOpen(pos, 1) == Ok(false)
    ensures pos % 4 == 0 ==> g.IsNeighborOpen(pos, 2) == Ok(false)
    ensures pos % 4 == 3 ==> g.IsNeighborOpen(pos, 3) == Ok(false)
  {
    NeighborOpenOnBoard(g, pos, 0);
    NeighborOpenOnBoard(g, pos, 1);
    NeighborOpenOnBoard(g, pos, 2);
    NeighborOpenOnBoard(g, pos, 3);
  }
}
