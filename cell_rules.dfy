/**
 * ASSUMED CELL RULE. The shown src/2048/block.ts does not contain the methods
 * the engine calls on a Block (`canMove`, `getNeighbor`, `moveTo`,
 * `resetCombineFlag`) nor the `canCombine` field; the rule below is the one of
 * the standard game, and every engine property in this model is proved against it:
 *  - a block slides into an open neighbour;
 *  - a block merges into an occupied neighbour of equal value when both may
 *    still combine; the merged cell holds twice the value and may not combine
 *    again in this sweep, and the merge adds the new value to the score;
 *  - the vacated cell becomes open and holds no value;
 *  - `moveTo` returns the neighbour's new value.
 * The board is the grid flattened: slot `Index(i, j) = 4 * i + j` holds
 * grid[i][j], with i the column and j the row.
 */
module CellRules {
  import opened Wrappers
  import opened Cells
  import opened Directions

  /** The slot of grid[i][j]. */
  function Index(i: int, j: int): int {
    4 * i + j
  }

  /** Every slot of a 16-cell board is a well-formed cell. */
  predicate WellFormed(b: seq<Cell>) {
    |b| == 16 && forall k :: 0 <= k < 16 ==> WellFormedCell(b[k])
  }

  /** The number of steps from slot k to the edge that direction d slides toward. */
  function Distance(k: int, d: Direction): nat
    requires 0 <= k < 16
  {
    match d
    case Up => k % 4
    case Down => 3 - k % 4
    case Left => k / 4
    case Right => 3 - k / 4
  }

  /** `getNeighbor`: Up decreases the row, Down increases it, Left and Right change the column. */
  function Neighbor(k: int, d: Direction): (r: Option<int>)
    requires 0 <= k < 16
    ensures r.None? <==> Distance(k, d) == 0
    ensures r.Some? ==> 0 <= r.value < 16 && r.value != k && Distance(r.value, d) == Distance(k, d) - 1
  {
    match d
    case Up => if k % 4 == 0 then None else Some(k - 1)
    case Down => if k % 4 == 3 then None else Some(k + 1)
    case Left => if k < 4 then None else Some(k - 4)
    case Right => if k >= 12 then None else Some(k + 4)
  }

  /** `canMove`: an occupied block with a neighbour that is open, or equal and still combinable. */
  predicate CanMove(b: seq<Cell>, k: int, d: Direction)
    requires |b| == 16 && 0 <= k < 16
    ensures CanMove(b, k, d) ==> !b[k].open && Distance(k, d) > 0
    ensures Distance(k, d) > 0 && !b[k].open && b[Neighbor(k, d).value].open ==> CanMove(b, k, d)
  {
    && !b[k].open
    && Neighbor(k, d).Some?
    && var n := Neighbor(k, d).value;
       (b[n].open || (Value(b[n]) == Value(b[k]) && b[k].canCombine && b[n].canCombine))
  }

  /** The value `moveTo` leaves in the neighbour and returns. */
  function MoveResult(b: seq<Cell>, k: int, n: int): (v: int)
    requires WellFormed(b) && 0 <= k < 16 && 0 <= n < 16 && !b[k].open
  {
    if b[n].open then b[k].val.value else 2 * b[k].val.value
  }

  /** What `moveTo` adds to the score: the merged value, or nothing for a slide. */
  function MoveGain(b: seq<Cell>, k: int, n: int): (g: int)
    requires WellFormed(b) && 0 <= k < 16 && 0 <= n < 16 && !b[k].open
  {
    if b[n].open then 0 else MoveResult(b, k, n)
  }

  /** The board after `moveTo` from slot k into its neighbour n. */
  function MoveBoard(b: seq<Cell>, k: int, n: int): (r: seq<Cell>)
    requires WellFormed(b) && 0 <= k < 16 && 0 <= n < 16 && k != n && !b[k].open
    ensures |r| == 16
    ensures r[k] == Cell(true, None, b[k].canCombine)
    ensures r[n].open == false && r[n].val == Some(MoveResult(b, k, n))
    ensures forall m :: 0 <= m < 16 && m != k && m != n ==> r[m] == b[m]
  {
    var merged := !b[n].open;
    b[n := Cell(false, Some(MoveResult(b, k, n)), if merged then false else b[n].canCombine)]
     [k := Cell(true, None, b[k].canCombine)]
  }
}
