/**
 * src/2048/game2048.ts: the earliest engine, only an initialiser. Its
 * position-picking loop compares two Position objects with `!=`, which is
 * object identity, so it stops on its first pass and both seeds may land on
 * the same cell.
 */
module EarlyGame {
  import opened Wrappers
  import opened Cells
  import opened Positions
  import opened CellRules
  import opened EngineSpec

  /** The cell at position p closed and given value 2, as `setInitBlocks` does. */
  function Seed(b: seq<Cell>, p: Position): (r: seq<Cell>)
    requires |b| == 16 && OnBoard(p)
    ensures |r| == 16
  {
    var k := Index(p.x, p.y);
    b[k := b[k].(open := false, val := Some(2))]
  }

  /** The board `setInitBlocks` leaves after seeding p1 and then p2. */
  function Seeded(b: seq<Cell>, p1: Position, p2: Position): seq<Cell>
    requires |b| == 16 && OnBoard(p1) && OnBoard(p2)
  {
    Seed(Seed(b, p1), p2)
  }

  lemma IndexInjective(p: Position, q: Position)
    requires OnBoard(p) && OnBoard(q) && p != q
    ensures Index(p.x, p.y) != Index(q.x, q.y)
  {
  }

  /**
   * From a fresh grid, seeding p1 and p2 leaves one occupied cell when the two
   * draws coincide and two otherwise, each holding 2.
   */
  lemma SeededCount(p1: Position, p2: Position)
    requires OnBoard(p1) && OnBoard(p2)
    ensures OccupiedCount(Seeded(EmptyBoard, p1, p2)) == if p1 == p2 then 1 else 2
    ensures TileSum(Seeded(EmptyBoard, p1, p2)) == if p1 == p2 then 2 else 4
  {
    EmptyBoardFacts();
    var k1, k2 := Index(p1.x, p1.y), Index(p2.x, p2.y);
    var b1 := Seed(EmptyBoard, p1);
    SumUpdate(EmptyBoard, k1, b1[k1], Occupancy);
    SumUpdate(EmptyBoard, k1, b1[k1], Num);
    SumUpdate(b1, k2, Seeded(EmptyBoard, p1, p2)[k2], Occupancy);
    SumUpdate(b1, k2, Seeded(EmptyBoard, p1, p2)[k2], Num);
    if p1 != p2 {
      IndexInjective(p1, p2);
    }
  }

  /** The input the loop lets through: the same cell drawn twice seeds a single cell. */
  lemma SameDrawSeedsOneCell()
    ensures OccupiedCount(Seeded(EmptyBoard, Position(1, 2), Position(1, 2))) == 1
  {
    SeededCount(Position(1, 2), Position(1, 2));
  }

  class Game2048 {
    var grid: array<Cell>

    /**
     * The constructor: `createGrid` (4 columns of 4 slots, here 16 slots),
     * `fillGrid`, then `setInitBlocks`.
     */
    constructor (draws: seq<real>)
      requires |draws| == 4 && forall i :: 0 <= i < 4 ==> 0.0 <= draws[i] < 1.0
      ensures fresh(grid) && grid.Length == 16
      ensures OnBoard(NewPosition(None, None, draws[0], draws[1])) && OnBoard(NewPosition(None, None, draws[2], draws[3]))
      ensures grid[..] == Seeded(EmptyBoard, NewPosition(None, None, draws[0], draws[1]), NewPosition(None, None, draws[2], draws[3]))
    {
      var g := new Cell[16];
      grid := g;
      new;
      FillGrid();
      SetInitBlocks(draws);
    }

    /** `fillGrid`: a new, open Block at every (i, j). */
    method FillGrid()
      requires grid.Length == 16
      modifies grid
      ensures grid[..] == EmptyBoard
    {
      for i := 0 to 4
        invariant forall k :: 0 <= k < 4 * i ==> grid[k] == EmptyCell
      {
        for j := 0 to 4
          invariant forall k :: 0 <= k < 4 * i + j ==> grid[k] == EmptyCell
        {
          grid[Index(i, j)] := EmptyCell;
        }
      }
    }

    /**
     * `setInitBlocks` as written: p1 and p2 are two random positions (the
     * loop keeps the first p2, since two distinct objects always differ), and
     * both cells are closed with value 2 with no other cell touched. `draws`
     * are the four `Math.random()` values the two `new Position()` calls use.
     */
    method SetInitBlocks(draws: seq<real>)
      requires grid.Length == 16
      requires |draws| == 4 && forall i :: 0 <= i < 4 ==> 0.0 <= draws[i] < 1.0
      modifies grid
      ensures OnBoard(NewPosition(None, None, draws[0], draws[1])) && OnBoard(NewPosition(None, None, draws[2], draws[3]))
      ensures grid[..] == Seeded(old(grid[..]), NewPosition(None, None, draws[0], draws[1]), NewPosition(None, None, draws[2], draws[3]))
    {
      var p1 := NewPosition(None, None, draws[0], draws[1]);
      var p2 := NewPosition(None, None, draws[2], draws[3]);
      RandomPositionOnBoard(draws[0], draws[1]);
      RandomPositionOnBoard(draws[2], draws[3]);
      SeedCell(p1);
      SeedCell(p2);
    }

    /**
     * `setInitBlocks` as evidently intended: p2 is drawn again until it names
     * a different cell (a nondeterministic choice of one here), so exactly two
     * cells are seeded.
     */
    method SetInitBlocksDistinct()
      requires grid.Length == 16 && grid[..] == EmptyBoard
      modifies grid
      ensures OccupiedCount(grid[..]) == 2 && TileSum(grid[..]) == 4
    {
      assert OnBoard(Position(0, 0));
      var p1 :| OnBoard(p1);
      assert OnBoard(Position(if p1.x == 0 then 1 else 0, 0));
      var p2 :| OnBoard(p2) && p2 != p1;
      SeedCell(p1);
      SeedCell(p2);
      SeededCount(p1, p2);
    }

    /** The cell at p: `open` cleared, then `value` set to 2. */
    method SeedCell(p: Position)
      requires grid.Length == 16 && OnBoard(p)
      modifies grid
      ensures grid[..] == Seed(old(grid[..]), p)
    {
      var k := Index(p.x, p.y);
      grid[k] := grid[k].(open := false);
      grid[k] := grid[k].(val := Some(2));
    }
  }
}
