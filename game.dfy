/**
 * src/2048/game.ts: the engine. The 4 x 4 grid of Blocks is a 16-slot array
 * (slot `Index(i, j)` holds grid[i][j]); `score`, `_largest` and `needNew` are
 * fields the methods update. Each method is proved to compute the functions of
 * module EngineSpec on the abstract state `Abs()`.
 */
module Game {
  import opened Wrappers
  import opened Cells
  import opened Directions
  import opened CellRules
  import opened EngineSpec

  /** `createGrid` followed by `fillGrid`: a fresh grid of 16 new, open Blocks. */
  method NewGrid() returns (g: array<Cell>)
    ensures fresh(g) && g.Length == 16 && g[..] == EmptyBoard
  {
    g := new Cell[16];
    for i := 0 to 4
      invariant forall k :: 0 <= k < 4 * i ==> g[k] == EmptyCell
    {
      for j := 0 to 4
        invariant forall k :: 0 <= k < 4 * i + j ==> g[k] == EmptyCell
      {
        g[Index(i, j)] := EmptyCell;
      }
    }
  }

  class Game2048 {
    var grid: array<Cell>
    var needNew: bool
    var largest: int
    var score: int

    /** Between public calls: a well-formed board, all flags reset, no pending spawn. */
    ghost predicate Valid()
      reads this, grid
    {
      && grid.Length == 16
      && WellFormed(grid[..])
      && AllCombinable(grid[..])
      && !needNew
      && largest >= 2
      && score >= 0
    }

    /** The abstract state the engine functions speak about. */
    function Abs(): State
      reads this, grid
    {
      State(grid[..], score, largest, needNew)
    }

    /**
     * The constructor: `initGrid` seeds two distinct open cells with 2, then
     * score is 0 and `_largest` is 2.
     */
    constructor ()
      ensures Valid() && fresh(grid)
      ensures score == 0 && largest == 2
      ensures forall k :: 0 <= k < 16 ==> if grid[k].open then grid[k] == EmptyCell else grid[k] == Cell(false, Some(2), true)
      ensures OccupiedCount(grid[..]) == 2 && TileSum(grid[..]) == 4
    {
      var g := NewGrid();
      grid := g;
      new;
      EmptyBoardFacts();
      assert HasOpen(grid[..]) by { assert grid[..][0].open; }
      ghost var b0 := grid[..];
      AddNewBlock(true);
      ghost var k1, v1 :| SpawnValue(v1, true) && SpawnedAt(b0, grid[..], k1, v1);
      SpawnEffect(b0, grid[..], k1, v1, true);
      ghost var b1 := grid[..];
      assert HasOpen(b1) by { assert b1[if k1 == 0 then 1 else 0].open; }
      AddNewBlock(true);
      ghost var k2, v2 :| SpawnValue(v2, true) && SpawnedAt(b1, grid[..], k2, v2);
      SpawnEffect(b1, grid[..], k2, v2, true);
      needNew := false;
      largest := 2;
      score := 0;
    }

    /** `addToScore`: the score grows by s and the new score is returned. */
    method AddToScore(s: int) returns (r: int)
      modifies this`score
      ensures score == old(score) + s && r == score
    {
      score := score + s;
      r := score;
    }

    /** The `largest` setter: `_largest` only ever rises, to max(old, n). */
    method SetLargest(n: int)
      modifies this`largest
      ensures largest == Max(old(largest), n)
    {
      if n > largest {
        largest := n;
      }
    }

    /**
     * `addNewBlock(twoFlag)`: the rejection-sampling loop picks an open cell
     * (a nondeterministic choice here, which needs an open cell to exist), and
     * the random roll gives 2 or 4 (always 2 with the flag).
     */
    method AddNewBlock(twoFlag: bool)
      requires grid.Length == 16 && HasOpen(grid[..])
      modifies this, grid
      ensures grid == old(grid) && score == old(score) && largest == old(largest) && !needNew
      ensures exists k, v :: SpawnValue(v, twoFlag) && SpawnedAt(old(grid[..]), grid[..], k, v)
    {
      var k :| 0 <= k < 16 && grid[k].open;
      assert SpawnValue(2, twoFlag);
      var v :| SpawnValue(v, twoFlag);
      grid[k] := grid[k].(val := Some(v));
      grid[k] := grid[k].(open := false);
      needNew := false;
      assert SpawnedAt(old(grid[..]), grid[..], k, v);
    }

    /** Block `moveTo(neighbor, game)` from slot k into slot n, as the assumed cell rule has it. */
    method MoveTo(k: int, n: int) returns (v: int)
      requires grid.Length == 16 && WellFormed(grid[..])
      requires 0 <= k < 16 && 0 <= n < 16 && k != n && !grid[k].open
      modifies this`score, grid
      ensures v == MoveResult(old(grid[..]), k, n)
      ensures grid[..] == MoveBoard(old(grid[..]), k, n)
      ensures score == old(score) + MoveGain(old(grid[..]), k, n)
    {
      var cur, nb := grid[k], grid[n];
      if nb.open {
        v := cur.val.value;
        grid[n] := Cell(false, cur.val, nb.canCombine);
      } else {
        v := 2 * cur.val.value;
        grid[n] := Cell(false, Some(v), false);
        var _ := AddToScore(v);
      }
      grid[k] := Cell(true, None, cur.canCombine);
    }

    /** `attemptMove`: while the block can move, move it one cell and follow it. */
    method AttemptMove(k: int, d: Direction)
      requires grid.Length == 16 && WellFormed(grid[..]) && 0 <= k < 16
      modifies this, grid
      ensures grid == old(grid)
      ensures Abs() == Attempt(old(Abs()), k, d)
    {
      var cur := k;
      if !grid[cur].open {
        while CanMove(grid[..], cur, d)
          invariant 0 <= cur < 16 && grid == old(grid) && WellFormed(grid[..])
          invariant Attempt(Abs(), cur, d) == Attempt(old(Abs()), k, d)
          decreases Distance(cur, d)
        {
          ghost var s := Abs();
          var n := Neighbor(cur, d).value;
          var v := MoveTo(cur, n);
          SetLargest(v);
          needNew := true;
          assert Abs() == Step(s, cur, d);
          cur := n;
        }
      }
    }

    /**
     * The loop body of the four sweeps: `attemptMove(grid[i][j], d)` on the block
     * visited at step `inner` of round `outer`, which takes the game from one
     * state of the sweep's trace to the next.
     */
    method AttemptVisit(d: Direction, outer: int, inner: int, ghost s0: State, ghost trace: seq<State>)
      requires grid.Length == 16 && 0 <= outer < 4 && 0 <= inner < 4 && WellFormed(s0.board)
      requires IsSweepTrace(s0, d, trace) && Abs() == trace[4 * outer + inner]
      modifies this, grid
      ensures grid == old(grid) && Abs() == trace[4 * outer + inner + 1]
    {
      TraceStep(s0, d, trace, outer, inner);
      AttemptMove(Visit(d, outer, inner), d);
    }

    method SwipeLeft()
      requires grid.Length == 16 && WellFormed(grid[..])
      modifies this, grid
      ensures grid == old(grid)
      ensures Abs() == Sweep(old(Abs()), Left)
    {
      ghost var trace := SweepTraceOf(Abs(), Left);
      for j := 0 to 4
        invariant grid == old(grid)
        invariant Abs() == trace[4 * j]
      {
        for i := 0 to 4
          invariant grid == old(grid)
          invariant Abs() == trace[4 * j + i]
        {
          AttemptVisit(Left, j, i, old(Abs()), trace);
        }
      }
    }

    method SwipeRight()
      requires grid.Length == 16 && WellFormed(grid[..])
      modifies this, grid
      ensures grid == old(grid)
      ensures Abs() == Sweep(old(Abs()), Right)
    {
      ghost var trace := SweepTraceOf(Abs(), Right);
      for j := 0 to 4
        invariant grid == old(grid)
        invariant Abs() == trace[4 * j]
      {
        for i := 4 downto 0
          invariant grid == old(grid)
          invariant Abs() == trace[4 * j + (4 - i)]
        {
          AttemptVisit(Right, j, 3 - i, old(Abs()), trace);
        }
      }
    }

    method SwipeUp()
      requires grid.Length == 16 && WellFormed(grid[..])
      modifies this, grid
      ensures grid == old(grid)
      ensures Abs() == Sweep(old(Abs()), Up)
    {
      ghost var trace := SweepTraceOf(Abs(), Up);
      for i := 0 to 4
        invariant grid == old(grid)
        invariant Abs() == trace[4 * i]
      {
        for j := 0 to 4
          invariant grid == old(grid)
          invariant Abs() == trace[4 * i + j]
        {
          AttemptVisit(Up, i, j, old(Abs()), trace);
        }
      }
    }

    method SwipeDown()
      requires grid.Length == 16 && WellFormed(grid[..])
      modifies this, grid
      ensures grid == old(grid)
      ensures Abs() == Sweep(old(Abs()), Down)
    {
      ghost var trace := SweepTraceOf(Abs(), Down);
      for i := 0 to 4
        invariant grid == old(grid)
        invariant Abs() == trace[4 * i]
      {
        for j := 4 downto 0
          invariant grid == old(grid)
          invariant Abs() == trace[4 * i + (4 - j)]
        {
          AttemptVisit(Down, i, 3 - j, old(Abs()), trace);
        }
      }
    }

    /** `resetCombineFlags`: every Block may combine again. */
    method ResetCombineFlags()
      requires grid.Length == 16
      modifies grid
      ensures grid[..] == ResetFlags(old(grid[..]))
    {
      for i := 0 to 4
        invariant forall k :: 0 <= k < 16 ==> grid[k] == if k < 4 * i then old(grid[k]).(canCombine := true) else old(grid[k])
      {
        for j := 0 to 4
          invariant forall k :: 0 <= k < 16 ==> grid[k] == if k < 4 * i + j then old(grid[k]).(canCombine := true) else old(grid[k])
        {
          grid[Index(i, j)] := grid[Index(i, j)].(canCombine := true);
        }
      }
    }

    /** `isGameOver`: scan the cells; an open cell or a block that can move in some direction ends the scan with false. */
    method IsGameOver() returns (over: bool)
      requires grid.Length == 16
      ensures over == GameOver(grid[..])
    {
      ghost var b := grid[..];
      for i := 0 to 4
        invariant forall k :: 0 <= k < 4 * i ==> BlockedFour(b, k)
      {
        for j := 0 to 4
          invariant forall k :: 0 <= k < 4 * i + j ==> BlockedFour(b, k)
        {
          var k := Index(i, j);
          if grid[k].open {
            StuckInAllFour(b, k);
            return false;
          } else if CanMove(grid[..], k, Left) || CanMove(grid[..], k, Right)
                 || CanMove(grid[..], k, Down) || CanMove(grid[..], k, Up) {
            StuckInAllFour(b, k);
            return false;
          }
        }
      }
      forall k | 0 <= k < 16 ensures Stuck(b, k) {
        StuckInAllFour(b, k);
      }
      return true;
    }

    /**
     * `swipe`: run the sweep the direction code selects (an unknown code runs
     * none), reset the combine flags, and add a block only if something moved.
     * The result says whether a block moved, which is exactly whether some block
     * could move in that direction beforehand; a swipe that moves nothing leaves
     * the game unchanged.
     */
    method Swipe(code: int) returns (moved: bool)
      requires Valid()
      modifies this, grid
      ensures Valid() && grid == old(grid)
      ensures moved <==> DirectionOf(code).Some? && Movable(old(grid[..]), DirectionOf(code).value)
      ensures !moved ==> Abs() == old(Abs())
      ensures moved ==>
        var s := Sweep(old(Abs()), DirectionOf(code).value);
        && score == s.score && largest == s.largest
        && exists k, v :: SpawnValue(v, false) && SpawnedAt(ResetFlags(s.board), grid[..], k, v)
                          && TileSum(grid[..]) == TileSum(old(grid[..])) + v
      ensures score >= old(score) && largest >= old(largest)
    {
      ghost var s0 := Abs();
      var dir := DirectionOf(code);
      SweepFor(dir);
      ghost var swept := Abs();
      ghost var mv := dir.Some? && Movable(s0.board, dir.value);
      if dir.Some? {
        SweepMovesIffMovable(s0, dir.value);
      } else {
        assert swept == s0;
      }
      assert swept.needNew == mv && TileSum(swept.board) == TileSum(s0.board);
      ResetFlagsKeepsTiles(swept.board);
      ResetCombineFlags();
      if needNew {
        AddNewBlock(false);
        moved := true;
        ghost var k, v :| SpawnValue(v, false) && SpawnedAt(ResetFlags(swept.board), grid[..], k, v);
        SpawnEffect(ResetFlags(swept.board), grid[..], k, v, false);
        assert TileSum(grid[..]) == TileSum(s0.board) + v;
      } else {
        moved := false;
        assert swept == s0;
        ResetFlagsKeepsTiles(s0.board);
        assert grid[..] == s0.board;
      }
    }

    /** The `switch` of `swipe`: one sweep for a direction, none for an unknown code. */
    method SweepFor(dir: Option<Direction>)
      requires grid.Length == 16 && WellFormed(grid[..])
      modifies this, grid
      ensures grid == old(grid)
      ensures dir.Some? ==> Abs() == Sweep(old(Abs()), dir.value)
      ensures dir.None? ==> Abs() == old(Abs())
    {
      match dir {
        case Some(Left) => SwipeLeft();
        case Some(Right) => SwipeRight();
        case Some(Up) => SwipeUp();
        case Some(Down) => SwipeDown();
        case None =>
      }
    }

    /**
     * `getClone`: a new game whose grid is freshly created and filled, then
     * given every cell's value, open flag and combine flag, the score,
     * `_largest` and `needNew`. Both objects are fresh, so nothing done to the
     * clone reaches this game and nothing done here reaches the clone.
     */
    method GetClone() returns (clone: Game2048)
      requires Valid()
      ensures fresh(clone) && fresh(clone.grid)
      ensures clone.Valid() && clone.Abs() == Abs()
    {
      clone := new Game2048();
      clone.needNew := needNew;
      clone.largest := largest;
      clone.grid := NewGrid();
      clone.score := score;
      for i := 0 to 4
        invariant fresh(clone.grid) && clone.grid.Length == 16
        invariant clone.needNew == needNew && clone.largest == largest && clone.score == score
        invariant forall k :: 0 <= k < 16 ==> clone.grid[k] == if k < 4 * i then grid[k] else EmptyCell
      {
        for j := 0 to 4
          invariant fresh(clone.grid) && clone.grid.Length == 16
          invariant clone.needNew == needNew && clone.largest == largest && clone.score == score
          invariant forall k :: 0 <= k < 16 ==> clone.grid[k] == if k < 4 * i + j then grid[k] else EmptyCell
        {
          var k := Index(i, j);
          clone.grid[k] := clone.grid[k].(val := Value(grid[k]));
          clone.grid[k] := clone.grid[k].(open := grid[k].open);
          clone.grid[k] := clone.grid[k].(canCombine := grid[k].canCombine);
        }
      }
      assert clone.grid[..] == grid[..];
    }
  }
}
