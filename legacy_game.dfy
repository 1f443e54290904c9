/**
 * src/2048/main.ts: the older engine. The same sweeps as src/2048/game.ts, but
 * no score (its `moveTo` gets no game to report merges to), no clone, and a
 * `swipe` that returns nothing. It is proved against the same functions of
 * module EngineSpec, whose score component it does not keep.
 */
module LegacyGame {
  import opened Wrappers
  import opened Cells
  import opened Directions
  import opened CellRules
  import opened EngineSpec
  import Game

  class Game2048 {
    var grid: array<Cell>
    var needNew: bool
    var largest: int

    ghost predicate Valid()
      reads this, grid
    {
      && grid.Length == 16
      && WellFormed(grid[..])
      && AllCombinable(grid[..])
      && !needNew
      && largest >= 2
    }

    /** The engine state, with a score of 0 standing for the score this engine does not keep. */
    function Abs(): State
      reads this, grid
    {
      State(grid[..], 0, largest, needNew)
    }

    /** This game's grid, `_largest` and `_needNew` are those of engine state s. */
    predicate Matches(s: State)
      reads this, grid
    {
      grid[..] == s.board && largest == s.largest && needNew == s.needNew
    }

    /**
     * The constructor: `_initGrid` seeds two distinct open cells with 2, then
     * `_largest` is 2.
     */
    constructor ()
      ensures Valid() && fresh(grid)
      ensures largest == 2
      ensures forall k :: 0 <= k < 16 ==> if grid[k].open then grid[k] == EmptyCell else grid[k] == Cell(false, Some(2), true)
      ensures OccupiedCount(grid[..]) == 2 && TileSum(grid[..]) == 4
    {
      var g := Game.NewGrid();
      grid := g;
      new;
      EmptyBoardFacts();
      assert HasOpen(grid[..]) by { assert grid[..][0].open; }
      ghost var b0 := grid[..];
      AddNewBlock(true);
      ghost var k1, v1 :| SpawnValue(v1, true) && SpawnedAt(b0, grid[..], k1, v1);
      SpawnEffect(b0, grid[..], k1, v1, true);
      ghost var b1 := grid[..];
      assert HasOpen(b1) by { assert b1[if k1 == 0 then 1 else 0].open; }
      AddNewBlock(true);
      ghost var k2, v2 :| SpawnValue(v2, true) && SpawnedAt(b1, grid[..], k2, v2);
      SpawnEffect(b1, grid[..], k2, v2, true);
      needNew := false;
      largest := 2;
    }

    /** The `largest` setter: `_largest` only ever rises, to max(old, n). */
    method SetLargest(n: int)
      modifies this`largest
      ensures largest == Max(old(largest), n)
    {
      if n > largest {
        largest := n;
      }
    }

    /**
     * `_addNewBlock(twoFlag)`: an open cell (nondeterministic choice; one must
     * exist) gets 2 or 4, always 2 with the flag, and is closed.
     */
    method AddNewBlock(twoFlag: bool)
      requires grid.Length == 16 && HasOpen(grid[..])
      modifies this, grid
      ensures grid == old(grid) && largest == old(largest) && !needNew
      ensures exists k, v :: SpawnValue(v, twoFlag) && SpawnedAt(old(grid[..]), grid[..], k, v)
    {
      var k :| 0 <= k < 16 && grid[k].open;
      assert SpawnValue(2, twoFlag);
      var v :| SpawnValue(v, twoFlag);
      grid[k] := grid[k].(val := Some(v));
      grid[k] := grid[k].(open := false);
      needNew := false;
      assert SpawnedAt(old(grid[..]), grid[..], k, v);
    }

    /** Block `moveTo(neighbor)` from slot k into slot n; no score is kept. */
    method MoveTo(k: int, n: int) returns (v: int)
      requires grid.Length == 16 && WellFormed(grid[..])
      requires 0 <= k < 16 && 0 <= n < 16 && k != n && !grid[k].open
      modifies grid
      ensures v == MoveResult(old(grid[..]), k, n)
      ensures grid[..] == MoveBoard(old(grid[..]), k, n)
    {
      var cur, nb := grid[k], grid[n];
      if nb.open {
        v := cur.val.value;
        grid[n] := Cell(false, cur.val, nb.canCombine);
      } else {
        v := 2 * cur.val.value;
        grid[n] := Cell(false, Some(v), false);
      }
      grid[k] := Cell(true, None, cur.canCombine);
    }

    /**
     * `_attemptMove`: while the block can move, move it one cell and follow it.
     * The ghost engine state `s`, which this game matches, carries the score
     * this engine does not keep.
     */
    method AttemptMove(k: int, d: Direction, ghost s: State)
      requires grid.Length == 16 && WellFormed(s.board) && Matches(s) && 0 <= k < 16
      modifies this, grid
      ensures grid == old(grid)
      ensures Matches(Attempt(s, k, d))
    {
      var cur := k;
      ghost var t := s;
      if !grid[cur].open {
        while CanMove(grid[..], cur, d)
          invariant 0 <= cur < 16 && grid == old(grid) && WellFormed(t.board) && Matches(t)
          invariant Attempt(t, cur, d) == Attempt(s, k, d)
          decreases Distance(cur, d)
        {
          var n := Neighbor(cur, d).value;
          var v := MoveTo(cur, n);
          SetLargest(v);
          needNew := true;
          t := Step(t, cur, d);
          cur := n;
        }
      }
    }

    /**
     * The loop body of the four sweeps: `_attemptMove(grid[i][j], d)` on the
     * block visited at step `inner` of round `outer`, which takes the game from
     * one state of the sweep's trace to the next.
     */
    method AttemptVisit(d: Direction, outer: int, inner: int, ghost s0: State, ghost trace: seq<State>)
      requires grid.Length == 16 && 0 <= outer < 4 && 0 <= inner < 4 && WellFormed(s0.board)
      requires IsSweepTrace(s0, d, trace) && Matches(trace[4 * outer + inner])
      modifies this, grid
      ensures grid == old(grid) && Matches(trace[4 * outer + inner + 1])
    {
      TraceStep(s0, d, trace, outer, inner);
      AttemptMove(Visit(d, outer, inner), d, trace[4 * outer + inner]);
    }

    method SwipeLeft()
      requires grid.Length == 16 && WellFormed(grid[..])
      modifies this, grid
      ensures grid == old(grid)
      ensures Matches(Sweep(old(Abs()), Left))
    {
      ghost var trace := SweepTraceOf(Abs(), Left);
      for j := 0 to 4
        invariant grid == old(grid)
        invariant Matches(trace[4 * j])
      {
        for i := 0 to 4
          invariant grid == old(grid)
          invariant Matches(trace[4 * j + i])
        {
          AttemptVisit(Left, j, i, old(Abs()), trace);
        }
      }
    }

    method SwipeRight()
      requires grid.Length == 16 && WellFormed(grid[..])
      modifies this, grid
      ensures grid == old(grid)
      ensures Matches(Sweep(old(Abs()), Right))
    {
      ghost var trace := SweepTraceOf(Abs(), Right);
      for j := 0 to 4
        invariant grid == old(grid)
        invariant Matches(trace[4 * j])
      {
        for i := 4 downto 0
          invariant grid == old(grid)
          invariant Matches(trace[4 * j + (4 - i)])
        {
          AttemptVisit(Right, j, 3 - i, old(Abs()), trace);
        }
      }
    }

    method SwipeUp()
      requires grid.Length == 16 && WellFormed(grid[..])
      modifies this, grid
      ensures grid == old(grid)
      ensures Matches(Sweep(old(Abs()), Up))
    {
      ghost var trace := SweepTraceOf(Abs(), Up);
      for i := 0 to 4
        invariant grid == old(grid)
        invariant Matches(trace[4 * i])
      {
        for j := 0 to 4
          invariant grid == old(grid)
          invariant Matches(trace[4 * i + j])
        {
          AttemptVisit(Up, i, j, old(Abs()), trace);
        }
      }
    }

    method SwipeDown()
      requires grid.Length == 16 && WellFormed(grid[..])
      modifies this, grid
      ensures grid == old(grid)
      ensures Matches(Sweep(old(Abs()), Down))
    {
      ghost var trace := SweepTraceOf(Abs(), Down);
      for i := 0 to 4
        invariant grid == old(grid)
        invariant Matches(trace[4 * i])
      {
        for j := 4 downto 0
          invariant grid == old(grid)
          invariant Matches(trace[4 * i + (4 - j)])
        {
          AttemptVisit(Down, i, 3 - j, old(Abs()), trace);
        }
      }
    }

    /** `resetCombineFlags`: every Block may combine again. */
    method ResetCombineFlags()
      requires grid.Length == 16
      modifies grid
      ensures grid[..] == ResetFlags(old(grid[..]))
    {
      for i := 0 to 4
        invariant forall k :: 0 <= k < 16 ==> grid[k] == if k < 4 * i then old(grid[k]).(canCombine := true) else old(grid[k])
      {
        for j := 0 to 4
          invariant forall k :: 0 <= k < 16 ==> grid[k] == if k < 4 * i + j then old(grid[k]).(canCombine := true) else old(grid[k])
        {
          grid[Index(i, j)] := grid[Index(i, j)].(canCombine := true);
        }
      }
    }

    /** `isGameOver`: scan the cells; an open cell or a block that can move in some direction ends the scan with false. */
    method IsGameOver() returns (over: bool)
      requires grid.Length == 16
      ensures over == GameOver(grid[..])
    {
      ghost var b := grid[..];
      for i := 0 to 4
        invariant forall k :: 0 <= k < 4 * i ==> BlockedFour(b, k)
      {
        for j := 0 to 4
          invariant forall k :: 0 <= k < 4 * i + j ==> BlockedFour(b, k)
        {
          var k := Index(i, j);
          if grid[k].open {
            StuckInAllFour(b, k);
            return false;
          } else if CanMove(grid[..], k, Left) || CanMove(grid[..], k, Right)
                 || CanMove(grid[..], k, Down) || CanMove(grid[..], k, Up) {
            StuckInAllFour(b, k);
            return false;
          }
        }
      }
      forall k | 0 <= k < 16 ensures Stuck(b, k) {
        StuckInAllFour(b, k);
      }
      return true;
    }

    /**
     * `swipe`: run the sweep the direction code selects (an unknown code runs
     * none), reset the combine flags, and add a block exactly when something moved.
     */
    method Swipe(code: int)
      requires Valid()
      modifies this, grid
      ensures Valid() && grid == old(grid)
      ensures !(DirectionOf(code).Some? && Movable(old(grid[..]), DirectionOf(code).value)) ==>
        grid[..] == old(grid[..]) && largest == old(largest)
      ensures DirectionOf(code).Some? && Movable(old(grid[..]), DirectionOf(code).value) ==>
        var s := Sweep(old(Abs()), DirectionOf(code).value);
        && largest == s.largest
        && exists k, v :: SpawnValue(v, false) && SpawnedAt(ResetFlags(s.board), grid[..], k, v)
                          && OccupiedCount(grid[..]) == OccupiedCount(ResetFlags(s.board)) + 1
      ensures largest >= old(largest)
    {
      ghost var s0 := Abs();
      var dir := DirectionOf(code);
      match dir {
        case Some(Left) => SwipeLeft();
        case Some(Right) => SwipeRight();
        case Some(Up) => SwipeUp();
        case Some(Down) => SwipeDown();
        case None =>
      }
      ghost var swept := if dir.Some? then Sweep(s0, dir.value) else s0;
      assert Matches(swept);
      if dir.Some? {
        SweepMovesIffMovable(s0, dir.value);
      }
      ResetFlagsKeepsTiles(swept.board);
      ResetCombineFlags();
      if needNew {
        AddNewBlock(false);
        ghost var k, v :| SpawnValue(v, false) && SpawnedAt(ResetFlags(swept.board), grid[..], k, v);
        SpawnEffect(ResetFlags(swept.board), grid[..], k, v, false);
      }
    }
  }
}
