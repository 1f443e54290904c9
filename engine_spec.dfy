/**
 * The meaning of one swipe of src/2048/game.ts, as functions on values:
 * `attemptMove` is `Attempt`, the sweep orders of the four `swipe*` methods are
 * `OrderAt`, a whole sweep is `Sweep`, `resetCombineFlags` is `ResetFlags`.
 * The engine classes are proved to compute exactly these.
 */
module EngineSpec {
  import opened Wrappers
  import opened Cells
  import opened Directions
  import opened CellRules

  /** The engine's mutable state: grid, score, `_largest` and `needNew`. */
  datatype State = State(board: seq<Cell>, score: int, largest: int, needNew: bool)

  function Max(a: int, b: int): (m: int)
    ensures m >= a && m >= b && (m == a || m == b)
  {
    if a >= b then a else b
  }

  /** Sum of f over the cells of a board. */
  function Sum(b: seq<Cell>, f: Cell -> int): int
    decreases |b|
  {
    if b == [] then 0 else Sum(b[..|b| - 1], f) + f(b[|b| - 1])
  }

  lemma {:induction false} SumUpdate(b: seq<Cell>, i: int, c: Cell, f: Cell -> int)
    requires 0 <= i < |b|
    ensures Sum(b[i := c], f) == Sum(b, f) - f(b[i]) + f(c)
    decreases |b|
  {
    var b' := b[i := c];
    if i < |b| - 1 {
      assert b'[..|b| - 1] == b[..|b| - 1][i := c];
      SumUpdate(b[..|b| - 1], i, c, f);
    } else {
      assert b'[..|b| - 1] == b[..|b| - 1];
    }
  }

  /** The sum of all tile values on the board. */
  function TileSum(b: seq<Cell>): int {
    Sum(b, Num)
  }

  function Occupancy(c: Cell): int {
    if c.open then 0 else 1
  }

  /** The number of occupied cells. */
  function OccupiedCount(b: seq<Cell>): int {
    Sum(b, Occupancy)
  }

  /** Some cell is open. */
  predicate HasOpen(b: seq<Cell>)
    requires |b| == 16
  {
    exists k :: 0 <= k < 16 && b[k].open
  }

  /** A state in which `needNew` is set has an open cell for the new block. */
  predicate RoomForSpawn(s: State)
    requires |s.board| == 16
  {
    s.needNew ==> HasOpen(s.board)
  }

  /**
   * One pass of the loop body of `attemptMove`: move into the neighbour, raise
   * `_largest` to what `moveTo` returns, set `needNew`. A move keeps the tile sum
   * (a merge replaces v + v by 2v) and opens the cell it leaves.
   */
  function Step(s: State, k: int, d: Direction): (r: State)
    requires WellFormed(s.board) && 0 <= k < 16 && CanMove(s.board, k, d)
    ensures WellFormed(r.board)
  {
    var n := Neighbor(k, d).value;
    var b := s.board;
    TileValueDoubles(b[k].val.value);
    State(MoveBoard(b, k, n), s.score + MoveGain(b, k, n), Max(s.largest, MoveResult(b, k, n)), true)
  }

  /** A move keeps the tile sum (a merge replaces v + v by 2v), opens the cell it leaves and sets `needNew`. */
  lemma StepFacts(s: State, k: int, d: Direction)
    requires WellFormed(s.board) && 0 <= k < 16 && CanMove(s.board, k, d)
    ensures Step(s, k, d).needNew && Step(s, k, d).board[k].open
    ensures TileSum(Step(s, k, d).board) == TileSum(s.board)
    ensures Step(s, k, d).score >= s.score && Step(s, k, d).largest >= s.largest
  {
    var n := Neighbor(k, d).value;
    var b := s.board;
    var r := Step(s, k, d).board;
    SumUpdate(b[n := r[n]], k, r[k], Num);
    SumUpdate(b, n, r[n], Num);
    assert r == b[n := r[n]][k := r[k]];
  }

  /** `attemptMove(grid[k], d)`: step while the block can move. */
  function Attempt(s: State, k: int, d: Direction): (r: State)
    requires WellFormed(s.board) && 0 <= k < 16
    ensures WellFormed(r.board)
    decreases Distance(k, d)
  {
    if CanMove(s.board, k, d) then Attempt(Step(s, k, d), Neighbor(k, d).value, d) else s
  }

  /**
   * `attemptMove` sets `needNew` exactly when the block could move at all,
   * changes nothing when it could not, keeps the tile sum, never lowers score
   * or `_largest`, and leaves an open cell once anything has moved.
   */
  lemma {:induction false} AttemptFacts(s: State, k: int, d: Direction)
    requires WellFormed(s.board) && 0 <= k < 16
    ensures Attempt(s, k, d).needNew == (s.needNew || CanMove(s.board, k, d))
    ensures !CanMove(s.board, k, d) ==> Attempt(s, k, d) == s
    ensures TileSum(Attempt(s, k, d).board) == TileSum(s.board)
    ensures Attempt(s, k, d).score >= s.score && Attempt(s, k, d).largest >= s.largest
    ensures RoomForSpawn(s) ==> RoomForSpawn(Attempt(s, k, d))
    decreases Distance(k, d)
  {
    if CanMove(s.board, k, d) {
      var s' := Step(s, k, d);
      StepFacts(s, k, d);
      assert RoomForSpawn(s') by { assert s'.board[k].open; }
      AttemptFacts(s', Neighbor(k, d).value, d);
    }
  }

  /** From board b to board c no slot gained the right to combine: flags are only ever cleared. */
  predicate FlagsOnlyCleared(b: seq<Cell>, c: seq<Cell>) {
    |b| == 16 && |c| == 16 && forall m :: 0 <= m < 16 && c[m].canCombine ==> b[m].canCombine
  }

  /**
   * A move clears flags at most; a merge needs both blocks free to combine,
   * clears the flag of the slot merged into, doubles its value and adds that to the score.
   */
  lemma StepMergesOnce(s: State, k: int, d: Direction)
    requires WellFormed(s.board) && 0 <= k < 16 && CanMove(s.board, k, d)
    ensures FlagsOnlyCleared(s.board, Step(s, k, d).board)
    ensures var n := Neighbor(k, d).value;
      !s.board[n].open ==>
        && s.board[n].canCombine && s.board[k].canCombine
        && !Step(s, k, d).board[n].canCombine
        && Step(s, k, d).board[n].val == Some(2 * s.board[n].val.value)
        && Step(s, k, d).score == s.score + 2 * s.board[n].val.value
  {
  }

  /** A whole `attemptMove` only clears flags. */
  lemma {:induction false} AttemptOnlyClearsFlags(s: State, k: int, d: Direction)
    requires WellFormed(s.board) && 0 <= k < 16
    ensures FlagsOnlyCleared(s.board, Attempt(s, k, d).board)
    decreases Distance(k, d)
  {
    if CanMove(s.board, k, d) {
      StepMergesOnce(s, k, d);
      AttemptOnlyClearsFlags(Step(s, k, d), Neighbor(k, d).value, d);
    }
  }

  /**
   * The t-th block a sweep visits. Left and Right run the rows outer, Up and
   * Down the columns outer; the inner loop starts at the edge the blocks slide toward.
   */
  function OrderAt(d: Direction, t: int): (k: int)
    requires 0 <= t < 16
    ensures 0 <= k < 16
  {
    Visit(d, t / 4, t % 4)
  }

  /** The block visited at step `inner` of round `outer` of a sweep. */
  function Visit(d: Direction, outer: int, inner: int): int {
    match d
    case Left => Index(inner, outer)
    case Right => Index(3 - inner, outer)
    case Up => Index(outer, inner)
    case Down => Index(outer, 3 - inner)
  }

  lemma DivMod4(a: int, b: int)
    requires 0 <= b < 4
    ensures (4 * a + b) / 4 == a && (4 * a + b) % 4 == b
  {
  }

  /** Each slot is visited by a sweep: the visit number of slot k. */
  function VisitOf(d: Direction, k: int): (t: int)
    requires 0 <= k < 16
    ensures 0 <= t < 16 && OrderAt(d, t) == k
  {
    var i, j := k / 4, k % 4;
    DivMod4(i, j);
    DivMod4(j, i);
    DivMod4(j, 3 - i);
    DivMod4(i, 3 - j);
    match d
    case Left => 4 * j + i
    case Right => 4 * j + (3 - i)
    case Up => 4 * i + j
    case Down => 4 * i + (3 - j)
  }

  /** The state after the first t `attemptMove` calls of a sweep. */
  function SweepPrefix(s: State, d: Direction, t: int): (r: State)
    requires WellFormed(s.board) && 0 <= t <= 16
    ensures WellFormed(r.board)
  {
    if t == 0 then s else Attempt(SweepPrefix(s, d, t - 1), OrderAt(d, t - 1), d)
  }

  /** Part of a sweep keeps the tile sum, never lowers score or `_largest`, and never clears `needNew`. */
  lemma {:induction false} SweepPrefixFacts(s: State, d: Direction, t: int)
    requires WellFormed(s.board) && 0 <= t <= 16
    ensures TileSum(SweepPrefix(s, d, t).board) == TileSum(s.board)
    ensures SweepPrefix(s, d, t).score >= s.score && SweepPrefix(s, d, t).largest >= s.largest
    ensures RoomForSpawn(s) ==> RoomForSpawn(SweepPrefix(s, d, t))
    ensures s.needNew ==> SweepPrefix(s, d, t).needNew
  {
    if t > 0 {
      SweepPrefixFacts(s, d, t - 1);
      AttemptFacts(SweepPrefix(s, d, t - 1), OrderAt(d, t - 1), d);
    }
  }

  /**
   * Between steps t and u of a sweep flags are only cleared: a slot merged into
   * (which clears its flag, `StepMergesOnce`) cannot be merged into again before
   * `resetCombineFlags`, so each slot takes part in at most one merge per swipe.
   */
  lemma {:induction false} SweepOnlyClearsFlags(s: State, d: Direction, t: int, u: int)
    requires WellFormed(s.board) && 0 <= t <= u <= 16
    ensures FlagsOnlyCleared(SweepPrefix(s, d, t).board, SweepPrefix(s, d, u).board)
  {
    if u > t {
      SweepOnlyClearsFlags(s, d, t, u - 1);
      AttemptOnlyClearsFlags(SweepPrefix(s, d, u - 1), OrderAt(d, u - 1), d);
    }
  }

  lemma SweepPrefixNext(s: State, d: Direction, t: int)
    requires WellFormed(s.board) && 0 <= t < 16
    ensures SweepPrefix(s, d, t + 1) == Attempt(SweepPrefix(s, d, t), OrderAt(d, t), d)
  {
  }

  /** The state after `swipeLeft`, `swipeRight`, `swipeUp` or `swipeDown`. */
  function Sweep(s: State, d: Direction): State
    requires WellFormed(s.board)
  {
    SweepPrefix(s, d, 16)
  }

  /** State t of a trace, named so that facts about it fire only where a proof asks. */
  function At(trace: seq<State>, t: int): State
    requires 0 <= t < |trace|
  {
    trace[t]
  }

  /** trace lists the state of a sweep from s in direction d before each of its 16 steps, and after the last. */
  predicate IsSweepTrace(s: State, d: Direction, trace: seq<State>)
    requires WellFormed(s.board)
  {
    && |trace| == 17 && trace[0] == s
    && forall t {:trigger At(trace, t)} :: 0 <= t <= 16 ==> At(trace, t) == SweepPrefix(s, d, t)
  }

  /** Every sweep from a well-formed state has a trace, ending in the swept state. */
  lemma SweepTraceOf(s: State, d: Direction) returns (trace: seq<State>)
    requires WellFormed(s.board)
    ensures IsSweepTrace(s, d, trace) && trace[16] == Sweep(s, d)
  {
    trace := seq(17, t requires 0 <= t <= 16 => SweepPrefix(s, d, t));
    assert At(trace, 16) == SweepPrefix(s, d, 16);
  }

  /** Step `inner` of round `outer` of a traced sweep is the attempt on block `Visit(d, outer, inner)`. */
  lemma TraceStep(s: State, d: Direction, trace: seq<State>, outer: int, inner: int)
    requires WellFormed(s.board) && IsSweepTrace(s, d, trace) && 0 <= outer < 4 && 0 <= inner < 4
    ensures WellFormed(trace[4 * outer + inner].board)
    ensures trace[4 * outer + inner + 1] == Attempt(trace[4 * outer + inner], Visit(d, outer, inner), d)
  {
    var t := 4 * outer + inner;
    assert At(trace, t) == SweepPrefix(s, d, t) && At(trace, t + 1) == SweepPrefix(s, d, t + 1);
    DivMod4(outer, inner);
    SweepPrefixNext(s, d, t);
  }


  /** Some block can move in direction d. */
  predicate Movable(b: seq<Cell>, d: Direction)
    requires |b| == 16
  {
    exists k :: 0 <= k < 16 && CanMove(b, k, d)
  }

  /**
   * While no block has moved the board is untouched, and a block moves during
   * the first t visits exactly when one of the visited blocks could move at the start.
   */
  lemma {:induction false} SweepPrefixMoves(s: State, d: Direction, t: int)
    requires WellFormed(s.board) && !s.needNew && 0 <= t <= 16
    ensures SweepPrefix(s, d, t).needNew <==> exists u :: 0 <= u < t && CanMove(s.board, OrderAt(d, u), d)
    ensures !SweepPrefix(s, d, t).needNew ==> SweepPrefix(s, d, t) == s
  {
    if t > 0 {
      SweepPrefixMoves(s, d, t - 1);
      var p := SweepPrefix(s, d, t - 1);
      var k := OrderAt(d, t - 1);
      assert SweepPrefix(s, d, t) == Attempt(p, k, d);
      AttemptFacts(p, k, d);
      if p.needNew {
        var u :| 0 <= u < t - 1 && CanMove(s.board, OrderAt(d, u), d);
        assert 0 <= u < t;
      } else {
        assert p == s;
        if CanMove(s.board, k, d) {
          assert 0 <= t - 1 < t;
        } else {
          assert forall u :: 0 <= u < t && CanMove(s.board, OrderAt(d, u), d) ==> u < t - 1;
        }
      }
    }
  }

  /**
   * A sweep moves something exactly when some block can move at the start; a
   * sweep that moves nothing changes nothing, and one that moves leaves an open
   * cell for the new block. Either way the tile sum is kept.
   */
  lemma SweepMovesIffMovable(s: State, d: Direction)
    requires WellFormed(s.board) && !s.needNew
    ensures Sweep(s, d).needNew <==> Movable(s.board, d)
    ensures !Sweep(s, d).needNew ==> Sweep(s, d) == s
    ensures Sweep(s, d).needNew ==> HasOpen(Sweep(s, d).board)
    ensures TileSum(Sweep(s, d).board) == TileSum(s.board)
    ensures Sweep(s, d).score >= s.score && Sweep(s, d).largest >= s.largest
  {
    SweepPrefixMoves(s, d, 16);
    SweepPrefixFacts(s, d, 16);
    if Movable(s.board, d) {
      var k :| 0 <= k < 16 && CanMove(s.board, k, d);
      var u := VisitOf(d, k);
      assert CanMove(s.board, OrderAt(d, u), d);
    }
  }

  /** `resetCombineFlags`: every cell may combine again; nothing else changes. */
  function ResetFlags(b: seq<Cell>): (r: seq<Cell>)
    requires |b| == 16
    ensures |r| == 16
    ensures forall k :: 0 <= k < 16 ==> r[k].canCombine && r[k].open == b[k].open && r[k].val == b[k].val
  {
    seq(16, k requires 0 <= k < 16 => b[k].(canCombine := true))
  }

  predicate AllCombinable(b: seq<Cell>)
    requires |b| == 16
  {
    forall k :: 0 <= k < 16 ==> b[k].canCombine
  }

  /** Resetting the flags changes no value, open flag, tile sum or occupancy. */
  lemma ResetFlagsKeepsTiles(b: seq<Cell>)
    requires WellFormed(b)
    ensures WellFormed(ResetFlags(b)) && AllCombinable(ResetFlags(b))
    ensures AllCombinable(b) ==> ResetFlags(b) == b
    ensures HasOpen(b) ==> HasOpen(ResetFlags(b))
    ensures TileSum(ResetFlags(b)) == TileSum(b)
  {
    var r := ResetFlags(b);
    SumPointwise(b, r, Num);
  }

  lemma {:induction false} SumPointwise(b: seq<Cell>, c: seq<Cell>, f: Cell -> int)
    requires |b| == |c| && forall k :: 0 <= k < |b| ==> f(b[k]) == f(c[k])
    ensures Sum(b, f) == Sum(c, f)
    decreases |b|
  {
    if b != [] {
      SumPointwise(b[..|b| - 1], c[..|c| - 1], f);
    }
  }

  /** `addNewBlock` wrote value v into the open slot k and closed it; nothing else changed. */
  predicate SpawnedAt(before: seq<Cell>, after: seq<Cell>, k: int, v: int)
    requires |before| == 16
  {
    0 <= k < 16 && before[k].open && after == before[k := Cell(false, Some(v), before[k].canCombine)]
  }

  /** The value of a new block: 2, or 4 unless the two-flag forces 2. */
  predicate SpawnValue(v: int, twoFlag: bool) {
    v == 2 || (!twoFlag && v == 4)
  }

  /** A spawn keeps the board well formed, adds its value to the tile sum and one occupied cell. */
  lemma SpawnEffect(before: seq<Cell>, after: seq<Cell>, k: int, v: int, twoFlag: bool)
    requires WellFormed(before) && SpawnedAt(before, after, k, v) && SpawnValue(v, twoFlag)
    ensures WellFormed(after) && HasOpen(before)
    ensures TileSum(after) == TileSum(before) + v
    ensures OccupiedCount(after) == OccupiedCount(before) + 1
    ensures AllCombinable(before) ==> AllCombinable(after)
  {
    assert IsTileValue(4) by { assert IsTileValue(2); }
    SumUpdate(before, k, after[k], Num);
    SumUpdate(before, k, after[k], Occupancy);
  }

  /** The empty board every fresh grid starts from. */
  const EmptyBoard: seq<Cell> := seq(16, k => EmptyCell)

  lemma EmptyBoardFacts()
    ensures WellFormed(EmptyBoard) && AllCombinable(EmptyBoard)
    ensures TileSum(EmptyBoard) == 0 && OccupiedCount(EmptyBoard) == 0
  {
    EmptySums(16);
    assert EmptyBoard[..16] == EmptyBoard;
  }

  lemma {:induction false} EmptySums(n: nat)
    requires n <= 16
    ensures TileSum(EmptyBoard[..n]) == 0 && OccupiedCount(EmptyBoard[..n]) == 0
  {
    if n > 0 {
      assert EmptyBoard[..n][..n - 1] == EmptyBoard[..n - 1];
      EmptySums(n - 1);
    }
  }

  /** Slot k is occupied and its block can move in no direction. */
  predicate Stuck(b: seq<Cell>, k: int)
    requires |b| == 16 && 0 <= k < 16
  {
    !b[k].open && forall d: Direction :: !CanMove(b, k, d)
  }

  /** The tests `isGameOver` makes on slot k: occupied, and no move Left, Right, Down or Up. */
  predicate BlockedFour(b: seq<Cell>, k: int)
    requires |b| == 16 && 0 <= k < 16
  {
    !b[k].open && !CanMove(b, k, Left) && !CanMove(b, k, Right) && !CanMove(b, k, Down) && !CanMove(b, k, Up)
  }

  /** The four tests `isGameOver` makes on one block cover all the directions there are. */
  lemma StuckInAllFour(b: seq<Cell>, k: int)
    requires |b| == 16 && 0 <= k < 16
    ensures Stuck(b, k) <==> BlockedFour(b, k)
  {
    if BlockedFour(b, k) {
      forall d: Direction ensures !CanMove(b, k, d) {
        match d
        case Left =>
        case Right =>
        case Down =>
        case Up =>
      }
    }
  }

  /** The test of `isGameOver`: no open cell, and no block can move in any direction. */
  predicate GameOver(b: seq<Cell>)
    requires |b| == 16
  {
    forall k :: 0 <= k < 16 ==> Stuck(b, k)
  }

  /** The game is over exactly when the board is full and no swipe would move anything. */
  lemma GameOverIffNoSwipeMoves(s: State)
    requires WellFormed(s.board) && !s.needNew
    ensures GameOver(s.board) <==> !HasOpen(s.board) && forall d: Direction :: !Sweep(s, d).needNew
  {
    var b := s.board;
    forall d: Direction ensures Sweep(s, d).needNew <==> Movable(b, d) {
      SweepMovesIffMovable(s, d);
    }
    if GameOver(b) {
      forall k | 0 <= k < 16 ensures !b[k].open {
        assert Stuck(b, k);
      }
      forall d: Direction ensures !Movable(b, d) {
        forall k | 0 <= k < 16 ensures !CanMove(b, k, d) {
          assert Stuck(b, k);
        }
      }
    }
    if !HasOpen(b) && forall d: Direction :: !Movable(b, d) {
      forall k | 0 <= k < 16 ensures Stuck(b, k) {
        assert !b[k].open;
        forall d: Direction ensures !CanMove(b, k, d) {
          assert !Movable(b, d);
        }
      }
    }
  }
}
