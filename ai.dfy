/**
 * src/ai/ai.ts: the rollout player. Every rollout plays a clone of the game;
 * the random directions of the continuation come from a supplied sequence of
 * direction codes, which bounds the rollout (no termination claim is made for
 * the random continuation itself).
 */
module AI {
  import opened Wrappers
  import opened Cells
  import opened Directions
  import opened EngineSpec
  import opened Game

  /** Direction code `code` moves at least one block of board b. */
  predicate Opens(b: seq<Cell>, code: int)
    requires |b| == 16
  {
    DirectionOf(code).Some? && Movable(b, DirectionOf(code).value)
  }

  /** Some total is a positive number. */
  predicate SomePositive(totals: seq<Option<int>>) {
    exists e :: 0 <= e < |totals| && totals[e].Some? && totals[e].value > 0
  }

  /**
   * The choice `getBestMove` is meant to make, stated independently of its
   * loop: the first direction whose total is the largest positive total, or
   * direction 0 when no total is positive. A null total is never the choice.
   */
  predicate IsBest(totals: seq<Option<int>>, best: int) {
    && 0 <= best < 4
    && if SomePositive(totals) then
         && best < |totals| && totals[best].Some? && totals[best].value > 0
         && (forall e :: 0 <= e < |totals| && totals[e].Some? ==> totals[e].value <= totals[best].value)
         && (forall e :: 0 <= e < best && totals[e].Some? ==> totals[e].value < totals[best].value)
       else best == 0
  }

  /** At most one direction is the best one: the tie-break makes the choice unique. */
  lemma BestIsUnique(totals: seq<Option<int>>, a: int, b: int)
    requires IsBest(totals, a) && IsBest(totals, b)
    ensures a == b
  {
  }

  /** The sum of a list of rollout scores. */
  function Total(xs: seq<int>): int {
    if xs == [] then 0 else Total(xs[..|xs| - 1]) + xs[|xs| - 1]
  }

  lemma TotalAppend(xs: seq<int>, x: int)
    ensures Total(xs + [x]) == Total(xs) + x
  {
    assert (xs + [x])[..|xs|] == xs;
  }

  /** Appending a score of at least m to scores of at least m: the total grows by that score. */
  lemma AppendScore(xs: seq<int>, x: int, m: int)
    requires x >= m && forall e :: 0 <= e < |xs| ==> xs[e] >= m
    ensures Total(xs + [x]) == Total(xs) + x
    ensures forall e :: 0 <= e < |xs + [x]| ==> (xs + [x])[e] >= m
  {
    TotalAppend(xs, x);
  }

  /** Scores that are each at least m sum to at least |xs| * m. */
  lemma {:induction false} TotalAtLeast(xs: seq<int>, m: int)
    requires forall e :: 0 <= e < |xs| ==> xs[e] >= m
    ensures Total(xs) >= |xs| * m
  {
    if xs != [] {
      TotalAtLeast(xs[..|xs| - 1], m);
    }
  }

  class Game2048AI {
    var numRuns: int
    var game: Game2048

    constructor (game: Game2048, numRuns: int)
      ensures this.game == game && this.numRuns == numRuns
    {
      this.game := game;
      this.numRuns := numRuns;
    }

    /**
     * `runClone`: clone the game and swipe `code`; null if that swipe moved
     * nothing, otherwise keep swiping (the codes of `moves`, in order) until
     * the clone's game is over, and return the clone's score. Only the clone
     * changes: this method may modify no object that existed before the call.
     */
    method RunClone(code: int, moves: seq<int>) returns (r: Option<int>)
      requires game.Valid()
      ensures r.None? <==> !Opens(game.grid[..], code)
      ensures r.Some? ==> r.value >= game.score
    {
      var clone := game.GetClone();
      var moved := clone.Swipe(code);
      if moved {
        var over := clone.IsGameOver();
        var i := 0;
        while !over && i < |moves|
          invariant 0 <= i <= |moves|
          invariant fresh(clone) && fresh(clone.grid)
          invariant clone.Valid() && clone.score >= game.score
        {
          var _ := clone.Swipe(moves[i]);
          over := clone.IsGameOver();
          i := i + 1;
        }
        r := Some(clone.score);
      } else {
        r := None;
      }
    }

    /**
     * `runSimulation`: the sum of `numRuns` rollouts that open with `code`, or
     * null as soon as one rollout returns null, which happens exactly when
     * `code` moves nothing (and there is at least one rollout). `scores` are
     * the rollout results; with no rollouts the total is 0.
     */
    method RunSimulation(code: int, runs: seq<seq<int>>) returns (r: Option<int>, ghost scores: seq<int>)
      requires game.Valid() && |runs| >= numRuns
      ensures r.None? <==> numRuns > 0 && !Opens(game.grid[..], code)
      ensures r.Some? ==> |scores| == (if numRuns > 0 then numRuns else 0) && r.value == Total(scores)
      ensures r.Some? ==> forall e :: 0 <= e < |scores| ==> scores[e] >= game.score
      ensures numRuns <= 0 ==> r == Some(0)
    {
      ghost var b, floor := game.grid[..], game.score;
      var totalScore := 0;
      scores := [];
      var i := 0;
      while i < numRuns
        invariant 0 <= i && (if numRuns > 0 then i <= numRuns else i == 0)
        invariant |scores| == i && totalScore == Total(scores)
        invariant forall e :: 0 <= e < i ==> scores[e] >= floor
        invariant i > 0 ==> Opens(b, code)
      {
        var runScore := RunClone(code, runs[i]);
        if runScore.None? {
          return None, scores;
        }
        AppendScore(scores, runScore.value, floor);
        scores := scores + [runScore.value];
        totalScore := totalScore + runScore.value;
        i := i + 1;
      }
      r := Some(totalScore);
    }

    /**
     * `getBestMove`: run a simulation for each direction code 0..3 in turn and
     * keep a direction only when its total is strictly greater than the best
     * so far (which starts at 0). `totals` are the simulation results.
     */
    method GetBestMove(runs: seq<seq<seq<int>>>) returns (best: int, ghost totals: seq<Option<int>>)
      requires game.Valid() && |runs| == 4 && forall d :: 0 <= d < 4 ==> |runs[d]| >= numRuns
      ensures |totals| == 4 && IsBest(totals, best)
      ensures forall d :: 0 <= d < 4 ==> (totals[d].None? <==> numRuns > 0 && !Opens(game.grid[..], d))
      ensures forall d :: 0 <= d < 4 && totals[d].Some? ==> totals[d].value >= (if numRuns > 0 then numRuns else 0) * game.score
      ensures numRuns <= 0 ==> best == 0
    {
      var highScore := 0;
      best := 0;
      totals := [];
      for dir := 0 to 4
        invariant |totals| == dir && 0 <= best < 4 && highScore >= 0
        invariant forall e :: 0 <= e < dir && totals[e].Some? ==> totals[e].value <= highScore
        invariant highScore > 0 ==> best < dir && totals[best] == Some(highScore)
        invariant highScore > 0 ==> forall e :: 0 <= e < best && totals[e].Some? ==> totals[e].value < highScore
        invariant highScore == 0 ==> best == 0 && !SomePositive(totals)
        invariant forall d :: 0 <= d < dir ==> (totals[d].None? <==> numRuns > 0 && !Opens(game.grid[..], d))
        invariant forall d :: 0 <= d < dir && totals[d].Some? ==> totals[d].value >= (if numRuns > 0 then numRuns else 0) * game.score
        invariant numRuns <= 0 ==> forall d :: 0 <= d < dir ==> totals[d] == Some(0)
      {
        ghost var scores;
        var score;
        score, scores := RunSimulation(dir, runs[dir]);
        if score.Some? {
          TotalAtLeast(scores, game.score);
        }
        totals := totals + [score];
        if score.Some? && score.value > highScore {
          highScore := score.value;
          best := dir;
        }
      }
    }
  }
}
