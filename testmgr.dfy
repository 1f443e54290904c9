/**
 * src/testmgr.ts: the trial statistics. Only the constructor and
 * `updateStats` are modelled; the trial driver and the console report are not.
 */
module Stats {
  import opened EngineSpec
  import Game

  /** 1 when the largest tile reached the threshold, else 0. */
  function Reached(largest: int, threshold: int): (c: int)
    ensures c == 0 || c == 1
    ensures c == 1 <==> largest >= threshold
  {
    if largest >= threshold then 1 else 0
  }

  class TestManager {
    var highScore: int
    var largest: int
    var totalScore: int
    var totalMoves: int
    var count1024: int
    var count2048: int
    var count4096: int
    var count8192: int
    var numTrials: int
    var numSimRuns: int
    var render: bool

    /** The threshold counters stay nested. */
    ghost predicate Valid()
      reads this
    {
      0 <= count8192 <= count4096 <= count2048 <= count1024
    }

    /** The constructor zeroes every total and counter and keeps the settings. */
    constructor (numTrials: int, numSimRuns: int, render: bool)
      ensures Valid()
      ensures highScore == 0 && largest == 0 && totalScore == 0 && totalMoves == 0
      ensures count1024 == 0 && count2048 == 0 && count4096 == 0 && count8192 == 0
      ensures this.numTrials == numTrials && this.numSimRuns == numSimRuns && this.render == render
    {
      highScore := 0;
      largest := 0;
      totalScore := 0;
      totalMoves := 0;
      count1024 := 0;
      count2048 := 0;
      count4096 := 0;
      count8192 := 0;
      this.numTrials := numTrials;
      this.numSimRuns := numSimRuns;
      this.render := render;
    }

    /**
     * `updateStats(game, numMoves)`: add the game's score and move count to the
     * totals, raise the high score and the largest tile, and count the game
     * once under each threshold its largest tile reached.
     */
    method UpdateStats(game: Game.Game2048, numMoves: int)
      requires Valid()
      modifies this
      ensures Valid()
      ensures totalScore == old(totalScore) + game.score && totalMoves == old(totalMoves) + numMoves
      ensures highScore == Max(old(highScore), game.score) && largest == Max(old(largest), game.largest)
      ensures count1024 == old(count1024) + Reached(game.largest, 1024)
      ensures count2048 == old(count2048) + Reached(game.largest, 2048)
      ensures count4096 == old(count4096) + Reached(game.largest, 4096)
      ensures count8192 == old(count8192) + Reached(game.largest, 8192)
      ensures numTrials == old(numTrials) && numSimRuns == old(numSimRuns) && render == old(render)
    {
      totalScore := totalScore + game.score;
      highScore := Max(highScore, game.score);
      largest := Max(largest, game.largest);
      totalMoves := totalMoves + numMoves;
      if game.largest >= 1024 { count1024 := count1024 + 1; }
      if game.largest >= 2048 { count2048 := count2048 + 1; }
      if game.largest >= 4096 { count4096 := count4096 + 1; }
      if game.largest >= 8192 { count8192 := count8192 + 1; }
    }
  }
}
