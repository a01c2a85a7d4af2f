/**
 * A player of the session (`Player.cs`): a name, a score that the rules keep
 * at zero or above, whether the player is the one taking the turn, and
 * whether the player has struck the cue ball during that turn.
 */
module Players {
  import opened Settle

  /** The value `CalculateScore` leaves: the old score plus the change, never below zero. */
  function Clamped(s: int): (r: int)
    ensures r >= 0
    ensures s >= 0 ==> r == s
    ensures s < 0 ==> r == 0
  {
    if s < 0 then 0 else s
  }

  class Player {
    const name: string
    var score: int
    var hasStruckBall: bool
    var isPlaying: bool

    /** A new player has no score and is neither playing nor has struck (C# defaults). */
    constructor (name: string)
      ensures this.name == name
      ensures score == 0 && !hasStruckBall && !isPlaying
    {
      this.name := name;
      score := 0;
      hasStruckBall := false;
      isPlaying := false;
    }

    /**
     * The player's subscription to ball-action events: a Striked event marks
     * the player as having struck, but only while the player is playing.
     */
    method OnCueBallStriked(ev: BallState)
      modifies this`hasStruckBall
      ensures hasStruckBall == (old(hasStruckBall) || (isPlaying && ev == Striked))
    {
      if isPlaying && ev == Striked {
        hasStruckBall := true;
      }
    }

    method SetPlayingState(playing: bool)
      modifies this`isPlaying, this`hasStruckBall
      ensures isPlaying == playing && !hasStruckBall
    {
      isPlaying := playing;
      hasStruckBall := false;
    }

    /** Adds `delta` to the score and clamps the result at zero. */
    method CalculateScore(delta: int)
      modifies this`score
      ensures score == Clamped(old(score) + delta)
      ensures score >= 0
      ensures old(score) >= 0 && delta >= 0 ==> score == old(score) + delta
    {
      score := score + delta;
      if score < 0 {
        score := 0;
      }
    }

    method ResetScore()
      modifies this`score
      ensures score == 0
    {
      score := 0;
    }
  }
}
