/**
 * The rules of pool as the session applies them, stated as properties of a
 * whole resolution (`Game.Resolve`), of a settle report (`Game.Report`) and
 * of one physics tick (`Game.Polled`). The imperative session in module
 * `Game` is proved to do exactly what these functions describe, so each
 * lemma here is a statement about the running game.
 */
module Rules {
  import opened Basics
  import opened Settle
  import opened Players
  import opened Game

  /** The front player struck the cue ball during the turn. */
  predicate FrontStruck(w: Snapshot)
  {
    w.queue != [] && w.Struck(w.queue[0])
  }

  /** The player whose turn it is after the queue has rotated once. */
  function NextUp(q: seq<Player>): Player
    requires q != []
  {
    Rotate(q)[0]
  }

  // ---------------------------------------------------------------------
  // A resolution in two parts: the judged turn, then the wrap-up
  // ---------------------------------------------------------------------

  /** What the wrap-up changes and what it leaves alone. */
  lemma FinishFacts(t: Snapshot, count: nat)
    ensures var f := Finish(t, count);
      && f.queue == t.queue && f.scores == t.scores && f.pocketed == t.pocketed
      && f.flags == t.flags && f.hitOut == [] && f.inMotion == t.inMotion
      && f.playing == FrontOnly(t.playing, t.queue) && f.struck == NoneStruck(t.struck)
      && (|t.pocketed| == count ==> f.winners == Winners(t.queue, t.scores) && f.states == t.states)
      && (|t.pocketed| != count ==> f.winners == t.winners && f.states == AllDefault(t.states))
  {
  }

  /** A resolution from a non-empty queue is the judged turn followed by the wrap-up. */
  lemma ResolveSplit(w: Snapshot, count: nat)
    requires w.queue != []
    ensures var f := Finish(Turn(w), count);
      && Resolve(w, count).0 == f
      && Resolve(w, count).1 == Resolved(Handover(VerdictOf(w), Turn(w).queue) + [Closing(f, count)])
  {
    FinishKeepsQueue(Turn(w), count);
  }

  // ---------------------------------------------------------------------
  // The four verdicts
  // ---------------------------------------------------------------------

  /** The foul branch of the judged turn, in terms of the session before it. */
  lemma FoulBranch(w: Snapshot)
    requires FrontStruck(w) && FirstWhite(w.pocketed).Some? && NoDuplicates(w.pocketed)
    ensures var at := FirstWhite(w.pocketed).value;
      var front := w.queue[0];
      var j := Turn(w);
      && VerdictOf(w) == Foul(at)
      && j.queue == Rotate(w.queue)
      && j.scores == w.scores[front := Clamped(w.Score(front) - 1)]
      && j.pocketed == RemoveAt(w.pocketed, at)
      && w.pocketed[at] !in j.pocketed
      && !j.Flag(w.pocketed[at])
  {
    var at := FirstWhite(w.pocketed).value;
    var front := w.queue[0];
    assert VerdictOf(w) == Foul(at);
    RemoveAtMembership(w.pocketed, at);
    var f := Fouled(w, at);
    assert Turn(w) == PutBackEach(f, w.hitOut);
    assert !f.Flag(w.pocketed[at]);
    SetEachEffect(f.flags, w.hitOut, false);
  }

  /**
   * A pocketed cue ball is a foul, whatever else was pocketed: the front
   * player loses a point (never going below zero), nobody else's score
   * changes, the cue ball leaves the pocketed list and loses its flag, the
   * turn passes to the next player and the first notice says so.
   */
  lemma FoulRule(w: Snapshot, count: nat)
    requires FrontStruck(w) && FirstWhite(w.pocketed).Some? && NoDuplicates(w.pocketed)
    ensures var at := FirstWhite(w.pocketed).value;
      var front := w.queue[0];
      var t := Resolve(w, count).0;
      var r := Resolve(w, count).1;
      && t.queue == Rotate(w.queue)
      && t.Score(front) == Clamped(w.Score(front) - 1)
      && (forall p :: p != front ==> t.Score(p) == w.Score(p))
      && t.pocketed == RemoveAt(w.pocketed, at)
      && w.pocketed[at] !in t.pocketed
      && !t.Flag(w.pocketed[at])
      && r.Resolved? && r.notices[0] == TurnChanged(NextUp(w.queue).name)
  {
    var j := Turn(w);
    ResolveSplit(w, count);
    FinishFacts(j, count);
    FoulBranch(w);
  }

  /** The scoring branch of the judged turn. */
  lemma ScoreBranch(w: Snapshot)
    requires FrontStruck(w) && FirstWhite(w.pocketed).None? && CountUnflagged(w.pocketed, w.flags) > 0
    requires w.Score(w.queue[0]) >= 0
    ensures var front := w.queue[0];
      var j := Turn(w);
      && VerdictOf(w) == Scored(CountUnflagged(w.pocketed, w.flags))
      && j.queue == w.queue
      && j.scores == w.scores[front := w.Score(front) + CountUnflagged(w.pocketed, w.flags)]
      && j.pocketed == w.pocketed
  {
    assert VerdictOf(w) == Scored(CountUnflagged(w.pocketed, w.flags));
  }

  /**
   * Newly pocketed balls score one point each for the front player, who
   * keeps the turn: nobody else's score changes, the queue and the
   * pocketed list stay as they are, and no turn-change notice is sent.
   */
  lemma ScoreRule(w: Snapshot, count: nat)
    requires FrontStruck(w) && FirstWhite(w.pocketed).None? && CountUnflagged(w.pocketed, w.flags) > 0
    requires w.Score(w.queue[0]) >= 0
    ensures var front := w.queue[0];
      var t := Resolve(w, count).0;
      var r := Resolve(w, count).1;
      && t.queue == w.queue
      && t.Score(front) == w.Score(front) + CountUnflagged(w.pocketed, w.flags)
      && (forall p :: p != front ==> t.Score(p) == w.Score(p))
      && t.pocketed == w.pocketed
      && r == Resolved([Closing(t, count)])
  {
    var j := Turn(w);
    ResolveSplit(w, count);
    FinishFacts(j, count);
    ScoreBranch(w);
  }

  /**
   * A turn that pockets nothing new and not the cue ball is a miss: no score
   * changes and the turn passes to the next player.
   */
  lemma MissRule(w: Snapshot, count: nat)
    requires FrontStruck(w) && FirstWhite(w.pocketed).None? && CountUnflagged(w.pocketed, w.flags) == 0
    ensures var t := Resolve(w, count).0;
      var r := Resolve(w, count).1;
      && t.queue == Rotate(w.queue)
      && t.scores == w.scores
      && t.pocketed == w.pocketed
      && r.Resolved? && r.notices[0] == TurnChanged(NextUp(w.queue).name)
  {
    var j := Turn(w);
    ResolveSplit(w, count);
    FinishFacts(j, count);
    assert VerdictOf(w) == Miss;
  }

  /**
   * When the front player has not struck, nothing is judged: the queue,
   * the scores, the pocketed list and every ball's flag stay as they are
   * (the hit-out balls are not put back), and no turn-change notice is sent.
   */
  lemma NoShotRule(w: Snapshot, count: nat)
    requires w.queue != [] && !w.Struck(w.queue[0])
    ensures var t := Resolve(w, count).0;
      var r := Resolve(w, count).1;
      && t.queue == w.queue
      && t.scores == w.scores
      && t.pocketed == w.pocketed
      && t.flags == w.flags
      && r == Resolved([Closing(t, count)])
  {
    ResolveSplit(w, count);
    FinishFacts(w, count);
    assert VerdictOf(w) == NoShot;
  }

  // ---------------------------------------------------------------------
  // What every resolution leaves
  // ---------------------------------------------------------------------

  /**
   * After any resolution the hit-out list is empty, the player at the
   * front of the (possibly rotated) queue is the only one playing, nobody
   * has struck yet, and the last notice closes the resolution.
   */
  lemma ResolutionResets(w: Snapshot, count: nat)
    requires w.queue != []
    ensures var t := Resolve(w, count).0;
      var r := Resolve(w, count).1;
      && t.hitOut == []
      && t.queue != []
      && (forall p :: p in t.playing ==> (t.playing[p] <==> p == t.queue[0]))
      && (forall p :: p in t.struck ==> !t.struck[p])
      && r.Resolved? && r.notices != [] && r.notices[|r.notices| - 1] == Closing(t, count)
  {
    var j := Turn(w);
    ResolveSplit(w, count);
    FinishFacts(j, count);
    TurnKeepsQueued(w);
    assert w.queue[0] in j.queue;
  }

  /**
   * The game is complete exactly when the pocketed list holds as many
   * balls as the game type names, and then the last notice carries the
   * winners; otherwise every ball is back to Default and the winners are
   * untouched.
   */
  lemma CompletionRule(w: Snapshot, count: nat)
    requires w.queue != []
    ensures var t := Resolve(w, count).0;
      var r := Resolve(w, count).1;
      && r.Resolved? && r.notices != []
      && (r.notices[|r.notices| - 1].GameComplete? <==> |t.pocketed| == count)
      && (|t.pocketed| == count ==>
            && r.notices[|r.notices| - 1] == GameComplete(t.winners)
            && t.winners == Winners(t.queue, t.scores))
      && (|t.pocketed| != count ==>
            && t.winners == w.winners
            && forall b :: b in t.states ==> t.states[b] == Default)
  {
    var j := Turn(w);
    ResolveSplit(w, count);
    FinishFacts(j, count);
    assert j.winners == w.winners;
  }

  /**
   * The winners of a completed game are exactly the players with the
   * highest score, and there is at least one.
   */
  lemma WinnersRule(w: Snapshot, count: nat)
    requires Sound(w) && w.queue != []
    ensures var t := Resolve(w, count).0;
      |t.pocketed| == count ==>
        && t.winners != []
        && forall n :: n in t.winners <==>
             exists i :: 0 <= i < |t.queue| && t.queue[i].name == n
               && t.Score(t.queue[i]) == TopScore(t.queue, t.scores)
  {
    var j := Turn(w);
    ResolveSplit(w, count);
    FinishFacts(j, count);
    if |j.pocketed| == count {
      TurnKeepsSound(w);
      TurnKeepsQueued(w);
      assert w.queue[0] in j.queue;
      forall i | 0 <= i < |j.queue|
        ensures ScoreIn(j.scores, j.queue[i]) >= 0
      {
        assert j.queue[i] in j.scores;
      }
      WinnersAreTopScorers(j.queue, j.scores);
    }
  }

  /**
   * A ball is scored in one turn only: after a turn with a shot, every
   * ball left in the pocketed list is flagged, so none of them counts
   * again. This needs the hit-out and pocketed lists to be disjoint, since
   * putting a hit-out ball back clears its flag; every sound session has
   * them disjoint (`PocketedNeverRecounts`).
   */
  lemma NoDoubleCount(w: Snapshot, count: nat)
    requires FrontStruck(w) && NoDuplicates(w.pocketed)
    requires forall b :: b in w.hitOut ==> b !in w.pocketed
    ensures var t := Resolve(w, count).0;
      CountUnflagged(t.pocketed, t.flags) == 0
  {
    var j := Turn(w);
    ResolveSplit(w, count);
    FinishFacts(j, count);
    TurnFlagsPocketed(w);
    FlaggedCountsNothing(j.pocketed, j.flags);
  }

  /**
   * The pocketing the session performs keeps the two lists apart, so a
   * struck turn after it never leaves a pocketed ball to be counted again.
   */
  lemma PocketedNeverRecounts(w: Snapshot, b: Ball, count: nat)
    requires Sound(w) && b in w.flags && FrontStruck(w)
    ensures var t := Resolve(Pocketed(w, b), count).0;
      CountUnflagged(t.pocketed, t.flags) == 0
  {
    PocketedKeepsSound(w, b);
    NoDoubleCount(Pocketed(w, b), count);
  }

  /**
   * `AddToBallPocketedList` as written, on an object ball that already fell
   * on the floor in this turn: the ball is in both lists, the resolution puts
   * it back and clears its flag, yet leaves it in the pocketed list, so the
   * next resolution counts it once more.
   */
  lemma PocketedAsWrittenRecounts(w: Snapshot, b: Ball, count: nat)
    requires FrontStruck(w) && b in w.hitOut && b.kind != White
    ensures var t := Resolve(PocketedAsWritten(w, b), count).0;
      b in t.pocketed && !t.Flag(b) && CountUnflagged(t.pocketed, t.flags) > 0
  {
    var v := PocketedAsWritten(w, b);
    assert b in v.pocketed;
    var j := Judged(v);
    ResolveSplit(v, count);
    JudgedKeepsObjectBall(v, b);
    assert Turn(v) == PutBackEach(j, v.hitOut);
    SetEachEffect(j.flags, v.hitOut, false);
    FinishFacts(Turn(v), count);
    var t := Resolve(v, count).0;
    var i :| 0 <= i < |t.pocketed| && t.pocketed[i] == b;
  }

  /** Judging a struck turn takes no object ball out of the pocketed list. */
  lemma JudgedKeepsObjectBall(w: Snapshot, b: Ball)
    requires FrontStruck(w) && b in w.pocketed && b.kind != White
    ensures b in Judged(w).pocketed
  {
    match VerdictOf(w)
    case Foul(at) =>
      var i :| 0 <= i < |w.pocketed| && w.pocketed[i] == b;
      var r := RemoveAt(w.pocketed, at);
      if i < at { assert r[i] == b; } else { assert r[i - 1] == b; }
    case Scored(k) =>
    case Miss =>
  }

  /** A list whose every ball is flagged counts nothing. */
  lemma FlaggedCountsNothing(s: seq<Ball>, flags: map<Ball, bool>)
    requires forall b :: b in s ==> b in flags && flags[b]
    ensures CountUnflagged(s, flags) == 0
  {
    assert forall j :: 0 <= j < |s| ==> s[j] in s;
  }

  /** After a turn with a shot, every ball of the pocketed list is flagged. */
  lemma TurnFlagsPocketed(w: Snapshot)
    requires FrontStruck(w) && NoDuplicates(w.pocketed)
    requires forall b :: b in w.hitOut ==> b !in w.pocketed
    ensures forall b :: b in Turn(w).pocketed ==> Turn(w).Flag(b)
  {
    var j := Judged(w);
    JudgedFlagsPocketed(w);
    SetEachEffect(j.flags, w.hitOut, false);
  }

  /** Applying a verdict leaves every ball of the pocketed list flagged, and only balls that were pocketed. */
  lemma JudgedFlagsPocketed(w: Snapshot)
    requires FrontStruck(w) && NoDuplicates(w.pocketed)
    ensures forall b :: b in Judged(w).pocketed ==> Judged(w).Flag(b) && b in w.pocketed
  {
    match VerdictOf(w)
    case NoShot =>
    case Foul(at) =>
      FouledFlagsPocketed(w, at);
    case Scored(k) =>
      SetEachEffect(w.flags, w.pocketed, true);
    case Miss =>
      MissedFlagsPocketed(w);
  }

  lemma FouledFlagsPocketed(w: Snapshot, at: nat)
    requires w.queue != [] && at < |w.pocketed| && NoDuplicates(w.pocketed)
    ensures forall b :: b in Fouled(w, at).pocketed ==> Fouled(w, at).Flag(b) && b in w.pocketed
  {
    RemoveAtMembership(w.pocketed, at);
    var u := AddScore(w, w.queue[0], -1).(pocketed := RemoveAt(w.pocketed, at));
    SetEachEffect(u.flags, u.pocketed, true);
  }

  lemma MissedFlagsPocketed(w: Snapshot)
    requires CountUnflagged(w.pocketed, w.flags) == 0
    ensures forall b :: b in Rotated(w).pocketed ==> Rotated(w).Flag(b) && b in w.pocketed
  {
    forall b | b in w.pocketed
      ensures w.Flag(b)
    {
      var i :| 0 <= i < |w.pocketed| && w.pocketed[i] == b;
    }
  }

  /**
   * Balls pocketed in an earlier turn add nothing to the next count: only
   * the balls pocketed since then can score.
   */
  lemma {:induction false} OnlyNewBallsCount(s: seq<Ball>, more: seq<Ball>, flags: map<Ball, bool>)
    requires CountUnflagged(s, flags) == 0
    ensures CountUnflagged(s + more, flags) == CountUnflagged(more, flags)
    decreases |s|
  {
    if s != [] {
      var rest := s[1..];
      assert (s + more)[0] == s[0];
      assert (s + more)[1..] == rest + more;
      assert CountUnflagged(rest, flags) == 0;
      OnlyNewBallsCount(rest, more, flags);
    } else {
      assert s + more == more;
    }
  }

  /**
   * The hit of the cue ball on values: the Striked broadcast marks every
   * playing player as having struck.
   */
  function AfterHit(w: Snapshot): (h: Snapshot)
    ensures forall p :: p in w.struck ==> (h.Struck(p) <==> w.Struck(p) || (p in w.playing && w.playing[p]))
  {
    w.(struck := map p | p in w.struck :: w.Struck(p) || (p in w.playing && w.playing[p]))
  }

  /**
   * As long as nobody is playing, as after `Start` (no player is set
   * playing until the first resolution), a hit of the cue ball marks
   * nobody: the resolution that follows judges nothing, whatever was
   * pocketed, and only then does the front player start playing.
   */
  lemma FirstShotUnjudged(w: Snapshot, count: nat)
    requires w.queue != [] && !w.Struck(w.queue[0])
    requires forall p :: p in w.playing ==> !w.playing[p]
    ensures var t := Resolve(AfterHit(w), count).0;
      && t.queue == w.queue && t.scores == w.scores && t.pocketed == w.pocketed && t.flags == w.flags
      && (forall p :: p in t.playing ==> (t.playing[p] <==> p == w.queue[0]))
  {
    var h := AfterHit(w);
    assert !h.Struck(h.queue[0]);
    NoShotRule(h, count);
    ResolutionResets(h, count);
  }

  // ---------------------------------------------------------------------
  // Settle reports and ticks
  // ---------------------------------------------------------------------

  /**
   * A settle report resolves the turn exactly when the game is being
   * played (or paused) and the ball that settled was the last one counted
   * in motion. In practice it puts the cue ball back and brings every
   * ball to rest; otherwise the players, scores and lists are untouched.
   */
  lemma ReportRule(w: Snapshot, cue: Ball, current: GameState, count: nat)
    ensures var (u, r) := Report(w, cue, current, count);
      && ((r.Resolved? || r == EmptyQueue) <==> (current == Play || current == Pause) && w.inMotion == 1)
      && (r == Replaced <==> current == Practise)
      && (current == Practise ==>
            && !u.Flag(cue)
            && (forall b :: b in u.states ==> u.states[b] == Default)
            && cue in u.states)
      && (r.Idle? || r.Replaced? ==>
            u.queue == w.queue && u.scores == w.scores && u.pocketed == w.pocketed && u.hitOut == w.hitOut)
      && (r.Idle? && (current == Play || current == Pause) ==> u.inMotion == w.inMotion - 1)
      && (current != Practise && current != Play && current != Pause ==> u == w && r == Idle)
  {
  }

  /**
   * A tick that does not settle the ball touches only that ball's state
   * and, when the ball starts moving during play, counts one more ball in
   * motion. A tick that settles it reports, and the ball ends Stationary
   * unless the report raised.
   */
  lemma PolledRule(w: Snapshot, b: Ball, sleeping: bool, cue: Ball, current: GameState, count: nat)
    ensures var (u, r) := Polled(w, b, sleeping, cue, current, count);
      var step := Tick(w.StateOf(b), sleeping);
      && (step.effect != Settled ==>
            && r == Idle
            && u.StateOf(b) == step.next
            && (forall c :: c != b ==> u.StateOf(c) == w.StateOf(c))
            && u.queue == w.queue && u.scores == w.scores && u.pocketed == w.pocketed
            && u.inMotion == w.inMotion
                 + (if w.StateOf(b) == Default && !sleeping && current == Play then 1 else 0))
      && (step.effect == Settled ==>
            && r == Report(w, cue, current, count).1
            && (r != EmptyQueue ==> u.StateOf(b) == Stationary))
  {
  }
}
