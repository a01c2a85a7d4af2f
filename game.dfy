/**
 * The session and turn resolver (`GameManager`) and the per-ball controller
 * (`CueBallController`) of the pool game.
 *
 * The session keeps the queue of players (the front player takes the turn),
 * the balls pocketed and the balls knocked onto the floor since the last
 * resolution, and the count of balls in motion. Every ball polls its
 * rigid body once per physics tick; when the last moving ball comes to
 * rest the session resolves the turn: a pocketed cue ball is a foul, newly
 * pocketed object balls score for the player who keeps the turn, and
 * otherwise the turn passes on.
 *
 * Balls and players are objects: their identity is their reference. The
 * session is passed to the ball methods that use it. The session also knows
 * every ball that subscribed to ball-action events, so that the effect of a
 * "Stationary" broadcast (every ball returns to Default) is applied in place.
 */
module Game {
  import opened Basics
  import opened Settle
  import opened Players

  datatype GameType = JustCue | ThreeBall | SixBall | SevenBall

  /** `(int)_gameType`: the number of balls whose pocketing completes the game. */
  function BallCount(t: GameType): (n: nat)
    ensures 1 <= n <= 7
  {
    match t
    case JustCue => 1
    case ThreeBall => 3
    case SixBall => 6
    case SevenBall => 7 // no explicit value: the one after SixBall = 6
  }

  /** `GameManager.GameState`; `Unset` is the enum's zero value, which names no state. */
  datatype GameState = Unset | Practise | GetSet | Play | Pause | Complete

  /** `CueBallController.CueBallType`. */
  datatype BallType =
    | White | Yellow | Blue | Red | Purple | Orange | Green | Burgandy | Black
    | StripedYellow | StripedBlue | StripedRed | StripedPurple | StripedOrange | StripedGreen | StripedBurgandy

  /** Notifications the session sends to the presentation layer, in order. */
  datatype Notice =
    | TurnChanged(player: string)       // GameStateEvent carrying the new front player's name
    | BallsAtRest                       // CueBallActionEvent Stationary
    | GameComplete(winners: seq<string>) // GameStateEvent Complete, after the winners are chosen

  /** What a settle report led to. */
  datatype Outcome =
    | Idle                       // nothing beyond the counter
    | Replaced                   // practice: the cue ball is put back and all balls are at rest
    | Resolved(notices: seq<Notice>)
    | EmptyQueue                 // `Queue.Peek` on an empty queue raised; nothing was resolved

  // ---------------------------------------------------------------------
  // The game's values
  // ---------------------------------------------------------------------

  /**
   * `ChangeGameState(s)` on (current, previous): the state becomes `s`, and
   * the previous state is the one left, unless `s` was current already.
   */
  function NextStates(current: GameState, previous: GameState, s: GameState): (r: (GameState, GameState))
    ensures r.0 == s
    ensures s != current ==> r.1 == current
    ensures s == current ==> r.1 == previous
  {
    if s != current then (s, current) else (current, previous)
  }

  /** Changing to a state twice is the same as changing to it once. */
  lemma NextStatesIdempotent(current: GameState, previous: GameState, s: GameState)
    ensures var once := NextStates(current, previous, s);
      NextStates(once.0, once.1, s) == once
  {
  }

  /** The first white ball in a list (`FirstOrDefault`), by index. */
  function FirstWhite(s: seq<Ball>): (r: Option<nat>)
    ensures r.Some? ==> r.value < |s| && s[r.value].kind == White
    ensures r.Some? ==> forall j :: 0 <= j < r.value ==> s[j].kind != White
    ensures r.None? <==> forall j :: 0 <= j < |s| ==> s[j].kind != White
    decreases |s|
  {
    if s == [] then None
    else if s[0].kind == White then Some(0)
    else match FirstWhite(s[1..])
      case None => None
      case Some(i) => Some(i + 1)
  }


  /** The number of listed balls whose object is not yet flagged as pocketed in a previous turn. */
  function CountFresh(s: seq<Ball>): (r: nat)
    reads s`pocketedInPrevTurn
    ensures r <= |s|
    ensures r == 0 <==> forall j :: 0 <= j < |s| ==> s[j].pocketedInPrevTurn
    decreases |s|
  {
    if s == [] then 0
    else (if s[0].pocketedInPrevTurn then 0 else 1) + CountFresh(s[1..])
  }

  /** The number of listed balls that `flags` does not mark. */
  function CountUnflagged(s: seq<Ball>, flags: map<Ball, bool>): (r: nat)
    ensures r <= |s|
    ensures r == 0 <==> forall j :: 0 <= j < |s| ==> s[j] in flags && flags[s[j]]
    decreases |s|
  {
    if s == [] then 0
    else (if s[0] in flags && flags[s[0]] then 0 else 1) + CountUnflagged(s[1..], flags)
  }

  /** Counting on the balls themselves agrees with counting on a record of their flags. */
  lemma {:induction false} CountFreshIsUnflagged(s: seq<Ball>, flags: map<Ball, bool>)
    requires forall j :: 0 <= j < |s| ==> s[j] in flags && flags[s[j]] == s[j].pocketedInPrevTurn
    ensures CountFresh(s) == CountUnflagged(s, flags)
    decreases |s|
  {
    if s != [] {
      assert forall j :: 0 <= j < |s| - 1 ==> s[1..][j] == s[j + 1];
      CountFreshIsUnflagged(s[1..], flags);
    }
  }

  /** How a resolution judges the turn. */
  datatype Verdict =
    | NoShot          // the front player did not strike: nothing is scored
    | Foul(at: nat)   // the cue ball, found at this index, was pocketed
    | Scored(points: nat)
    | Miss            // nothing new was pocketed

  function Judge(struck: bool, white: Option<nat>, unflagged: nat): (v: Verdict)
    ensures v.NoShot? <==> !struck
    // the foul takes precedence over anything else pocketed in the same turn
    ensures v.Foul? <==> struck && white.Some?
    ensures v.Foul? ==> v.at == white.value
    ensures v.Scored? <==> struck && white.None? && unflagged > 0
    ensures v.Scored? ==> v.points == unflagged
  {
    if !struck then NoShot
    else if white.Some? then Foul(white.value)
    else if unflagged > 0 then Scored(unflagged)
    else Miss
  }

  /** The turn passes on after a foul or a miss, and only then. */
  predicate Rotates(v: Verdict)
  {
    v.Foul? || v.Miss?
  }

  /** A player's score in a score table; a player without an entry has none. */
  function ScoreIn(scores: map<Player, int>, p: Player): int
  {
    if p in scores then scores[p] else 0
  }

  /**
   * The session as plain values: the queue of players (front first), each
   * player's score, playing and struck flags, the pocketed and hit-out
   * lists, the count of balls in motion (`NumOfBallsStriked`), each
   * subscribed ball's "pocketed in a previous turn" flag and settle state,
   * and the winners. The methods of `GameSession` are specified by what
   * they do to this record.
   */
  datatype Snapshot = Snapshot(
    queue: seq<Player>,
    scores: map<Player, int>, playing: map<Player, bool>, struck: map<Player, bool>,
    pocketed: seq<Ball>, hitOut: seq<Ball>, inMotion: int,
    flags: map<Ball, bool>, states: map<Ball, BallState>,
    winners: seq<string>)
  {
    function Score(p: Player): int { ScoreIn(scores, p) }
    predicate Struck(p: Player) { p in struck && struck[p] }
    predicate Flag(b: Ball) { b in flags && flags[b] }
    function StateOf(b: Ball): BallState { if b in states then states[b] else Default }
  }

  /**
   * The players with a score are exactly the queued ones, and every listed
   * ball is subscribed: what the steps of a resolution need of the objects.
   */
  predicate Linked(w: Snapshot)
  {
    && w.scores.Keys == (set p | p in w.queue)
    && (forall b :: b in w.pocketed ==> b in w.flags)
    && (forall b :: b in w.hitOut ==> b in w.flags)
  }

  /**
   * The session invariant, on values: the links above, no player queued
   * twice, no ball listed twice in a list nor in both lists, every score at
   * zero or above, and one entry per player and per ball in each table.
   */
  predicate Sound(w: Snapshot)
  {
    && Linked(w)
    && NoDuplicates(w.queue) && NoDuplicates(w.pocketed) && NoDuplicates(w.hitOut)
    && (forall b :: b in w.hitOut ==> b !in w.pocketed)
    && w.scores.Keys == w.playing.Keys == w.struck.Keys
    && (forall p :: p in w.scores ==> w.scores[p] >= 0)
    && w.flags.Keys == w.states.Keys
  }

  /** The verdict a resolution from `w` reaches. */
  function VerdictOf(w: Snapshot): (v: Verdict)
    ensures v.Foul? ==> v.at < |w.pocketed| && w.pocketed[v.at].kind == White
  {
    if w.queue == [] then NoShot
    else Judge(w.Struck(w.queue[0]), FirstWhite(w.pocketed), CountUnflagged(w.pocketed, w.flags))
  }

  // ----- the steps of a resolution, on values -----

  /** `CalculateScore(delta)` on player `p`. */
  function AddScore(w: Snapshot, p: Player, delta: int): Snapshot
  {
    w.(scores := w.scores[p := Clamped(w.Score(p) + delta)])
  }

  /** `m` with every ball of `s` mapped to `v`, one ball after the other. */
  function SetEach<V>(m: map<Ball, V>, s: seq<Ball>, v: V): map<Ball, V>
    decreases |s|
  {
    if s == [] then m else SetEach(m, s[..|s| - 1], v)[s[|s| - 1] := v]
  }

  /** Setting every ball of `s` adds exactly the balls of `s` and changes exactly their entries. */
  lemma {:induction false} SetEachEffect<V>(m: map<Ball, V>, s: seq<Ball>, v: V)
    ensures SetEach(m, s, v).Keys == m.Keys + (set b | b in s)
    ensures forall b :: b in SetEach(m, s, v) ==> SetEach(m, s, v)[b] == if b in s then v else m[b]
    decreases |s|
  {
    if s != [] {
      var init := s[..|s| - 1];
      SetEachEffect(m, init, v);
      assert s == init + [s[|s| - 1]];
    }
  }

  /** `PlaceBallInInitialPos` on `b`: the ball loses its flag and is Placing, and no ball is counted in motion. */
  function PutBack(w: Snapshot, b: Ball): Snapshot
  {
    w.(flags := w.flags[b := false], states := w.states[b := Placing], inMotion := 0)
  }

  /** Every ball of `s` is put back. */
  function PutBackEach(w: Snapshot, s: seq<Ball>): Snapshot
  {
    w.(flags := SetEach(w.flags, s, false), states := SetEach(w.states, s, Placing),
       inMotion := if s == [] then w.inMotion else 0)
  }

  /** Every ball of `s` flagged as pocketed in a previous turn. */
  function SetFlags(w: Snapshot, s: seq<Ball>): Snapshot
  {
    w.(flags := SetEach(w.flags, s, true))
  }

  /** `SetNewPlayerTurn`: the front player goes to the back of the queue. */
  function Rotated(w: Snapshot): Snapshot
  {
    if w.queue == [] then w else w.(queue := Rotate(w.queue))
  }

  /**
   * The foul branch: the front player loses a point, the cue ball at `at`
   * leaves the pocketed list, the remaining pocketed balls are flagged, the
   * cue ball is put back and the turn passes on.
   */
  function Fouled(w: Snapshot, at: nat): Snapshot
    requires w.queue != [] && at < |w.pocketed|
  {
    var u := AddScore(w, w.queue[0], -1).(pocketed := RemoveAt(w.pocketed, at));
    Rotated(PutBack(SetFlags(u, u.pocketed), w.pocketed[at]))
  }

  /** The scoring branch: `k` points for the front player, and every pocketed ball flagged. */
  function ScoredFor(w: Snapshot, k: nat): Snapshot
    requires w.queue != []
  {
    var u := AddScore(w, w.queue[0], k);
    SetFlags(u, u.pocketed)
  }

  /** The verdict of a turn in which the front player struck, applied. */
  function Judged(w: Snapshot): Snapshot
    requires w.queue != []
  {
    match VerdictOf(w)
    case NoShot => w
    case Foul(at) => Fouled(w, at)
    case Scored(k) => ScoredFor(w, k)
    case Miss => Rotated(w)
  }

  /** When the front player struck: the verdict applied, then the hit-out balls put back. */
  function Turn(w: Snapshot): Snapshot
  {
    if w.queue == [] || VerdictOf(w).NoShot? then w
    else PutBackEach(Judged(w), w.hitOut)
  }

  /** Only the front player of `q` is playing. */
  function FrontOnly(playing: map<Player, bool>, q: seq<Player>): map<Player, bool>
  {
    map p | p in playing :: q != [] && p == q[0]
  }

  /** Nobody has struck. */
  function NoneStruck(struck: map<Player, bool>): map<Player, bool>
  {
    map p | p in struck :: false
  }

  /** Only the front player is playing, and nobody has struck. */
  function Reset(w: Snapshot): Snapshot
  {
    w.(playing := FrontOnly(w.playing, w.queue), struck := NoneStruck(w.struck))
  }

  /** Every ball back to Default: the effect of a Stationary broadcast. */
  function AllDefault(states: map<Ball, BallState>): map<Ball, BallState>
  {
    map b | b in states :: Default
  }

  function AllAtRest(w: Snapshot): Snapshot
  {
    w.(states := AllDefault(w.states))
  }

  /** The score a player needs to win: the highest score, and never below 0. */
  function TopScore(q: seq<Player>, scores: map<Player, int>): (m: int)
    ensures m >= 0
    ensures forall i :: 0 <= i < |q| ==> ScoreIn(scores, q[i]) <= m
    decreases |q|
  {
    if q == [] then 0
    else
      var m := TopScore(q[..|q| - 1], scores);
      var s := ScoreIn(scores, q[|q| - 1]);
      if s >= m then s else m
  }

  /** The winning score is 0 or some queued player's score. */
  lemma {:induction false} TopScoreAttained(q: seq<Player>, scores: map<Player, int>)
    ensures TopScore(q, scores) == 0 || exists i :: 0 <= i < |q| && ScoreIn(scores, q[i]) == TopScore(q, scores)
    decreases |q|
  {
    if q != [] {
      var init := q[..|q| - 1];
      TopScoreAttained(init, scores);
      if TopScore(q, scores) != ScoreIn(scores, q[|q| - 1]) && TopScore(init, scores) != 0 {
        var i :| 0 <= i < |init| && ScoreIn(scores, init[i]) == TopScore(init, scores);
        assert q[i] == init[i];
      }
    }
  }

  /** The names of the queued players, in queue order, whose score is `m`. */
  function ScorersOf(q: seq<Player>, scores: map<Player, int>, m: int): (names: seq<string>)
    ensures |names| <= |q|
    decreases |q|
  {
    if q == [] then []
    else
      var init := ScorersOf(q[..|q| - 1], scores, m);
      if ScoreIn(scores, q[|q| - 1]) == m then init + [q[|q| - 1].name] else init
  }

  /** A name is listed exactly when some queued player with that name has score `m`. */
  lemma {:induction false} ScorersOfMembers(q: seq<Player>, scores: map<Player, int>, m: int)
    ensures forall n :: n in ScorersOf(q, scores, m) <==>
      exists i :: 0 <= i < |q| && q[i].name == n && ScoreIn(scores, q[i]) == m
    decreases |q|
  {
    if q != [] {
      var init := q[..|q| - 1];
      ScorersOfMembers(init, scores, m);
      assert forall i :: 0 <= i < |init| ==> init[i] == q[i];
      forall n | exists i :: 0 <= i < |q| && q[i].name == n && ScoreIn(scores, q[i]) == m
        ensures n in ScorersOf(q, scores, m)
      {
        var i :| 0 <= i < |q| && q[i].name == n && ScoreIn(scores, q[i]) == m;
        if i < |init| {
          assert init[i].name == n;
        }
      }
    }
  }

  /** `OnGameComplete`: the names of the players with the winning score. */
  function Winners(q: seq<Player>, scores: map<Player, int>): seq<string>
  {
    ScorersOf(q, scores, TopScore(q, scores))
  }

  /**
   * The winners are exactly the players with the highest score; with every
   * score at zero or above, a non-empty queue has at least one winner.
   */
  lemma WinnersAreTopScorers(q: seq<Player>, scores: map<Player, int>)
    requires forall i :: 0 <= i < |q| ==> ScoreIn(scores, q[i]) >= 0
    ensures forall n :: n in Winners(q, scores) <==>
      exists i :: 0 <= i < |q| && q[i].name == n && ScoreIn(scores, q[i]) == TopScore(q, scores)
    ensures q != [] ==> Winners(q, scores) != []
  {
    var m := TopScore(q, scores);
    ScorersOfMembers(q, scores, m);
    TopScoreAttained(q, scores);
    if q != [] && m == 0 {
      assert q[0].name in Winners(q, scores);
    } else if q != [] {
      var i :| 0 <= i < |q| && ScoreIn(scores, q[i]) == m;
      assert q[i].name in Winners(q, scores);
    }
  }

  /**
   * The end of every resolution: the hit-out list is cleared, only the front
   * player is playing, and either the pocketed list holds `count` balls and
   * the winners are chosen, or every ball is told that all is at rest.
   */
  function Finish(w: Snapshot, count: nat): Snapshot
  {
    Completion(Reset(w.(hitOut := [])), count)
  }

  /** `IsGameComplete` decides between choosing the winners and the Stationary broadcast. */
  function Completion(u: Snapshot, count: nat): Snapshot
  {
    if |u.pocketed| == count then u.(winners := Winners(u.queue, u.scores)) else AllAtRest(u)
  }

  /** `AddToBallPocketedList` as written: `b` is appended unless already listed, and stays in the hit-out list. */
  function PocketedAsWritten(w: Snapshot, b: Ball): Snapshot
  {
    w.(pocketed := if b in w.pocketed then w.pocketed else w.pocketed + [b])
  }

  /** `AddToBallPocketedList` as the session uses it: as written, and `b` leaves the hit-out list. */
  function Pocketed(w: Snapshot, b: Ball): Snapshot
  {
    PocketedAsWritten(w, b).(hitOut := Without(w.hitOut, b))
  }

  /** Both lists emptied. */
  function Cleared(w: Snapshot): Snapshot
  {
    w.(pocketed := [], hitOut := [])
  }

  /** `ResetScore` on every player. */
  function ZeroScores(w: Snapshot): Snapshot
  {
    w.(scores := map p | p in w.scores :: 0)
  }

  /** `OnPlay` on values: both lists emptied, every score zero, and the cue ball put back. */
  function Started(w: Snapshot, cue: Ball): Snapshot
  {
    PutBack(ZeroScores(Cleared(w)), cue)
  }

  /**
   * `CalculateThePointAndNextTurn` from `w` in a game of `count` balls: the
   * new session and the notices sent, in order. An empty queue makes
   * `Peek` raise before anything has changed.
   */
  function Resolve(w: Snapshot, count: nat): (Snapshot, Outcome)
  {
    if w.queue == [] then (w, EmptyQueue)
    else
      var t := Finish(Turn(w), count);
      (t, Resolved(Handover(VerdictOf(w), t.queue) + [Closing(t, count)]))
  }

  /** The turn-change notice for verdict `v`, naming the front of the rotated queue `q`. */
  function Handover(v: Verdict, q: seq<Player>): seq<Notice>
  {
    if Rotates(v) && q != [] then [TurnChanged(q[0].name)] else []
  }

  /** The last notice of a resolution that ended in `t`: the game is complete, or all is at rest. */
  function Closing(t: Snapshot, count: nat): Notice
  {
    if |t.pocketed| == count then GameComplete(t.winners) else BallsAtRest
  }

  /**
   * `ReadyForNextRound` from `w` in game state `current`: the new session
   * and what happened. `cue` is the session's cue ball.
   */
  function Report(w: Snapshot, cue: Ball, current: GameState, count: nat): (Snapshot, Outcome)
  {
    if current == Practise then (AllAtRest(PutBack(w, cue)), Replaced)
    else if current == Play || current == Pause then
      if w.inMotion - 1 == 0 then Resolve(w.(inMotion := 0), count)
      else (w.(inMotion := w.inMotion - 1), Idle)
    else (w, Idle)
  }

  /**
   * One `FixedUpdate` tick of ball `b`, whose rigid body is `sleeping`: the
   * ball's state follows `Tick`, a ball that starts moving is counted in
   * Play, and a ball that comes to rest reports and then becomes Stationary,
   * unless the report raised.
   */
  function Polled(w: Snapshot, b: Ball, sleeping: bool, cue: Ball, current: GameState, count: nat): (Snapshot, Outcome)
  {
    var step := Tick(w.StateOf(b), sleeping);
    match step.effect
    case NoEffect => (w.(states := w.states[b := step.next]), Idle)
    case CountStrike =>
      (w.(states := w.states[b := step.next], inMotion := w.inMotion + if current == Play then 1 else 0), Idle)
    case Settled =>
      var res := Report(w, cue, current, count);
      (if res.1 == EmptyQueue then res.0 else res.0.(states := res.0.states[b := Stationary]), res.1)
  }


  // ---------------------------------------------------------------------
  // The session invariant is kept
  // ---------------------------------------------------------------------

  lemma AddScoreKeepsSound(w: Snapshot, p: Player, delta: int)
    requires Sound(w) && p in w.scores
    ensures Sound(AddScore(w, p, delta))
  {
  }

  lemma RotatedKeepsSound(w: Snapshot)
    requires Sound(w)
    ensures Sound(Rotated(w))
  {
    if w.queue != [] {
      RotateKeepsNoDuplicates(w.queue);
      RotateSameMembers(w.queue);
    }
  }

  lemma PutBackKeepsSound(w: Snapshot, b: Ball)
    requires Sound(w) && b in w.flags
    ensures Sound(PutBack(w, b)) && PutBack(w, b).flags.Keys == w.flags.Keys
  {
  }

  lemma PutBackEachKeepsSound(w: Snapshot, s: seq<Ball>)
    requires Sound(w) && forall b :: b in s ==> b in w.flags
    ensures Sound(PutBackEach(w, s)) && PutBackEach(w, s).flags.Keys == w.flags.Keys
  {
    SetEachEffect(w.flags, s, false);
    SetEachEffect(w.states, s, Placing);
  }

  /** Putting balls back leaves the queue alone. */
  lemma PutBackEachKeepsQueue(w: Snapshot, s: seq<Ball>)
    ensures PutBackEach(w, s).queue == w.queue
  {
  }

  lemma SetFlagsKeepsSound(w: Snapshot, s: seq<Ball>)
    requires Sound(w) && forall b :: b in s ==> b in w.flags
    ensures Sound(SetFlags(w, s)) && SetFlags(w, s).flags.Keys == w.flags.Keys
  {
    SetEachEffect(w.flags, s, true);
  }

  lemma FouledKeepsSound(w: Snapshot, at: nat)
    requires Sound(w) && w.queue != [] && at < |w.pocketed|
    ensures Sound(Fouled(w, at)) && Fouled(w, at).flags.Keys == w.flags.Keys
  {
    var front := w.queue[0];
    assert front in w.scores;
    var u := AddScore(w, front, -1).(pocketed := RemoveAt(w.pocketed, at));
    AddScoreKeepsSound(w, front, -1);
    RemoveAtMembership(w.pocketed, at);
    SetFlagsKeepsSound(u, u.pocketed);
    PutBackKeepsSound(SetFlags(u, u.pocketed), w.pocketed[at]);
    RotatedKeepsSound(PutBack(SetFlags(u, u.pocketed), w.pocketed[at]));
  }

  /** Applying the verdict keeps the session sound and the set of subscribed balls. */
  lemma TurnKeepsSound(w: Snapshot)
    requires Sound(w)
    ensures Sound(Turn(w)) && Turn(w).flags.Keys == w.flags.Keys
  {
    if w.queue != [] {
      var front := w.queue[0];
      assert front in w.scores;
      match VerdictOf(w)
      case NoShot =>
      case Foul(at) =>
        FouledKeepsSound(w, at);
        PutBackEachKeepsSound(Fouled(w, at), w.hitOut);
      case Scored(k) =>
        AddScoreKeepsSound(w, front, k);
        SetFlagsKeepsSound(AddScore(w, front, k), w.pocketed);
        PutBackEachKeepsSound(ScoredFor(w, k), w.hitOut);
      case Miss =>
        RotatedKeepsSound(w);
        PutBackEachKeepsSound(Rotated(w), w.hitOut);
    }
  }

  lemma RotatedKeepsLinked(w: Snapshot)
    requires Linked(w)
    ensures Linked(Rotated(w))
  {
    if w.queue != [] {
      RotateSameMembers(w.queue);
      assert (set p | p in Rotate(w.queue)) == (set p | p in w.queue);
    }
  }

  lemma FouledKeepsLinked(w: Snapshot, at: nat)
    requires Linked(w) && w.queue != [] && at < |w.pocketed|
    ensures Linked(Fouled(w, at))
  {
    var u := AddScore(w, w.queue[0], -1).(pocketed := RemoveAt(w.pocketed, at));
    RemoveAtSubset(w.pocketed, at);
    SetEachEffect(u.flags, u.pocketed, true);
    RotatedKeepsLinked(PutBack(SetFlags(u, u.pocketed), w.pocketed[at]));
  }

  /** Applying the verdict keeps the players and the listed balls linked. */
  lemma JudgedKeepsLinked(w: Snapshot)
    requires Linked(w) && w.queue != []
    ensures Linked(Judged(w))
  {
    match VerdictOf(w)
    case NoShot =>
    case Foul(at) =>
      FouledKeepsLinked(w, at);
    case Scored(k) =>
      SetEachEffect(w.flags, w.pocketed, true);
    case Miss =>
      RotatedKeepsLinked(w);
  }

  lemma TurnKeepsLinked(w: Snapshot)
    requires Linked(w)
    ensures Linked(Turn(w))
  {
    if w.queue != [] && !VerdictOf(w).NoShot? {
      JudgedKeepsLinked(w);
      SetEachEffect(Judged(w).flags, w.hitOut, false);
    }
  }

  /** The verdict applied queues the same players. */
  lemma TurnKeepsQueued(w: Snapshot)
    ensures forall p :: p in Turn(w).queue <==> p in w.queue
  {
    if w.queue != [] && !VerdictOf(w).NoShot? {
      RotateSameMembers(w.queue);
    }
  }

  lemma ResetKeepsSound(w: Snapshot)
    requires Sound(w)
    ensures Sound(Reset(w)) && Reset(w).flags == w.flags
  {
    assert FrontOnly(w.playing, w.queue).Keys == w.playing.Keys;
    assert NoneStruck(w.struck).Keys == w.struck.Keys;
  }

  lemma AllAtRestKeepsSound(w: Snapshot)
    requires Sound(w)
    ensures Sound(AllAtRest(w)) && AllAtRest(w).flags == w.flags
  {
    assert AllDefault(w.states).Keys == w.states.Keys;
  }

  lemma CompletionKeepsSound(w: Snapshot, count: nat)
    requires Sound(w)
    ensures Sound(Completion(w, count)) && Completion(w, count).flags == w.flags
  {
    if |w.pocketed| != count {
      AllAtRestKeepsSound(w);
    }
  }

  lemma FinishKeepsSound(w: Snapshot, count: nat)
    requires Sound(w)
    ensures Sound(Finish(w, count)) && Finish(w, count).flags == w.flags
  {
    ResetKeepsSound(w.(hitOut := []));
    CompletionKeepsSound(Reset(w.(hitOut := [])), count);
  }

  lemma FinishKeepsQueue(t: Snapshot, count: nat)
    ensures Finish(t, count).queue == t.queue
  {
  }

  /** A resolution keeps the session sound (no score ever goes below zero) and the set of subscribed balls. */
  lemma ResolveKeepsSound(w: Snapshot, count: nat)
    requires Sound(w)
    ensures Sound(Resolve(w, count).0) && Resolve(w, count).0.flags.Keys == w.flags.Keys
  {
    TurnKeepsSound(w);
    FinishKeepsSound(Turn(w), count);
  }

  lemma ReportKeepsSound(w: Snapshot, cue: Ball, current: GameState, count: nat)
    requires Sound(w) && cue in w.flags
    ensures Sound(Report(w, cue, current, count).0)
    ensures Report(w, cue, current, count).0.flags.Keys == w.flags.Keys
  {
    if current == Practise {
      PutBackKeepsSound(w, cue);
      AllAtRestKeepsSound(PutBack(w, cue));
    } else if (current == Play || current == Pause) && w.inMotion - 1 == 0 {
      ResolveKeepsSound(w.(inMotion := 0), count);
    }
  }

  lemma PolledKeepsSound(w: Snapshot, b: Ball, sleeping: bool, cue: Ball, current: GameState, count: nat)
    requires Sound(w) && b in w.flags && cue in w.flags
    ensures Sound(Polled(w, b, sleeping, cue, current, count).0)
  {
    var step := Tick(w.StateOf(b), sleeping);
    if step.effect == Settled {
      ReportKeepsSound(w, cue, current, count);
      var res := Report(w, cue, current, count);
      assert b in res.0.states;
    } else {
      assert w.states[b := step.next].Keys == w.states.Keys;
    }
  }

  /** Pocketing a subscribed ball keeps the session sound, the two lists included apart. */
  lemma PocketedKeepsSound(w: Snapshot, b: Ball)
    requires Sound(w) && b in w.flags
    ensures Sound(Pocketed(w, b))
  {
    var p := Pocketed(w, b);
    PocketedLists(w, b);
    if b !in w.pocketed {
      AppendKeepsNoDuplicates(w.pocketed, b);
    }
    assert Linked(p);
  }

  /** Which balls each list holds after pocketing `b`. */
  lemma PocketedLists(w: Snapshot, b: Ball)
    ensures forall x :: x in Pocketed(w, b).pocketed <==> x in w.pocketed || x == b
    ensures forall x :: x in Pocketed(w, b).hitOut <==> x in w.hitOut && x != b
    ensures NoDuplicates(w.hitOut) ==> NoDuplicates(Pocketed(w, b).hitOut)
  {
    WithoutMembership(w.hitOut, b);
  }

  lemma StartedKeepsSound(w: Snapshot, cue: Ball)
    requires Sound(w) && cue in w.flags
    ensures Sound(Started(w, cue))
  {
    assert (map p | p in w.scores :: 0).Keys == w.scores.Keys;
  }

  // ---------------------------------------------------------------------
  // CueBallController
  // ---------------------------------------------------------------------

  class Ball {
    const kind: BallType
    var pocketedInPrevTurn: bool
    var state: BallState

    constructor (kind: BallType)
      ensures this.kind == kind && !pocketedInPrevTurn && state == Default
    {
      this.kind := kind;
      pocketedInPrevTurn := false;
      state := Default;
    }

    /** The ball's subscription to ball-action events: a Stationary broadcast resets it to Default. */
    method OnCueBallEvent(ev: BallState)
      modifies this`state
      ensures state == (if ev == Stationary then Default else old(state))
    {
      if ev == Stationary {
        state := Default;
      }
    }

    /** Puts the ball back (position left out): unflagged, Placing, and no ball counted in motion. */
    method PlaceBallInInitialPos(game: GameSession)
      requires this in game.balls
      modifies this`pocketedInPrevTurn, this`state, game`ballsStruck
      ensures !pocketedInPrevTurn && state == Placing && game.ballsStruck == 0
      ensures game.Snap() == PutBack(old(game.Snap()), this)
    {
      ghost var w := game.Snap();
      pocketedInPrevTurn := false;
      state := Placing;
      game.ballsStruck := 0;
      assert game.Scores() == w.scores && game.Playing() == w.playing && game.Struck() == w.struck;
      assert game.Flags() == w.flags[this := false];
      assert game.States() == w.states[this := Placing];
    }

    /** Practice mode: the ball goes back and every ball is told that all is at rest. */
    method PlaceBallInPosWhilePractise(game: GameSession)
      requires this in game.balls
      modifies this`pocketedInPrevTurn, game`ballsStruck, game.balls`state
      ensures game.Snap() == AllAtRest(PutBack(old(game.Snap()), this))
      ensures old(game.Valid()) ==> game.Valid()
    {
      ghost var w := game.Snap();
      ghost var valid := game.Valid();
      PlaceBallInInitialPos(game);
      if valid {
        PutBackKeepsSound(w, this);
        AllAtRestKeepsSound(game.Snap());
      }
      game.BroadcastAtRest();
    }

    /** A pocket trigger reports this ball. */
    method BallPocketed(game: GameSession)
      requires game.Valid() && this in game.balls
      modifies game`pocketed, game`hitOut
      ensures game.Valid()
      ensures game.pocketed == if this in old(game.pocketed) then old(game.pocketed) else old(game.pocketed) + [this]
      ensures game.hitOut == Without(old(game.hitOut), this)
    {
      game.AddToBallPocketedList(this);
    }

    /** The floor branch of `OnCollisionEnter`: the ball fell off the table. */
    method OnFloorContact(game: GameSession)
      requires game.Valid() && this in game.balls
      modifies game`hitOut
      ensures game.Valid()
      ensures game.hitOut ==
        if this in old(game.hitOut) || this in game.pocketed then old(game.hitOut) else old(game.hitOut) + [this]
    {
      game.AddToBallHitOutList(this);
    }

    /**
     * `OnTriggerEnter` with the cue's collider, followed by `OnStriked` (the
     * force is left out). Only the white ball reacts: it announces Striked,
     * which marks the playing players as having struck, becomes Striked and
     * counts one more ball in motion, whatever the game state.
     */
    method OnCueHit(game: GameSession)
      requires game.Valid()
      modifies this`state, game`ballsStruck, game.seats`hasStruckBall
      ensures game.Valid()
      ensures kind != White ==> state == old(state) && game.ballsStruck == old(game.ballsStruck)
      ensures kind == White ==> state == Striked && game.ballsStruck == old(game.ballsStruck) + 1
      ensures forall p :: p in game.players ==>
        p.hasStruckBall == (old(p.hasStruckBall) || (kind == White && p.isPlaying))
    {
      if kind == White {
        game.BroadcastStriked();
        state := Striked;
        OnStriked(game);
      }
    }

    method OnStriked(game: GameSession)
      requires game.Valid()
      modifies game`ballsStruck
      ensures game.Valid()
      ensures game.ballsStruck == old(game.ballsStruck) + (if kind == White then 1 else 0)
    {
      if kind == White {
        game.CountBallInMotion();
      }
    }

    /** The settle state changes to `s`; nothing else does. */
    method Become(s: BallState, game: GameSession)
      requires this in game.balls
      modifies this`state
      ensures state == s
      ensures game.Snap() == old(game.Snap()).(states := old(game.Snap()).states[this := s])
    {
      ghost var w := game.Snap();
      state := s;
      assert game.Scores() == w.scores && game.Playing() == w.playing && game.Struck() == w.struck;
      assert game.Flags() == w.flags;
      assert game.States() == w.states[this := s];
    }

    /** One physics tick, `sleeping` being the rigid body's state. */
    method FixedUpdate(sleeping: bool, game: GameSession) returns (r: Outcome)
      requires game.Valid() && this in game.balls
      modifies this`state, game`players, game`pocketed, game`hitOut, game`ballsStruck, game`winners
      modifies game.seats`score, game.seats`isPlaying, game.seats`hasStruckBall
      modifies game.balls`pocketedInPrevTurn, game.balls`state
      ensures game.Valid()
      ensures (game.Snap(), r) ==
        Polled(old(game.Snap()), this, sleeping, game.cueBall, old(game.current), BallCount(game.gameType))
    {
      ghost var w := game.Snap();
      assert w.StateOf(this) == state;
      r := Idle;
      if state == Placing && sleeping {
        Become(Default, game);
      } else if state == Default && !sleeping {
        if game.current == Play {
          game.CountBallInMotion();
        }
        Become(Striked, game);
      } else if state == Striked && !sleeping {
        Become(InMotion, game);
      } else if state == Striked && sleeping {
        Become(InMotion, game);
      } else if state == InMotion && sleeping {
        r := game.ReadyForNextRound();
        if r != EmptyQueue {
          Become(Stationary, game);
        }
      } else {
        assert w.states[this := state] == w.states;
      }
      PolledKeepsSound(w, this, sleeping, game.cueBall, old(game.current), BallCount(game.gameType));
    }
  }

  // ---------------------------------------------------------------------
  // GameManager
  // ---------------------------------------------------------------------

  class GameSession {
    const gameType: GameType
    const cueBall: Ball
    /** The balls subscribed to ball-action events. */
    const balls: set<Ball>
    /** Every player of the session, wherever they are in the queue. */
    ghost const seats: set<Player>
    var players: seq<Player>
    var pocketed: seq<Ball>
    var hitOut: seq<Ball>
    var current: GameState
    var previous: GameState
    var ballsStruck: int
    var timesPlayed: nat
    var ballsInstantiated: bool
    var winners: seq<string>

    /** Each player's score. */
    ghost function Scores(): map<Player, int>
      reads seats`score
    {
      map p | p in seats :: p.score
    }

    /** Whether each player is the one playing. */
    ghost function Playing(): map<Player, bool>
      reads seats`isPlaying
    {
      map p | p in seats :: p.isPlaying
    }

    /** Whether each player has struck during the turn. */
    ghost function Struck(): map<Player, bool>
      reads seats`hasStruckBall
    {
      map p | p in seats :: p.hasStruckBall
    }

    /** Each subscribed ball's "pocketed in a previous turn" flag. */
    ghost function Flags(): map<Ball, bool>
      reads balls`pocketedInPrevTurn
    {
      map b | b in balls :: b.pocketedInPrevTurn
    }

    /** Each subscribed ball's settle state. */
    ghost function States(): map<Ball, BallState>
      reads balls`state
    {
      map b | b in balls :: b.state
    }

    /** The session as a value. */
    ghost function Snap(): Snapshot
      reads this`players, this`pocketed, this`hitOut, this`ballsStruck, this`winners
      reads seats`score, seats`isPlaying, seats`hasStruckBall, balls`pocketedInPrevTurn, balls`state
    {
      Snapshot(players, Scores(), Playing(), Struck(), pocketed, hitOut, ballsStruck, Flags(), States(), winners)
    }

    /** The cue ball is subscribed and the session is sound as a value. */
    ghost predicate Valid()
      reads this`players, this`pocketed, this`hitOut, this`ballsStruck, this`winners
      reads seats`score, seats`isPlaying, seats`hasStruckBall, balls`pocketedInPrevTurn, balls`state
    {
      cueBall in balls && Sound(Snap())
    }

    /** `Start`: one new player per configured name, in order, and the Practise state. */
    constructor (gameType: GameType, cue: Ball, balls: set<Ball>, names: seq<string>)
      requires cue in balls
      ensures Valid()
      ensures this.gameType == gameType && cueBall == cue && this.balls == balls
      ensures current == Practise && previous == Unset
      ensures ballsStruck == 0 && timesPlayed == 0 && !ballsInstantiated
      ensures pocketed == [] && hitOut == [] && winners == []
      ensures |players| == |names|
      ensures forall i :: 0 <= i < |names| ==>
        fresh(players[i]) && players[i].name == names[i] &&
        players[i].score == 0 && !players[i].isPlaying && !players[i].hasStruckBall
    {
      var ps: seq<Player> := [];
      var i := 0;
      while i < |names|
        invariant 0 <= i <= |names| && |ps| == i
        invariant NoDuplicates(ps)
        invariant forall j :: 0 <= j < i ==>
          fresh(ps[j]) && ps[j].name == names[j] && ps[j].score == 0 && !ps[j].isPlaying && !ps[j].hasStruckBall
      {
        var p := new Player(names[i]);
        AppendKeepsNoDuplicates(ps, p);
        ps := ps + [p];
        i := i + 1;
      }
      this.gameType := gameType;
      cueBall := cue;
      this.balls := balls;
      seats := set p | p in ps;
      players := ps;
      pocketed := [];
      hitOut := [];
      // ChangeGameState(Practise) from the zero value
      current := Practise;
      previous := Unset;
      ballsStruck := 0;
      timesPlayed := 0;
      ballsInstantiated := false;
      winners := [];
    }

    /** The verdict a resolution would reach now. */
    function CurrentVerdict(): (v: Verdict)
      requires players != []
      reads this`players, this`pocketed, players`hasStruckBall, pocketed`pocketedInPrevTurn
      ensures v.Foul? ==> v.at < |pocketed|
    {
      Judge(players[0].hasStruckBall, FirstWhite(pocketed), CountFresh(pocketed))
    }

    /** What the links of the session's value say about its objects. */
    lemma LinkedObjects()
      requires Linked(Snap())
      ensures forall p :: p in players ==> p in seats
      ensures forall b :: b in pocketed ==> b in balls
      ensures forall b :: b in hitOut ==> b in balls
    {
      assert Snap().scores.Keys == seats;
      assert Snap().flags.Keys == balls;
    }

    /** The verdict computed on the objects is the verdict of the session's value. */
    lemma VerdictMatches()
      requires Linked(Snap()) && players != []
      ensures CurrentVerdict() == VerdictOf(Snap())
    {
      CountFreshIsUnflagged(pocketed, Snap().flags);
    }

    // ----- game state -----

    method ChangeGameState(s: GameState)
      modifies this`current, this`previous
      ensures (current, previous) == NextStates(old(current), old(previous), s)
      ensures Snap() == old(Snap())
    {
      ghost var w := Snap();
      if s != current {
        previous := current;
        current := s;
      }
      assert Scores() == w.scores && Playing() == w.playing && Struck() == w.struck;
      assert Flags() == w.flags && States() == w.states;
    }

    method OnGetSet()
      modifies this`current, this`previous
      ensures (current, previous) == NextStates(old(current), old(previous), GetSet)
    {
      ChangeGameState(GetSet);
    }

    method OnPaused()
      modifies this`current, this`previous
      ensures (current, previous) == NextStates(old(current), old(previous), Pause)
    {
      ChangeGameState(Pause);
    }

    /** Resuming from a pause only changes the state: no score, list or counter is reset. */
    method OnContinue()
      modifies this`current, this`previous
      ensures (current, previous) == NextStates(old(current), old(previous), Play)
    {
      ChangeGameState(Play);
    }

    /** Every queued player's score back to zero. */
    method ResetScores()
      requires Linked(Snap())
      modifies seats`score
      ensures Snap() == ZeroScores(old(Snap()))
    {
      ghost var w := Snap();
      LinkedObjects();
      var i := 0;
      while i < |players|
        invariant 0 <= i <= |players|
        invariant forall p :: p in players[..i] ==> p.score == 0
        invariant Playing() == w.playing && Struck() == w.struck && Flags() == w.flags && States() == w.states
      {
        assert players[..i + 1] == players[..i] + [players[i]];
        players[i].ResetScore();
        i := i + 1;
      }
      assert players[..i] == players;
      assert Scores() == map p | p in w.scores :: 0;
    }

    /** Both lists emptied. */
    method ClearLists()
      modifies this`hitOut, this`pocketed
      ensures Snap() == Cleared(old(Snap()))
    {
      ghost var w := Snap();
      hitOut := [];
      pocketed := [];
      assert Scores() == w.scores && Playing() == w.playing && Struck() == w.struck;
      assert Flags() == w.flags && States() == w.states;
    }

    /**
     * Starts a game: both lists emptied, no ball in motion, one more game
     * played, every score zeroed, state Play, the cue ball put back, and the
     * rack of object balls laid out (`racked`) only the first time.
     */
    method OnPlay() returns (racked: bool)
      requires Valid()
      modifies this`hitOut, this`pocketed, this`ballsStruck, this`timesPlayed, this`current, this`previous
      modifies this`ballsInstantiated, seats`score, cueBall`pocketedInPrevTurn, cueBall`state
      ensures Valid()
      ensures Snap() == Started(old(Snap()), cueBall)
      ensures timesPlayed == old(timesPlayed) + 1
      ensures (current, previous) == NextStates(old(current), old(previous), Play)
      ensures racked == !old(ballsInstantiated) && ballsInstantiated
    {
      ghost var w := Snap();
      ClearLists();
      CountNewGame();
      ResetScores();
      ChangeGameState(Play);
      cueBall.PlaceBallInInitialPos(this);
      racked := RackOnce();
      StartedKeepsSound(w, cueBall);
    }

    /** `NumOfBallsStriked++`. */
    method CountBallInMotion()
      modifies this`ballsStruck
      ensures ballsStruck == old(ballsStruck) + 1
      ensures Snap() == old(Snap()).(inMotion := old(Snap()).inMotion + 1)
    {
      ghost var w := Snap();
      ballsStruck := ballsStruck + 1;
      assert Scores() == w.scores && Playing() == w.playing && Struck() == w.struck;
      assert Flags() == w.flags && States() == w.states;
    }

    /** `NumOfBallsStriked--`. */
    method CountBallAtRest()
      modifies this`ballsStruck
      ensures ballsStruck == old(ballsStruck) - 1
      ensures Snap() == old(Snap()).(inMotion := old(Snap()).inMotion - 1)
    {
      ghost var w := Snap();
      ballsStruck := ballsStruck - 1;
      assert Scores() == w.scores && Playing() == w.playing && Struck() == w.struck;
      assert Flags() == w.flags && States() == w.states;
    }

    /** No ball in motion, and one more game played. */
    method CountNewGame()
      modifies this`ballsStruck, this`timesPlayed
      ensures ballsStruck == 0 && timesPlayed == old(timesPlayed) + 1
      ensures Snap() == old(Snap()).(inMotion := 0)
    {
      ghost var w := Snap();
      ballsStruck := 0;
      timesPlayed := timesPlayed + 1;
      assert Scores() == w.scores && Playing() == w.playing && Struck() == w.struck;
      assert Flags() == w.flags && States() == w.states;
    }

    /** The rack of object balls is laid out (position and prefab left out) in the first game only. */
    method RackOnce() returns (racked: bool)
      modifies this`ballsInstantiated
      ensures racked == !old(ballsInstantiated) && ballsInstantiated
      ensures Snap() == old(Snap())
    {
      ghost var w := Snap();
      racked := !ballsInstantiated;
      if !ballsInstantiated {
        ballsInstantiated := true;
      }
      assert Scores() == w.scores && Playing() == w.playing && Struck() == w.struck;
      assert Flags() == w.flags && States() == w.states;
    }

    /**
     * Pocketing is idempotent: a ball already listed is not added again. A
     * pocketed ball also leaves the hit-out list, so that it is not put back
     * and counted a second time (the code as written leaves it there; see
     * `PocketedAsWritten`).
     */
    method AddToBallPocketedList(b: Ball)
      requires Valid() && b in balls
      modifies this`pocketed, this`hitOut
      ensures Valid()
      ensures pocketed == if b in old(pocketed) then old(pocketed) else old(pocketed) + [b]
      ensures hitOut == Without(old(hitOut), b)
      ensures Snap() == Pocketed(old(Snap()), b)
    {
      ghost var w := Snap();
      PocketedKeepsSound(w, b);
      pocketed, hitOut := if b in pocketed then pocketed else pocketed + [b], Without(hitOut, b);
      assert Scores() == w.scores && Playing() == w.playing && Struck() == w.struck;
      assert Flags() == w.flags && States() == w.states;
    }

    /** A ball goes to the hit-out list only if it is in neither list. */
    method AddToBallHitOutList(b: Ball)
      requires Valid() && b in balls
      modifies this`hitOut
      ensures Valid()
      ensures hitOut == if b in old(hitOut) || b in pocketed then old(hitOut) else old(hitOut) + [b]
    {
      if b !in hitOut && b !in pocketed {
        AppendKeepsNoDuplicates(hitOut, b);
        hitOut := hitOut + [b];
      }
    }

    // ----- the steps of a resolution -----

    /** The front player goes to the back of the queue; the new front is announced. */
    method SetNewPlayerTurn() returns (n: Notice)
      requires players != []
      modifies this`players
      ensures Snap() == Rotated(old(Snap()))
      ensures players != [] && n == TurnChanged(players[0].name)
    {
      ghost var w := Snap();
      // Dequeue the front player and Enqueue it again
      players := Rotate(players);
      assert Scores() == w.scores && Playing() == w.playing && Struck() == w.struck;
      assert Flags() == w.flags && States() == w.states;
      n := TurnChanged(players[0].name);
    }

    /** `CalculateScore(delta)` on the front player. */
    method ScoreFront(delta: int)
      requires Linked(Snap()) && players != []
      modifies seats`score
      ensures Snap() == AddScore(old(Snap()), players[0], delta)
    {
      ghost var w := Snap();
      LinkedObjects();
      players[0].CalculateScore(delta);
      assert Playing() == w.playing && Struck() == w.struck;
      assert Flags() == w.flags && States() == w.states;
      assert Scores() == w.scores[players[0] := Clamped(w.Score(players[0]) + delta)];
    }

    /**
     * `Remove` of the cue ball found at `at`: as no earlier entry is white,
     * its first occurrence is the one at `at`.
     */
    method RemovePocketed(at: nat)
      requires at < |pocketed|
      modifies this`pocketed
      ensures Snap() == old(Snap()).(pocketed := RemoveAt(old(pocketed), at))
    {
      ghost var w := Snap();
      pocketed := RemoveAt(pocketed, at);
      assert Scores() == w.scores && Playing() == w.playing && Struck() == w.struck;
      assert Flags() == w.flags && States() == w.states;
    }

    /** `ForEach(b => b.IsPocketedInPrevTurn = true)` over the pocketed list. */
    method FlagPocketed()
      requires Linked(Snap())
      modifies balls`pocketedInPrevTurn
      ensures Snap() == SetFlags(old(Snap()), pocketed)
    {
      LinkedObjects();
      var i := 0;
      while i < |pocketed|
        invariant 0 <= i <= |pocketed|
        invariant Flags() == SetEach(old(Flags()), pocketed[..i], true)
      {
        assert pocketed[..i + 1][..i] == pocketed[..i];
        pocketed[i].pocketedInPrevTurn := true;
        i := i + 1;
      }
      assert pocketed[..i] == pocketed;
    }

    /** Every hit-out ball is put back on the table. */
    method PlaceHitOutBalls()
      requires Linked(Snap())
      modifies balls`pocketedInPrevTurn, balls`state, this`ballsStruck
      ensures Snap() == PutBackEach(old(Snap()), old(Snap()).hitOut)
    {
      ghost var w := Snap();
      LinkedObjects();
      var i := 0;
      while i < |hitOut|
        invariant 0 <= i <= |hitOut|
        invariant Snap() == PutBackEach(w, hitOut[..i])
      {
        assert hitOut[..i + 1][..i] == hitOut[..i];
        hitOut[i].PlaceBallInInitialPos(this);
        i := i + 1;
      }
      assert hitOut[..i] == hitOut;
    }

    /** `_ballsHitOut.Clear()`. */
    method ClearHitOut()
      modifies this`hitOut
      ensures Snap() == old(Snap()).(hitOut := [])
    {
      ghost var w := Snap();
      hitOut := [];
      assert Scores() == w.scores && Playing() == w.playing && Struck() == w.struck;
      assert Flags() == w.flags && States() == w.states;
    }

    /** Only the front player is playing, and nobody has struck yet. */
    method ResetPlayingStates()
      requires Linked(Snap())
      modifies seats`isPlaying, seats`hasStruckBall
      ensures Snap() == Reset(old(Snap()))
    {
      ghost var w := Snap();
      LinkedObjects();
      var i := 0;
      while i < |players|
        invariant 0 <= i <= |players|
        invariant forall p :: p in players[..i] ==> p.isPlaying == (p == players[0]) && !p.hasStruckBall
        invariant Scores() == w.scores && Flags() == w.flags && States() == w.states
      {
        assert players[..i + 1] == players[..i] + [players[i]];
        players[i].SetPlayingState(players[i] == players[0]);
        i := i + 1;
      }
      assert players[..i] == players;
      assert Playing() == FrontOnly(w.playing, players);
      assert Struck() == NoneStruck(w.struck);
    }

    /** Broadcast of a Striked ball action: every player's handler runs. */
    method BroadcastStriked()
      requires Linked(Snap())
      modifies seats`hasStruckBall
      ensures forall p :: p in players ==> p.hasStruckBall == (old(p.hasStruckBall) || p.isPlaying)
    {
      LinkedObjects();
      var i := 0;
      while i < |players|
        invariant 0 <= i <= |players|
        invariant forall p :: p in players[..i] ==> p.hasStruckBall == (old(p.hasStruckBall) || p.isPlaying)
        invariant forall p :: p in players && p !in players[..i] ==> p.hasStruckBall == old(p.hasStruckBall)
      {
        assert players[..i + 1] == players[..i] + [players[i]];
        players[i].OnCueBallStriked(Striked);
        i := i + 1;
      }
      assert players[..i] == players;
    }

    /** Broadcast of a Stationary ball action: every ball's handler runs. */
    method BroadcastAtRest()
      modifies balls`state
      ensures Snap() == AllAtRest(old(Snap()))
    {
      var pending := balls;
      while pending != {}
        invariant pending <= balls
        invariant forall b :: b in balls && b !in pending ==> b.state == Default
        invariant forall b :: b in pending ==> b.state == old(b.state)
        decreases pending
      {
        var b :| b in pending;
        b.OnCueBallEvent(Stationary);
        pending := pending - {b};
      }
    }

    /** `OnGameComplete`: the first loop finds the winning score, then the winners are filtered. */
    method FindWinners() returns (names: seq<string>)
      requires Linked(Snap())
      ensures names == Winners(players, Scores())
    {
      var m := WinningScore();
      names := ScorersWith(m);
    }

    /** The first loop of `OnGameComplete`: the highest score, starting from 0. */
    method WinningScore() returns (m: int)
      requires Linked(Snap())
      ensures m == TopScore(players, Scores())
    {
      LinkedObjects();
      m := 0;
      var i := 0;
      while i < |players|
        invariant 0 <= i <= |players|
        invariant m == TopScore(players[..i], Scores())
      {
        assert players[..i + 1][..i] == players[..i];
        if players[i].score >= m {
          m := players[i].score;
        }
        i := i + 1;
      }
      assert players[..i] == players;
    }

    /** The second loop of `OnGameComplete`: the names of the players whose score is `m`, in queue order. */
    method ScorersWith(m: int) returns (names: seq<string>)
      requires Linked(Snap())
      ensures names == ScorersOf(players, Scores(), m)
    {
      LinkedObjects();
      names := [];
      var i := 0;
      while i < |players|
        invariant 0 <= i <= |players|
        invariant names == ScorersOf(players[..i], Scores(), m)
      {
        assert players[..i + 1][..i] == players[..i];
        if players[i].score == m {
          names := names + [players[i].name];
        }
        i := i + 1;
      }
      assert players[..i] == players;
    }

    /**
     * `IsGameComplete`: the pocketed list holds exactly the number of balls
     * the game type names, so a game never completes with nothing pocketed.
     */
    function IsGameComplete(): (complete: bool)
      reads this`pocketed
      ensures complete <==> |pocketed| == BallCount(gameType)
      ensures complete ==> pocketed != []
    {
      |pocketed| == BallCount(gameType)
    }

    /** The game is over and the winners are chosen, or every ball is told that all is at rest. */
    method Conclude(turn: seq<Notice>) returns (r: Outcome)
      requires Linked(Snap())
      modifies this`winners, balls`state
      ensures Snap() == Completion(old(Snap()), BallCount(gameType))
      ensures r == Resolved(turn + [Closing(Snap(), BallCount(gameType))])
    {
      if IsGameComplete() {
        ghost var w := Snap();
        winners := FindWinners();
        assert Scores() == w.scores && Playing() == w.playing && Struck() == w.struck;
        assert Flags() == w.flags && States() == w.states;
        r := Resolved(turn + [GameComplete(winners)]);
      } else {
        BroadcastAtRest();
        r := Resolved(turn + [BallsAtRest]);
      }
    }

    // ----- the resolution -----

    /** The foul: the cue ball, at index `at` of the pocketed list, costs the front player a point. */
    method FoulTurn(at: nat) returns (n: Notice)
      requires Linked(Snap()) && players != [] && at < |pocketed|
      modifies this`players, this`pocketed, this`ballsStruck, seats`score
      modifies balls`pocketedInPrevTurn, balls`state
      ensures Snap() == Fouled(old(Snap()), at)
      ensures players != [] && n == TurnChanged(players[0].name)
    {
      ghost var w := Snap();
      var white := pocketed[at];
      LinkedObjects();
      ScoreFront(-1);
      RemovePocketed(at);
      ghost var u := Snap();
      assert u == AddScore(w, w.queue[0], -1).(pocketed := RemoveAt(w.pocketed, at));
      RemoveAtSubset(w.pocketed, at);
      FlagPocketed();
      white.PlaceBallInInitialPos(this);
      assert Snap() == PutBack(SetFlags(u, u.pocketed), w.pocketed[at]);
      n := SetNewPlayerTurn();
    }

    /** New balls pocketed: `k` points for the front player, and every pocketed ball flagged. */
    method ScoreTurn(k: nat)
      requires Linked(Snap()) && players != []
      modifies seats`score, balls`pocketedInPrevTurn
      ensures Snap() == ScoredFor(old(Snap()), k)
    {
      ScoreFront(k);
      FlagPocketed();
    }

    /**
     * The part of the resolution run only when the front player struck:
     * the verdict is applied and the hit-out balls are put back.
     */
    method TakeTurn(v: Verdict) returns (turn: seq<Notice>)
      requires Linked(Snap()) && players != [] && v == VerdictOf(Snap())
      modifies this`players, this`pocketed, this`ballsStruck, seats`score
      modifies balls`pocketedInPrevTurn, balls`state
      ensures Snap() == Turn(old(Snap()))
      ensures turn == Handover(v, Snap().queue)
    {
      ghost var w := Snap();
      if v.NoShot? {
        return [];
      }
      turn := ApplyVerdict(v);
      ghost var a := Snap();
      assert turn == Handover(v, a.queue);
      JudgedKeepsLinked(w);
      PlaceHitOutBalls();
      PutBackEachKeepsQueue(a, a.hitOut);
    }

    /** The foul, the score or the change of turn that the verdict calls for. */
    method ApplyVerdict(v: Verdict) returns (turn: seq<Notice>)
      requires Linked(Snap()) && players != [] && v == VerdictOf(Snap())
      modifies this`players, this`pocketed, this`ballsStruck, seats`score
      modifies balls`pocketedInPrevTurn, balls`state
      ensures Snap() == Judged(old(Snap()))
      ensures turn == if Rotates(v) then [TurnChanged(players[0].name)] else []
    {
      turn := [];
      match v
      case NoShot =>
      case Foul(at) =>
        var n := FoulTurn(at);
        turn := [n];
      case Scored(k) =>
        ScoreTurn(k);
      case Miss =>
        var n := SetNewPlayerTurn();
        turn := [n];
    }

    /**
     * The end of every resolution: the hit-out list is cleared, only the front
     * player is playing, and the game is concluded.
     */
    method WrapUp(turn: seq<Notice>) returns (r: Outcome)
      requires Linked(Snap())
      modifies this`hitOut, this`winners, seats`isPlaying, seats`hasStruckBall, balls`state
      ensures Snap() == Finish(old(Snap()), BallCount(gameType))
      ensures r == Resolved(turn + [Closing(Snap(), BallCount(gameType))])
    {
      ClearHitOut();
      ResetPlayingStates();
      r := Conclude(turn);
    }

    /** The turn resolution, run when no ball is in motion any more. */
    method CalculateThePointAndNextTurn() returns (r: Outcome)
      requires Linked(Snap())
      modifies this`players, this`pocketed, this`hitOut, this`ballsStruck, this`winners
      modifies seats`score, seats`isPlaying, seats`hasStruckBall
      modifies balls`pocketedInPrevTurn, balls`state
      ensures (Snap(), r) == Resolve(old(Snap()), BallCount(gameType))
    {
      ghost var w := Snap();
      if players == [] {
        return EmptyQueue;
      }
      VerdictMatches();
      var v := CurrentVerdict();
      var turn := TakeTurn(v);
      ghost var t := Snap();
      TurnKeepsLinked(w);
      r := WrapUp(turn);
      assert Snap() == Finish(t, BallCount(gameType));
      FinishKeepsQueue(t, BallCount(gameType));
    }

    /**
     * A ball came to rest. In practice the cue ball is put back; in Play or
     * Pause one ball less is in motion, and when none is left the turn is
     * resolved; in any other state nothing happens.
     */
    method ReadyForNextRound() returns (r: Outcome)
      requires Valid()
      modifies this`players, this`pocketed, this`hitOut, this`ballsStruck, this`winners
      modifies seats`score, seats`isPlaying, seats`hasStruckBall
      modifies balls`pocketedInPrevTurn, balls`state
      ensures Valid()
      ensures (Snap(), r) == Report(old(Snap()), cueBall, old(current), BallCount(gameType))
    {
      ghost var w := Snap();
      if current == Practise {
        cueBall.PlaceBallInPosWhilePractise(this);
        r := Replaced;
      } else if current == Play || current == Pause {
        CountBallAtRest();
        if ballsStruck == 0 {
          r := CalculateThePointAndNextTurn();
        } else {
          r := Idle;
        }
      } else {
        r := Idle;
      }
      ReportKeepsSound(w, cueBall, old(current), BallCount(gameType));
    }
  }
}
