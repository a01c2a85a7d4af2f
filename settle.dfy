/**
 * The per-ball settle detector of `CueBallController.FixedUpdate`, written as
 * a transition function over the ball's action state. Its only input per
 * tick is whether the physics engine reports the ball's rigid body as
 * sleeping; besides the new state, a tick may ask the session to count one
 * more ball in motion (`CountStrike`) or to run `ReadyForNextRound`
 * (`Settled`). The imperative `Game.Ball.FixedUpdate` is specified by it.
 */
module Settle {

  /** `CueBallActionEvent.States`; `Default` is the enum's zero value. */
  datatype BallState = Default | Placing | Striked | InMotion | Stationary

  /** What a tick asks of the session besides changing the ball's state. */
  datatype Effect = NoEffect | CountStrike | Settled

  datatype Step = Step(next: BallState, effect: Effect)

  /** One `FixedUpdate` tick, branch for branch. */
  function Tick(st: BallState, sleeping: bool): (r: Step)
    // Placing becomes Default once the body sleeps, and only then
    ensures st == Placing ==> r.next == (if sleeping then Default else Placing)
    // Default starts moving: counted, and becomes Striked
    ensures r.effect == CountStrike <==> st == Default && !sleeping
    ensures st == Default ==> r.next == (if sleeping then Default else Striked)
    // Striked always becomes InMotion on the next tick, whatever the body does
    ensures st == Striked ==> r == Step(InMotion, NoEffect)
    // the only settle: InMotion and sleeping
    ensures r.effect == Settled <==> st == InMotion && sleeping
    ensures st == InMotion ==> r.next == (if sleeping then Stationary else InMotion)
    // Stationary is left alone by ticks
    ensures st == Stationary ==> r == Step(Stationary, NoEffect)
  {
    if st == Placing && sleeping then Step(Default, NoEffect)
    else if st == Default && !sleeping then Step(Striked, CountStrike)
    else if st == Striked && !sleeping then Step(InMotion, NoEffect)
    else if st == Striked && sleeping then Step(InMotion, NoEffect)
    else if st == InMotion && sleeping then Step(Stationary, Settled)
    else Step(st, NoEffect)
  }

  /** A run of ticks with no event in between: the final state and the effects in order. */
  function Run(st: BallState, sleeps: seq<bool>): (r: (BallState, seq<Effect>))
    ensures |r.1| == |sleeps|
    decreases |sleeps|
  {
    if sleeps == [] then (st, [])
    else
      var s := Tick(st, sleeps[0]);
      var rest := Run(s.next, sleeps[1..]);
      (rest.0, [s.effect] + rest.1)
  }

  /** Polling a Stationary ball never fires anything again. */
  lemma {:induction false} StationaryIsQuiet(sleeps: seq<bool>)
    ensures Run(Stationary, sleeps).0 == Stationary
    ensures forall i :: 0 <= i < |sleeps| ==> Run(Stationary, sleeps).1[i] == NoEffect
    decreases |sleeps|
  {
    if sleeps != [] {
      StationaryIsQuiet(sleeps[1..]);
    }
  }

  /**
   * Between two events, a ball asks for `ReadyForNextRound` at most once,
   * however long it is polled.
   */
  lemma {:induction false} SettlesAtMostOnce(st: BallState, sleeps: seq<bool>)
    ensures multiset(Run(st, sleeps).1)[Settled] <= 1
    decreases |sleeps|
  {
    if sleeps != [] {
      var s := Tick(st, sleeps[0]);
      var rest := Run(s.next, sleeps[1..]);
      assert Run(st, sleeps).1 == [s.effect] + rest.1;
      if s.effect == Settled {
        StationaryIsQuiet(sleeps[1..]);
        assert Settled !in rest.1;
        assert multiset(rest.1)[Settled] == 0;
      } else {
        SettlesAtMostOnce(s.next, sleeps[1..]);
      }
    }
  }

  /**
   * Ticks never settle a ball more often than they counted it as struck,
   * except once for a ball that was already Striked or InMotion (a cue ball
   * struck by the cue is counted by `OnStriked`, not by a tick).
   */
  lemma {:induction false} SettlesFollowStrikes(st: BallState, sleeps: seq<bool>)
    ensures var es := Run(st, sleeps).1;
      multiset(es)[Settled] <= multiset(es)[CountStrike] + (if st == Striked || st == InMotion then 1 else 0)
    decreases |sleeps|
  {
    if sleeps != [] {
      var s := Tick(st, sleeps[0]);
      var rest := Run(s.next, sleeps[1..]);
      assert Run(st, sleeps).1 == [s.effect] + rest.1;
      SettlesFollowStrikes(s.next, sleeps[1..]);
      if s.effect == Settled {
        StationaryIsQuiet(sleeps[1..]);
        assert Settled !in rest.1;
      }
    }
  }
}
