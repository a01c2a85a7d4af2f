# Pool rule engine — a Dafny model

This project models the rule engine of a small pool game written for Unity in C#:

- the game session and turn resolver (`GameManager`);
- the players (`Player`);
- the per-ball controller with its settle detector (`CueBallController`);
- a generic finite-state machine (`FSM`);
- the static event registry (`EventManager`).

**Session.** The session keeps a queue of players, and the front player takes the turn. It also keeps:

- the list of balls pocketed since the last resolution;
- the list of balls knocked onto the floor ("hit out");
- a counter of balls in motion (`NumOfBallsStriked`).

**Settling.** Every ball polls its rigid body once per physics tick. During Play, a ball that starts moving is counted, and a struck cue ball is always counted. When the ball that was counted last comes to rest, the session resolves the turn:

- If the front player struck and the cue ball was pocketed, the turn is a foul. The player loses a point (never going below zero), the cue ball goes back on the table, and the turn passes on.
- Otherwise, balls pocketed for the first time score one point each, and the player keeps the turn.
- If nothing new was pocketed, the turn passes on.
- If the front player did not strike, no verdict is applied.

**After every resolution:**

- when the front player struck, the balls that fell off the table are put back; the hit-out list is emptied in every case;
- only the front player is playing;
- nobody has struck yet;
- either the game is complete and the winners are the top scorers, or every ball is told that all is at rest.

**Files.**

| File | What it holds |
|---|---|
| `basics.dfy` | the list operations used by the session: queue rotation, removal at an index, no duplicates |
| `settle.dfy` | the per-tick settle transition as a function, and properties of runs of ticks |
| `players.dfy` | the `Player` class |
| `events.dfy` | the event registry: a map from event name to the ordered list of its callbacks |
| `fsm.dfy` | the state machine, with its hook calls recorded in a ghost trace |
| `game.dfy` | the `Ball` and `GameSession` classes, and the value record `Snapshot` |
| `rules.dfy` | the rules of the game as lemmas about those functions |

In `game.dfy`, the methods that resolve a turn, report a settled ball, run a tick, put balls back and start a game are proved to change the session exactly as a function on `Snapshot` says. The functions are `Resolve`, `Report`, `Polled`, `Started`, `Pocketed` and their parts. The event handlers `OnCueHit`, `OnStriked`, `BroadcastStriked`, `OnCueBallEvent` and `AddToBallHitOutList` are specified field by field instead, by the fields they change. The session invariant is `Sound`:

- no player is queued twice, no ball is listed twice in a list, and no ball is in both the pocketed and the hit-out list;
- every score is at zero or above;
- every listed ball is subscribed.

Every entry point keeps `Sound`, and every step of a resolution is proved equal to a function on `Snapshot` that keeps it (the `*KeepsSound` lemmas). `PlaceBallInPosWhilePractise` keeps it whenever it held before. `PlaceBallInInitialPos` also runs in the middle of a resolution, so its contract states its effect as `PutBack` on the snapshot, and `Game.PutBackKeepsSound` shows that this effect keeps `Sound`.

Balls and players are objects, and their identity is their reference. The session is an explicit object that is passed to the ball methods, in place of the scene singleton. The session's set of subscribed balls (`balls`) stands for the subscribers of the ball-action event, and its set of players (`seats`) is fixed when the session is created. A "Stationary" broadcast is modelled by its effect: every subscribed ball returns to Default. A Striked broadcast is modelled the same way: every playing player is marked as having struck.

Behaviour of the code that a reader might not expect, and how the model treats it:

- `AddState` checks the opposite of what its comment says. The code as written is modelled and its consequence proved (see Findings), and the `Fsm` class uses the registration the comment describes.
- A tick that settles a ball runs `ReadyForNextRound` and then sets the ball to Stationary. So the settling ball ends Stationary even when the resolution has just broadcast that every ball is Default (`Rules.PolledRule`).
- `OnPlay` never marks a player as playing, and nothing else does before the first resolution. So, if no resolution runs between `OnPlay` and the first hit, the first shot of the first game is not judged (`Rules.FirstShotUnjudged`). A resolution can run before that hit: a freshly racked ball starts in Default, is counted when it is awake during Play, and reports when it settles. That resolution finds no shot and marks the front player as playing, and the first shot is then judged.
- `AddToBallHitOutList` refuses a ball that is already pocketed, but `AddToBallPocketedList` does not check the hit-out list. A ball that is hit out first and pocketed later is then in both lists, and putting it back clears its flag while it stays pocketed, so it is counted again (see Findings). The session in this model drops a pocketed ball from the hit-out list, which keeps the lists disjoint, and `Rules.NoDoubleCount` holds for every sound session.
- The in-motion counter is an unbounded `int`. It can go below zero, for example when a ball settles after `PlaceBallInInitialPos` has reset the counter. The model keeps that behaviour: a resolution runs only when the decrement lands exactly on zero.
- `Queue.Peek` on an empty queue raises. This is modelled as the outcome `EmptyQueue`, with nothing changed. The settling ball then stays InMotion, because the exception skips the assignment that follows the call.

## Model

| member | source | states |
|---|---|---|
| Basics.Rotate | Assets/Scripts/Managers/GameManager.cs:296-305 | one turn change keeps the queue's length and elements (as a multiset), moves the front player to the back and keeps the others' order |
| Basics.RotateKeepsNoDuplicates | Assets/Scripts/Managers/GameManager.cs:296-305 | rotating a queue without repeated players yields a queue without repeated players |
| Basics.RemoveAt | Assets/Scripts/Managers/GameManager.cs:203-204 | removing the cue ball keeps every ball before it and shifts every ball after it by one |
| Basics.WithoutMembership | Assets/Scripts/Managers/GameManager.cs:307-312 | dropping a ball from a list removes exactly that ball and keeps the list duplicate-free (the removal the corrected pocketing performs) |
| Basics.RemoveAtMembership | Assets/Scripts/Managers/GameManager.cs:203-204 | in a list without duplicates the removal drops exactly the removed ball and keeps the list duplicate-free |
| Settle.Tick | Assets/Scripts/Controllers/CueBallController.cs:125-156 | Placing becomes Default only when sleeping; Default starts moving (and asks to be counted) only when awake; Striked always becomes InMotion; the only settle is InMotion and sleeping; Stationary is never left by a tick |
| Settle.StationaryIsQuiet | Assets/Scripts/Controllers/CueBallController.cs:147-155 | any number of ticks on a Stationary ball leaves it Stationary and fires nothing |
| Settle.SettlesAtMostOnce | Assets/Scripts/Controllers/CueBallController.cs:147-155 | between two events a ball reports that it came to rest at most once, however long it is polled |
| Settle.SettlesFollowStrikes | Assets/Scripts/Controllers/CueBallController.cs:132-151 | ticks settle a ball no more often than they counted it as moving, plus one for a ball already Striked or InMotion |
| Players.Clamped | Assets/Scripts/Player.cs:37-46 | the score after a change is the sum when that is non-negative and zero otherwise |
| Players.Player.constructor | Assets/Scripts/Player.cs:15-22 | a new player has the given name, score 0, and is neither playing nor marked as having struck |
| Players.Player.OnCueBallStriked | Assets/Scripts/Player.cs:24-29 | the struck mark is set by a Striked event only while the player is playing, and is never cleared here |
| Players.Player.SetPlayingState | Assets/Scripts/Player.cs:31-35 | the playing flag becomes the argument and the struck mark is cleared |
| Players.Player.CalculateScore | Assets/Scripts/Player.cs:37-46 | the new score is max(0, old + delta), never negative, and exactly old + delta for a non-negative score and delta |
| Players.Player.ResetScore | Assets/Scripts/Player.cs:48-51 | the score becomes 0 and nothing else changes |
| Events.RemoveLast | Assets/Scripts/Managers/EventManager.cs:25-29 | delegate subtraction removes one occurrence of the callback when there is one (as multisets: one fewer), and changes nothing otherwise |
| Events.RemoveLastIsLastOccurrence | Assets/Scripts/Managers/EventManager.cs:25-29 | the occurrence removed is the last one; everything before and after it is kept in order |
| Events.Subscribed | Assets/Scripts/Managers/EventManager.cs:17-23 | a new name gets just the callback, a known name gets it appended at the end, every other name is unchanged |
| Events.Unsubscribed | Assets/Scripts/Managers/EventManager.cs:25-29 | an unknown name changes nothing; a known name stays in the table with one occurrence removed; other names are unchanged |
| Events.SubscribeThenUnsubscribe | Assets/Scripts/Managers/EventManager.cs:17-29 | unsubscribing right after subscribing restores the table, except that a new name stays behind with an empty delegate |
| Events.EventRegistry.Subscribe | Assets/Scripts/Managers/EventManager.cs:17-23 | the table becomes `Subscribed` of the old table |
| Events.EventRegistry.Unsubscribe | Assets/Scripts/Managers/EventManager.cs:25-29 | the table becomes `Unsubscribed` of the old table |
| Events.EventRegistry.Notify | Assets/Scripts/Managers/EventManager.cs:31-41 | an unknown name invokes nothing, an emptied delegate raises, otherwise every callback is invoked once in subscription order with the same sender and event; the table is not modified |
| StateMachine.AddStateAsWritten | Assets/Scripts/States/FSM.cs:12-17 | as written, a state whose type is not yet registered is never added |
| StateMachine.AsWrittenNeverRegisters | Assets/Scripts/States/FSM.cs:8-17 | as written, a machine that starts with no states stays with none, whatever is added |
| StateMachine.WithState | Assets/Scripts/States/FSM.cs:12-17 | the intended registration: a state of a new type is appended, a known type changes nothing, and types stay unique |
| StateMachine.AddAllRegistersEveryKind | Assets/Scripts/States/FSM.cs:12-17 | registering any sequence keeps one state per type, loses no type and registers every type offered |
| StateMachine.Switch | Assets/Scripts/States/FSM.cs:19-35 | no hook runs exactly when asked for the current state; otherwise the old state is exited first and a non-null new state is entered last and becomes current, and no other hook runs (one exit per current state, one enter per non-null target); a null target does not replace the current state; asking for the current state keeps it and calls nothing |
| StateMachine.NullTargetExitsAgain | Assets/Scripts/States/FSM.cs:25-34 | asking twice for the null state exits the same state twice |
| StateMachine.Fsm.AddState | Assets/Scripts/States/FSM.cs:12-17 | the corrected registration: the list becomes `WithState` of the old list |
| StateMachine.Fsm.ChangeStateTo | Assets/Scripts/States/FSM.cs:19-35 | the current state and the hooks appended to the trace are those of `Switch` |
| StateMachine.Fsm.Update | Assets/Scripts/States/FSM.cs:37-42 | `OnUpdate` runs on the current state when there is one and nothing runs otherwise |
| Game.BallCount | Assets/Scripts/Managers/GameManager.cs:13-19 | the ball count that completes each game type, SevenBall being 7; every count is between 1 and 7 |
| Game.NextStates | Assets/Scripts/Managers/GameManager.cs:97-105 | the state becomes the requested one; the previous state becomes the old current state only when they differ |
| Game.NextStatesIdempotent | Assets/Scripts/Managers/GameManager.cs:97-105 | changing to the same state twice equals changing once |
| Game.FirstWhite | Assets/Scripts/Managers/GameManager.cs:197 | the index found holds a white ball and no earlier ball is white; none is found exactly when no ball is white |
| Game.CountFresh | Assets/Scripts/Managers/GameManager.cs:218-219 | the count of balls not pocketed in a previous turn is at most the list's length, and zero exactly when every ball is flagged |
| Game.CountUnflagged | Assets/Scripts/Managers/GameManager.cs:218-219 | the same count on a record of the flags |
| Game.CountFreshIsUnflagged | Assets/Scripts/Managers/GameManager.cs:218-219 | counting on the ball objects agrees with counting on the session's record of their flags |
| Game.Judge | Assets/Scripts/Managers/GameManager.cs:195-241 | no shot exactly when the front player has not struck; a foul exactly when struck and a white ball is pocketed (the foul wins over anything else); a score of exactly the fresh count when struck, no white ball and some fresh ball |
| Game.VerdictOf | Assets/Scripts/Managers/GameManager.cs:192-221 | a foul always names the index of a white ball in the pocketed list |
| Game.TopScore | Assets/Scripts/Managers/GameManager.cs:280-287 | the winning score is at least 0 and at least every queued player's score |
| Game.TopScoreAttained | Assets/Scripts/Managers/GameManager.cs:280-287 | the winning score is 0 or some queued player's score |
| Game.ScorersOf | Assets/Scripts/Managers/GameManager.cs:290 | no more names than players |
| Game.ScorersOfMembers | Assets/Scripts/Managers/GameManager.cs:290 | a name is listed exactly when some queued player of that name has the given score |
| Game.WinnersAreTopScorers | Assets/Scripts/Managers/GameManager.cs:276-290 | the winners are exactly the players with the highest score, and with non-negative scores there is at least one |
| Game.PutBackKeepsSound | Assets/Scripts/Controllers/CueBallController.cs:188-195 | putting a subscribed ball back keeps the session sound and the set of subscribed balls |
| Game.TurnKeepsSound | Assets/Scripts/Managers/GameManager.cs:195-245 | applying the verdict and putting the hit-out balls back keeps the session sound (no score below zero, no duplicates) |
| Game.FouledKeepsSound | Assets/Scripts/Managers/GameManager.cs:197-213 | the foul branch keeps the session sound |
| Game.ResolveKeepsSound | Assets/Scripts/Managers/GameManager.cs:184-266 | a resolution keeps the session sound and the set of subscribed balls |
| Game.ReportKeepsSound | Assets/Scripts/Managers/GameManager.cs:160-182 | a settle report keeps the session sound |
| Game.PolledKeepsSound | Assets/Scripts/Controllers/CueBallController.cs:125-156 | a tick keeps the session sound |
| Game.StartedKeepsSound | Assets/Scripts/Managers/GameManager.cs:112-137 | starting a game keeps the session sound |
| Game.TurnKeepsQueued | Assets/Scripts/Managers/GameManager.cs:195-241 | a judged turn queues the same players |
| Game.Ball.OnCueBallEvent | Assets/Scripts/Controllers/CueBallController.cs:59-71 | a Stationary broadcast resets the ball to Default; any other event leaves it alone |
| Game.Ball.PlaceBallInInitialPos | Assets/Scripts/Controllers/CueBallController.cs:188-195 | the ball loses its "pocketed in a previous turn" flag, is Placing, and no ball is counted in motion; nothing else in the session changes (the effect `PutBack`, which keeps the session sound) |
| Game.Ball.PlaceBallInPosWhilePractise | Assets/Scripts/Controllers/CueBallController.cs:182-186 | the ball is put back, then every ball is at rest; a sound session stays sound |
| Game.Ball.constructor | Assets/Scripts/Controllers/CueBallController.cs:13-20 | a new ball has its kind, is not flagged as pocketed in a previous turn, and is in the Default state (the field defaults) |
| Game.Ball.BallPocketed | Assets/Scripts/Controllers/CueBallController.cs:177-180 | the ball is routed to the pocketed list, once, and leaves the hit-out list |
| Game.Ball.OnFloorContact | Assets/Scripts/Controllers/CueBallController.cs:111-123 | the ball is routed to the hit-out list unless it is in either list already |
| Game.Ball.OnCueHit | Assets/Scripts/Controllers/CueBallController.cs:86-109 | only a white ball reacts: it becomes Striked, one more ball is counted in motion, and every playing player is marked as having struck; any other ball changes nothing; the session stays sound |
| Game.Ball.OnStriked | Assets/Scripts/Controllers/CueBallController.cs:162-172 | only a white ball is counted in motion; the session stays sound |
| Game.Ball.FixedUpdate | Assets/Scripts/Controllers/CueBallController.cs:125-156 | the session and outcome after one tick are those of `Polled`, and the session stays sound |
| Game.GameSession.constructor | Assets/Scripts/Managers/GameManager.cs:66-95 | one new player per name in order, each with score 0 and neither playing nor struck; empty lists; no ball in motion; state Practise after the zero value |
| Game.GameSession.VerdictMatches | Assets/Scripts/Managers/GameManager.cs:192-221 | the verdict computed on the objects equals the verdict on the session's value |
| Game.GameSession.ChangeGameState | Assets/Scripts/Managers/GameManager.cs:97-105 | the state pair becomes `NextStates` and nothing else changes |
| Game.GameSession.OnGetSet | Assets/Scripts/Managers/GameManager.cs:107-110 | the state changes to GetSet |
| Game.GameSession.OnPaused | Assets/Scripts/Managers/GameManager.cs:139-142 | the state changes to Pause |
| Game.GameSession.OnContinue | Assets/Scripts/Managers/GameManager.cs:144-147 | the state changes to Play and nothing is reset |
| Game.GameSession.ResetScores | Assets/Scripts/Managers/GameManager.cs:122-123 | every player's score becomes 0 and nothing else changes |
| Game.GameSession.ClearLists | Assets/Scripts/Managers/GameManager.cs:115-116 | both lists become empty |
| Game.GameSession.OnPlay | Assets/Scripts/Managers/GameManager.cs:112-137 | both lists emptied, no ball in motion, one more game played, every score zero, state Play, cue ball put back, the rack laid out only the first time, and the session still sound |
| Game.GameSession.CountBallInMotion | Assets/Scripts/Controllers/CueBallController.cs:132-138 | one more ball counted in motion |
| Game.GameSession.CountBallAtRest | Assets/Scripts/Managers/GameManager.cs:171-173 | one ball fewer counted in motion |
| Game.GameSession.CountNewGame | Assets/Scripts/Managers/GameManager.cs:118-120 | no ball in motion and one more game played |
| Game.GameSession.RackOnce | Assets/Scripts/Managers/GameManager.cs:130-136 | the rack is laid out exactly when it was not laid out before, and is laid out afterwards |
| Game.GameSession.AddToBallPocketedList | Assets/Scripts/Managers/GameManager.cs:307-312 | a ball already listed is not appended again, another is appended; the ball also leaves the hit-out list (the correction in Findings); the session stays sound, the lists disjoint |
| Game.GameSession.IsGameComplete | Assets/Scripts/Managers/GameManager.cs:268-274 | the game is complete exactly when the pocketed list holds the game type's ball count, so never with nothing pocketed |
| Game.GameSession.AddToBallHitOutList | Assets/Scripts/Managers/GameManager.cs:314-320 | the ball is appended only if it is in neither list, otherwise both lists are unchanged |
| Game.GameSession.SetNewPlayerTurn | Assets/Scripts/Managers/GameManager.cs:296-305 | the queue is rotated and the notice names the new front player |
| Game.GameSession.ScoreFront | Assets/Scripts/Managers/GameManager.cs:201 | the front player's score changes by the clamped delta |
| Game.GameSession.RemovePocketed | Assets/Scripts/Managers/GameManager.cs:203-204 | the ball at the index leaves the pocketed list |
| Game.GameSession.FlagPocketed | Assets/Scripts/Managers/GameManager.cs:206-207 | every pocketed ball is flagged as pocketed in a previous turn, and no other ball changes |
| Game.GameSession.PlaceHitOutBalls | Assets/Scripts/Managers/GameManager.cs:243-245 | every hit-out ball is put back |
| Game.GameSession.ClearHitOut | Assets/Scripts/Managers/GameManager.cs:249 | the hit-out list becomes empty |
| Game.GameSession.ResetPlayingStates | Assets/Scripts/Managers/GameManager.cs:252-257 | only the front player is playing and nobody has struck |
| Game.GameSession.BroadcastStriked | Assets/Scripts/Controllers/CueBallController.cs:97 | every playing player is marked as having struck; the others keep their mark |
| Game.GameSession.BroadcastAtRest | Assets/Scripts/Managers/GameManager.cs:264 | every subscribed ball returns to Default |
| Game.GameSession.WinningScore | Assets/Scripts/Managers/GameManager.cs:280-287 | the loop finds `TopScore` of the queue |
| Game.GameSession.ScorersWith | Assets/Scripts/Managers/GameManager.cs:290 | the filter lists `ScorersOf` the queue, in queue order |
| Game.GameSession.FindWinners | Assets/Scripts/Managers/GameManager.cs:276-290 | the winners are `Winners` of the queue and the scores |
| Game.GameSession.Conclude | Assets/Scripts/Managers/GameManager.cs:259-265 | the winners are chosen when the game is complete, otherwise every ball is at rest, and the closing notice says which |
| Game.GameSession.FoulTurn | Assets/Scripts/Managers/GameManager.cs:197-213 | the session becomes `Fouled` and the notice names the new front player |
| Game.GameSession.ScoreTurn | Assets/Scripts/Managers/GameManager.cs:221-227 | the session becomes `ScoredFor` |
| Game.GameSession.ApplyVerdict | Assets/Scripts/Managers/GameManager.cs:197-241 | the session becomes `Judged` and a turn-change notice is sent exactly for a foul or a miss |
| Game.GameSession.TakeTurn | Assets/Scripts/Managers/GameManager.cs:195-245 | the session becomes `Turn` of the old one |
| Game.GameSession.WrapUp | Assets/Scripts/Managers/GameManager.cs:248-265 | the session becomes `Finish` of the old one and the notices end with the closing one |
| Game.GameSession.CalculateThePointAndNextTurn | Assets/Scripts/Managers/GameManager.cs:184-266 | the session and the notices are those of `Resolve` |
| Game.GameSession.ReadyForNextRound | Assets/Scripts/Managers/GameManager.cs:160-182 | the session and the outcome are those of `Report`, and the session stays sound |
| Rules.FinishFacts | Assets/Scripts/Managers/GameManager.cs:248-265 | the wrap-up keeps the queue, scores, pocketed list and flags, empties the hit-out list and either chooses the winners or brings every ball to rest |
| Rules.ResolveSplit | Assets/Scripts/Managers/GameManager.cs:184-266 | a resolution is the judged turn followed by the wrap-up |
| Rules.FoulBranch | Assets/Scripts/Managers/GameManager.cs:197-213 | in the foul branch the queue rotates, the front player's score is clamped after losing one, and the cue ball leaves the list and its flag is cleared |
| Rules.FoulRule | Assets/Scripts/Managers/GameManager.cs:195-213 | a pocketed cue ball costs the front player one point (never below zero) and nobody else anything; the cue ball leaves the pocketed list, unflagged; the turn passes on and the first notice names the next player |
| Rules.ScoreBranch | Assets/Scripts/Managers/GameManager.cs:214-228 | in the scoring branch the front player gains exactly the fresh count and the queue is kept |
| Rules.ScoreRule | Assets/Scripts/Managers/GameManager.cs:214-228 | newly pocketed balls add exactly their number to the front player's score; nobody else's score changes; the player keeps the turn and no turn-change notice is sent |
| Rules.MissRule | Assets/Scripts/Managers/GameManager.cs:214-239 | with nothing new pocketed (an empty list included) no score changes and the turn passes on, announced first |
| Rules.NoShotRule | Assets/Scripts/Managers/GameManager.cs:192-257 | when the front player has not struck, the queue, scores, pocketed list and flags are unchanged (the hit-out balls are not put back) and no turn-change notice is sent |
| Rules.ResolutionResets | Assets/Scripts/Managers/GameManager.cs:248-257 | after any resolution the hit-out list is empty, only the new front player is playing, nobody has struck, and the last notice closes the resolution |
| Rules.CompletionRule | Assets/Scripts/Managers/GameManager.cs:259-274 | the game completes exactly when the pocketed list holds the game type's ball count, the last notice then carries the winners; otherwise every ball is Default and the winners are untouched |
| Rules.WinnersRule | Assets/Scripts/Managers/GameManager.cs:276-290 | the winners of a completed game are exactly the players with the highest score, and there is at least one |
| Rules.NoDoubleCount | Assets/Scripts/Managers/GameManager.cs:206-227 | after a turn with a shot every ball left in the pocketed list is flagged, so none is scored again, when the two lists are disjoint |
| Rules.PocketedNeverRecounts | Assets/Scripts/Managers/GameManager.cs:206-245 | with the corrected pocketing, a struck turn after a ball is pocketed leaves no pocketed ball to be counted again |
| Rules.PocketedAsWrittenRecounts | Assets/Scripts/Managers/GameManager.cs:307-312 | with the pocketing as written, an object ball that fell on the floor and was then pocketed stays pocketed but unflagged after the next resolution, so it counts again |
| Rules.JudgedKeepsObjectBall | Assets/Scripts/Managers/GameManager.cs:197-241 | judging a struck turn removes no object ball from the pocketed list (only the cue ball leaves it) |
| Game.PocketedKeepsSound | Assets/Scripts/Managers/GameManager.cs:307-312 | the corrected pocketing keeps the session sound, the two lists disjoint |
| Rules.TurnFlagsPocketed | Assets/Scripts/Managers/GameManager.cs:206-245 | putting the hit-out balls back does not unflag a pocketed ball when the lists are disjoint |
| Rules.JudgedFlagsPocketed | Assets/Scripts/Managers/GameManager.cs:197-241 | every verdict with a shot leaves the pocketed balls flagged and adds no ball to the list |
| Rules.FlaggedCountsNothing | Assets/Scripts/Managers/GameManager.cs:218-219 | a list whose every ball is flagged has no fresh ball |
| Rules.OnlyNewBallsCount | Assets/Scripts/Managers/GameManager.cs:218-224 | balls flagged in an earlier turn add nothing to the next count: only the balls pocketed since then can score |
| Rules.FirstShotUnjudged | Assets/Scripts/Managers/GameManager.cs:66-95 | while nobody is playing, as after `Start` when no resolution has run yet, a hit marks nobody, so the next resolution changes no score, queue, list or flag, and only then is the front player playing |
| Rules.ReportRule | Assets/Scripts/Managers/GameManager.cs:160-182 | a report resolves exactly in Play or Pause when the decrement reaches zero; in practice it puts the cue ball back and brings every ball to rest; in GetSet, Complete or the zero state nothing changes |
| Rules.PolledRule | Assets/Scripts/Controllers/CueBallController.cs:125-156 | a tick that does not settle the ball changes only its state and, for a ball starting to move during Play, the counter; a settling tick reports and leaves the ball Stationary unless the report raised |

## Left out

- Physics, rendering and positions are not modelled. This covers the force applied by `OnStriked`, the `+0.2f` offset and the initial position restored by `PlaceBallInInitialPos`, and the rigid body itself, whose sleeping state is an input of each tick.
- The rack instantiation in `PlaceBallBasedOnGameType` (`Resources.Load`/`Instantiate`) is modelled only as the flag that it happened (`RackOnce`). The balls subscribed to ball-action events are fixed when the session is created, so balls that subscribe later are not modelled. The player set is fixed at creation too, as in the source, where players are only created in `Start`.
- `OnGameStateEvent` in `CueBallController` (every ball put back when a Play game-state event is broadcast) is not modelled, because only the UI screen sends that event. The UI screen (`GameUIScreen`), the cue, camera and input controllers, and the trigger glue in `PocketsCollider` and `TableWallCollider` are not part of this model.
- Game.GameSession.Conclude: the `WaitForEndOfFrame` coroutine that defers the winner selection is treated as atomic, so the winners are chosen within the resolution.
- The presentation-layer event dispatch is not modelled. The session's notices (turn changed, all balls at rest, game complete) are returned as values and not sent through the registry. `Debug.Log`, `Debug.Assert` and the score-update event sent by `CalculateScore` are left out.
- The event registry stores callbacks as opaque ids. `Notify` returns the invocations it would make instead of running code, so a callback that changes the registry while it is being notified is not modelled.
- Players.Player.constructor: the player's subscription to ball-action events is modelled by the session's Striked broadcast (`BroadcastStriked`), not as an entry in the registry.
- StateMachine.Fsm.AddState: in the source the `_states` list is never created, so any call would raise a null reference. The model starts from an empty list, and the class uses the corrected registration.
- Singleton lookup (`GameManager.Instance`) is replaced by passing the session explicitly.
- `NumOfBallsStriked` and `Player.Score` are 32-bit C# `int`s, and the model uses unbounded integers. Overflow would need more than two billion balls counted in motion or points scored, so it is not modelled.
- Game.GameSession.AddToBallPocketedList: the session uses the corrected pocketing from Findings, which also drops the ball from the hit-out list; the code as written is modelled by `Game.PocketedAsWritten`.

## Findings

| source | as written | input that shows it | evidently intended | confidence | as-written member | corrected member |
|---|---|---|---|---|---|---|
| Assets/Scripts/Managers/GameManager.cs:307-312 | `AddToBallPocketedList` appends a ball without checking the hit-out list, while `AddToBallHitOutList` refuses a pocketed ball | an object ball falls on the floor (hit-out list) and is then reported by a pocket trigger in the same turn, and the front player struck: the resolution puts it back and clears its flag, but it stays in the pocketed list, so the next turn scores it again | a pocketed ball leaves the hit-out list, keeping the two lists disjoint | plausible (not executed) | Rules.PocketedAsWrittenRecounts | Rules.PocketedNeverRecounts |
| Assets/Scripts/States/FSM.cs:12-17 | `AddState` appends a state only when one of the same type is already registered (the check is inverted against its own comment) | a machine with no states, then `AddState` of any state: the list stays empty, and no state can ever be registered | append only when no state of that type is registered | high (not executed) | StateMachine.AsWrittenNeverRegisters | StateMachine.AddAllRegistersEveryKind |
