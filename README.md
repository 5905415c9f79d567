# Pong game rules, modelled and proved in Dafny

This project models the rules of an SDL Pong game written in Rust: one
human player (the left paddle, moved by the mouse) plays the computer (the
right paddle). It covers:

- the per-frame ball step (`move_ball`):
  - advance at the modified speed;
  - reflect off the top and bottom walls;
  - a swept crossing test against the paddle faces, with the bounce point interpolated and the ball re-advanced after a hit;
  - reflect off the scoring walls, which awards the point;
  - the periodic speed-up;
- the right paddle's tracking rule and the left paddle's event handling;
- slow motion (three per round, five seconds each);
- the win check, the frame-rate delay and the game loop;
- the constructors and resets of the ball, the paddles and the score cards.

Modules, one file each:

- `Common` (common.dfy): `Option`, colours, and abstract trigonometry (`Trig`). `Trig` keeps `sin`, `cos` and `sqrt` abstract. `Lawful()` states the only laws the proofs use.
- `Physics` (physics.dfy): the rules of game.rs as pure functions over values, with their lemmas. The methods are proved against these functions.
- `BallEntity`, `PaddleEntity`, `ScoreCardEntity` (ball.dfy, paddle.dfy, score_card.dfy): the three entity classes. Their fields change in place, and each has a constructor and a `Reset`.
- `PongGame` (game.dfy): the `Game` class, the per-frame context, the events and the game loop.
  - Each method changes exactly the fields the Rust code changes.
  - The `ensures` of each ball and paddle method ties the new state to a `Physics` function of the old state.
  - `State()` is the game's snapshot as a `GameState` value. `PlayFrame` is one pass of the loop on a snapshot, composed of five stages in the order of game.rs:251-273: ball, left paddle, right paddle, slow-motion expiry, win check. Each moving method ends in the stage of its old snapshot.
  - The per-frame iteration ends in `PlayFrame` of the old snapshot. The game loop ends in `PlayFrames`, the fold of `PlayFrame` over the frames it ran.
  - The game loop also states when it stops: on the first frame that quits or names a winner, or when the frames run out.
  - The invariant `Valid()` holds throughout:
    - the ball keeps its base speed;
    - both paddles stay in the field;
    - the ball and the right paddle share one speed multiplier, which stays in [1, 1.6);
    - scores are non-negative;
    - at most three slow motions remain.
- `Scenarios` (scenarios.dfy): concrete frames on an 800 × 600 field: free flight, a top-wall bounce, a point at the right wall, a dead-centre paddle hit, and a fourth slow-motion click.

Clock readings, polled events and the random launch draws are parameters. The clock readings are the `Frame` values the loop consumes. The launch draws are the angle and the two ±1 signs.

## Model

| member | source | states |
|---|---|---|
| Physics.ModSpeed | src/pongo/game.rs:568-577 | the modified speed is speed × multiplier, and exactly half of it while slow motion is active |
| Physics.PaddleStep | src/pongo/game.rs:326 | a paddle's step in a frame is its modified speed times the frame time, never negative for non-negative inputs (the right paddle moves by it at game.rs:326 and :334) |
| Physics.Advance | src/pongo/game.rs:362-363 | for a positive multiplier and frame time, the tentative coordinate moves from the old one in the direction of the velocity component, and stays put exactly when that component is zero |
| Physics.ModSpeedKeepsDirection | src/pongo/game.rs:568-577 | for a positive multiplier the modified velocity is positive iff the velocity is, and negative iff it is (so zero stays zero) |
| Physics.ReflectOffTopOrBottom | src/pongo/game.rs:369-377 | a bounce happens iff y < 0 or y + d ≥ height; a bounce reverses vy and otherwise nothing changes; the overshoot past the wall is mirrored back; an overshoot smaller than the field lands inside [0, height − d] |
| Physics.ReflectOffScoringWall | src/pongo/game.rs:455-469 | a point to the right player iff x < 0, to the left player iff 0 ≤ x and x + d > width, so at most one side scores; a point reverses vx; past the left wall the new x is −x, past the right wall the ball ends as far inside width − d as it overshot; an overshoot smaller than the field lands inside [0, width − d]; without a point nothing changes |
| Physics.Interpolate | src/pongo/game.rs:390 | the interpolated bounce height is the start height at the start x and the tentative height at the tentative x (the same formula serves the right paddle at game.rs:433) |
| Physics.InterpolateOnLine | src/pongo/game.rs:387-390 | the interpolated bounce point lies on the frame's straight path (same gradient) |
| Physics.InterpolateBetween | src/pongo/game.rs:390 | for a crossing between the start and the tentative x, the bounce y lies between the start and the tentative y |
| Physics.BounceAngle | src/pongo/game.rs:396-402 | the angle is non-negative, and zero when the ball's centre is level with the paddle's centre |
| Physics.BounceAngleBounds | src/pongo/game.rs:396-402 | for an overlapping ball the angle is at most the maximum bounce angle × (h + d) / h, and exactly the maximum when the ball's centre is level with a paddle end |
| Physics.Rebound | src/pongo/game.rs:404-407 | a zero-sine angle leaves the ball level, and for a non-negative sine the vertical direction of approach is kept (the right paddle's twin is game.rs:439-440) |
| Physics.ReboundConservesSpeed | src/pongo/game.rs:404-407 | the velocity after a paddle hit has exactly the ball's base speed |
| Physics.ReboundDirection | src/pongo/game.rs:404-407 | for angles up to a right angle the ball leaves horizontally away from the paddle, keeps the vertical direction it came with, and a zero angle sends it straight back at full speed |
| Physics.RemainingFrameTime | src/pongo/game.rs:409-421 | the time left after the bounce lies in [0, dt] for every genuine crossing |
| Physics.SourceRemainingFrameTime | src/pongo/game.rs:419 | the time left after the bounce as the Rust code computes it (vertical ratio) is undefined exactly when the path is level |
| Physics.RemainingFrameTimeAgrees | src/pongo/game.rs:419 | wherever the Rust code's vertical ratio is defined it equals the horizontal ratio the model uses |
| Physics.BounceOff | src/pongo/game.rs:404-422 | a hit keeps its side, and the ball's new velocity is the rebound at the angle the hit offset gives |
| Physics.PaddleStage | src/pongo/game.rs:381-449 | a left hit happens iff the ball crosses the left face and the interpolated height there overlaps the left paddle; a right hit iff it crosses no left face, crosses the right face and overlaps the right paddle there (left is tested first); a hit gives the rebound velocity at the offset's angle and the re-advanced position; without a hit the tentative position and velocity stand |
| Physics.LeftHitDeflection | src/pongo/game.rs:382-425 | proof helper for `BounceOffPaddles`, unfolding `PaddleStage`: a left hit puts the ball at the face's x plus vx × t and the interpolated height plus vy × t, moving at the rebound velocity, where t is the time left after the crossing |
| Physics.RightHitDeflection | src/pongo/game.rs:427-449 | proof helper for `BounceOffPaddles`, unfolding `PaddleStage`: a right hit puts the ball at the face's x − d plus vx × t and the interpolated height plus vy × t, moving at the rebound velocity away to the left |
| Physics.MissDeflection | src/pongo/game.rs:381-449 | proof helper for `BounceOffPaddles`, unfolding `PaddleStage`: when neither paddle is hit the stage returns the tentative position and the old velocity |
| Physics.NoTunnelling | src/pongo/game.rs:382-392 | a ball that crosses a paddle's face and overlaps that paddle at the frame's start and at its tentative end is always returned, whatever the path's slope, however far it travels and whatever the other paddle does (for the right paddle: provided the left face is not crossed, which is tested first) |
| Physics.PaddleStageConservesSpeed | src/pongo/game.rs:381-449 | the paddle stage keeps the ball at its base speed, hit or not |
| Physics.PaddleHitSendsBallBack | src/pongo/game.rs:404-407 | after a left hit vx ≥ 0 and after a right hit vx ≤ 0, and vy keeps the sign it had before the hit |
| Physics.ReboundOffPaddle | src/pongo/game.rs:396-407 | for a ball overlapping the paddle and a maximum bounce angle with maxBounceAngle × (h + d) ≤ π/2 × h, the rebound heads away from the paddle and keeps the vertical direction |
| Physics.LevelHitUndefinedInSource | src/pongo/game.rs:419 | a level ball meeting the left paddle is a genuine hit for which the Rust code's ratio is 0/0, while the model's is half a frame |
| Physics.HitNearWallLeavesField | src/pongo/game.rs:420-421 | as written: a 500 px/s ball hitting a left paddle at the top of an 800 × 600 field 0.7 px below the wall, and leaving at 0.6645 rad (sine ≥ 0.5), ends the frame above the top wall (y < 0) with no wall bounce reported |
| Physics.SettledCollide | src/pongo/game.rs:365-469 | corrected collisions: a second top/bottom reflection after a paddle hit; the hit, the point, x and vx are those of `Collide`, and without a hit the outcome is `Collide`'s |
| Physics.SettledCollideStaysInField | src/pongo/game.rs:365-449 | with the second check, a ball starting in the field ends in [0, height − d] whenever the tentative overshoot and a frame's travel at the base speed are smaller than height − d |
| Physics.ReadvanceNearField | src/pongo/game.rs:419-421 | a ball re-advanced after a hit from a start and a tentative end inside the field ends at most speed × dt above the top or below the bottom of [0, height − d] |
| Physics.Sounds | src/pongo/game.rs:369-469 | one ping per wall bounce, one pong per paddle hit and one ping per point, so at most three; the wall's ping comes first, the pong right after it, the point's ping last; a pong exactly when a paddle was hit |
| Physics.Collide | src/pongo/game.rs:365-469 | a wall bounce is reported iff the tentative height leaves the field; with no bounce, hit or point the ball sits at the tentative position with its old velocity |
| Physics.BallStep | src/pongo/game.rs:359-469 | a wall bounce is reported iff the advanced height leaves the field; with no bounce, hit or point the ball moves to the advanced position with its old velocity |
| Physics.CollideConservesSpeed | src/pongo/game.rs:365-469 | wall, paddle and scoring-wall bounces together keep the ball at its base speed |
| Physics.BallStepConservesSpeed | src/pongo/game.rs:354-469 | a whole ball step keeps the stored velocity at the ball's base speed |
| Physics.BallStepFreeFlight | src/pongo/game.rs:359-363 | a ball whose tentative position is inside the field and whose path crosses no paddle face just moves there, with no event |
| Physics.ReturnedBallDoesNotScoreAgainst | src/pongo/game.rs:420-469 | a ball returned by a paddle cannot score against that paddle's player in the same frame |
| Physics.SpeedupRule | src/pongo/game.rs:475-490 | the first call only starts the timer; later, a speed-up happens iff more than 15 s have passed, the frame had a paddle or scoring bounce, the multiplier is below 1.5 and slow motion is off; a speed-up restarts the timer, and otherwise the timer is unchanged |
| Physics.SpeedupBoundsMultiplier | src/pongo/game.rs:476-490 | a multiplier in [1, 1.6) stays in [1, 1.6) after the speed-up step |
| Physics.ClickSlowMotion | src/pongo/game.rs:284-290 | a click starts slow motion (stamped with its time, one charge fewer) iff a charge is left and none is running; otherwise nothing changes |
| Physics.ExpireSlowMotion | src/pongo/game.rs:264-269 | the running slow motion ends iff 5000 ms or more have passed since it started; otherwise it is kept |
| Physics.SlowMotionChargesBound | src/pongo/game.rs:284-290 | over any sequence of clicks and expiries, the slow motions started plus the charges left equal the charges at the start, so a round has at most three |
| Physics.ClampToField | src/pongo/game.rs:296-302 | a paddle already in the field stays put; one above the field goes to 0; one below it goes to height − h; for h ≤ height the result is in the field |
| Physics.TrackingY | src/pongo/game.rs:319 | the target height lies within the field for a ball inside the field (the ball's centre while it approaches, mid-field otherwise) |
| Physics.TrackTarget | src/pongo/game.rs:325-340 | the right paddle moves down only toward a target below its 3/4 line and up only toward one above its 1/4 line, moves at most one step, stays put in the dead zone; moving down it never passes the target, moving up its bottom edge stays at or below the target; any position other than a full step or no move centres the paddle on the target |
| Physics.RightPaddleMoveProperties | src/pongo/game.rs:313-347 | the whole right-paddle move keeps the paddle in the field, moves it at most one step, and only in the direction of the hysteresis bands |
| Physics.Winner | src/pongo/game.rs:540-548 | the left player wins iff the left score is ≥ 5; the right player wins iff the left score is < 5 and the right score is ≥ 5; there is no winner iff both are < 5 |
| Physics.FrameDelayMs | src/pongo/game.rs:580-585 | a delay exists iff the frame took less than 1000 / fps ms, and then frame time plus delay equals 1000 / fps |
| BallEntity.LaunchVy | src/pongo/ball.rs:104 | sine of the angle × base speed × the up-or-down sign; its bound and sign are LaunchVerticalBound and LaunchVerticalSign |
| BallEntity.LaunchVx | src/pongo/ball.rs:109 | the square root of speed² − vy² × the left-or-right sign; its meaning is HorizontalByPythagoras |
| BallEntity.LaunchVelocity | src/pongo/ball.rs:104-109 | the pair of the two parts; its speed and directions are LaunchVelocityProperties |
| BallEntity.LaunchVelocityProperties | src/pongo/ball.rs:96-113 | a launch has \|vy\| ≤ speed and vx² + vy² = speed², heads horizontally in the drawn direction and, for angles below a half turn, vertically too |
| BallEntity.LaunchVerticalBound | src/pongo/ball.rs:104 | the launch's vertical speed is at most the base speed in magnitude |
| BallEntity.LaunchVerticalSign | src/pongo/ball.rs:98-104 | the vertical launch direction is the drawn one (for angles below a half turn) |
| BallEntity.HorizontalByPythagoras | src/pongo/ball.rs:107-109 | the horizontal part completes the vertical part to exactly the base speed, in the drawn horizontal direction |
| BallEntity.Ball.constructor | src/pongo/ball.rs:54-79 | records the initial position and the constants, then behaves as a reset: at the initial position, multiplier 1, launched at the base speed |
| BallEntity.Ball.Reset | src/pongo/ball.rs:84-114 | back to the initial position with multiplier 1 and the launch velocity of the drawn angle and signs; the ball keeps its base speed |
| PaddleEntity.Paddle.constructor | src/pongo/paddle.rs:48-69 | records the initial position and the constants, starts at the initial position with multiplier 1 |
| PaddleEntity.Paddle.Reset | src/pongo/paddle.rs:75-83 | back to the initial position with multiplier 1 |
| ScoreCardEntity.ScoreCard.constructor | src/pongo/score_card.rs:46-56 | a card at the given place showing score 0 |
| ScoreCardEntity.ScoreCard.Reset | src/pongo/score_card.rs:79-81 | the score is 0 |
| PongGame.GameLoopContext.constructor | src/pongo/game.rs:37-43 | a frame context with the given duration and no sounds queued |
| PongGame.Game.Valid | src/pongo/game.rs:69-109 | the invariant every game method keeps: the ball at its base speed, both paddles in the field, one multiplier in [1, 1.6) shared by the ball and the right paddle, non-negative scores, at most three slow motions left |
| PongGame.Game.NextOutcome | src/pongo/game.rs:354-469 | the ball step of the current state, whose velocity keeps the ball's base speed |
| PongGame.SlowMotionAfter | src/pongo/game.rs:284-290 | only a click changes the slow-motion state; it uses at most one charge, and starts a slow motion stamped with the click's time only when none was running |
| PongGame.Game.constructor | src/pongo/game.rs:69-109 | a stopped game holding the given entities, in the reset state; a well-configured game satisfies the invariant |
| PongGame.Game.Reset | src/pongo/game.rs:591-602 | no speed-up time, three slow motions, none running; the ball, both paddles and both score cards are reset; the invariant is re-established |
| PongGame.Game.MoveBall | src/pongo/game.rs:354-491 | the ball ends where the ball step puts it; the scoring side gets exactly its point; the step's sounds are queued in order; the timer and both multipliers follow the speed-up rule; the new snapshot is the ball stage of the old one; the invariant is kept |
| PongGame.Game.MoveAndCollide | src/pongo/game.rs:359-472 | the ball, the scores and the sound queue are those of the ball step, and the speed-up flag is set iff there was a paddle or scoring bounce |
| PongGame.Game.BounceOffTopOrBottom | src/pongo/game.rs:365-377 | the tentative height, vy and the sound queue are those of the top/bottom reflection |
| PongGame.Game.BounceOffPaddles | src/pongo/game.rs:379-449 | position, velocity, the bounce flag and the sound queue are those of the paddle stage |
| PongGame.Game.BounceOffScoringWalls | src/pongo/game.rs:451-469 | position, vx, the two scores and the sound queue are those of the scoring-wall reflection |
| PongGame.Game.SpeedUp | src/pongo/game.rs:475-490 | the timer and the ball and right-paddle multipliers change exactly as the speed-up rule says |
| PongGame.Game.MoveLeftPaddle | src/pongo/game.rs:276-310 | quit and escape stop the game; a click applies the slow-motion click rule; a mouse motion puts the paddle at the clamped pointer height; any other event changes nothing; the new snapshot is the left-paddle stage of the old one; the invariant is kept |
| PongGame.Game.MoveRightPaddle | src/pongo/game.rs:313-351 | the paddle's new height is the tracking rule, with the paddle step at the current slow-motion state, followed by the clamp, applied to the old state; the new snapshot is the right-paddle stage of the old one; the invariant is kept |
| PongGame.Game.CheckForWin | src/pongo/game.rs:540-552 | reports the winner and clears the running flag iff there is one; nothing else changes |
| PongGame.Game.CapFramesPerSecond | src/pongo/game.rs:580-585 | the sleep is the frame delay for the frame's duration |
| PongGame.Game.PlayFrame | src/pongo/game.rs:251-273 | one pass of the loop on a snapshot: only the paddles' heights move; scores never go down and at most one point is scored; the game runs on iff it ran and the frame neither quit nor left a winner; no slow-motion charge comes back; no stamp is later than the expiry check, and a slow motion still running has run less than 5 s there |
| PongGame.Game.ExecuteGameLoopIterationPerFrame | src/pongo/game.rs:251-273 | the new snapshot is `PlayFrame` of the old one for the frame's duration; the queued sounds are those of the old state's ball step; reports the winner; keeps the invariant |
| PongGame.Game.EndSlowMotionIfElapsed | src/pongo/game.rs:264-269 | the slow-motion start time becomes its expiry at the given time; the new snapshot is the expiry stage of the old one |
| PongGame.Game.RunFrame | src/pongo/game.rs:236-245 | one turn of the loop: the new snapshot is `PlayFrame` of the old one over the time since the previous turn's clock reading; the sleep is the frame delay for that duration |
| PongGame.Game.PlayFrames | src/pongo/game.rs:232-245 | the loop from a snapshot over the remaining frames: scores never go down, and a game running at the end was running at the start |
| PongGame.Game.PlayTurn | src/pongo/game.rs:232-245 | one turn of the loop: the remaining frames play out from the new snapshot as they did from the old one with this frame first, and the loop's record of sleeps and scores gains this turn's |
| PongGame.Game.ExecuteGameLoop | src/pongo/game.rs:226-248 | with the running flag set, the game ends in the snapshot `PlayFrames` gives for the frames run; the loop runs until the first frame that quits or leaves a winner, or until the frames run out: a game still running has consumed every frame, a stopped game stopped on its last frame run, and no earlier frame quit or left a winner (judged on the scores recorded after it); each sleep is the delay for the time between loop starts; a round starting below five points ends with no score above five, and while still running both scores are below five |
| Scenarios.FreeFlight | src/pongo/game.rs:359-363 | a ball at (395, 295) moving right at 100 px/s is at (495, 295) one second later, with no event |
| Scenarios.TopWall | src/pongo/game.rs:369-372 | a ball that would end 5 px above the top wall ends 5 px below it, heading down, with one ping |
| Scenarios.RightWall | src/pongo/game.rs:462-468 | a ball passing the right wall, clear of the right paddle, is mirrored back with vx reversed and the left player scores |
| Scenarios.DeadCentreHit | src/pongo/game.rs:382-425 | a level ball meeting the left paddle dead centre goes straight back at full speed and ends half a frame's travel past the face; the end position uses the corrected, horizontal ratio, because at this input (vy = 0) game.rs:419 computes 0/0 (see Findings) |
| Scenarios.ClearOfRightPaddle | src/pongo/game.rs:427-447 | a ball crossing the right paddle's face far above the paddle is not hit |
| Scenarios.FourthClickIgnored | src/pongo/game.rs:284-290 | three slow motions, each allowed to run out, use up the round; the fourth click starts nothing |

The member contracts also cover these properties of the entity resets:

- Every field of the ball, paddle and score card other than position, multiplier, velocity and score is a `const`. So a reset leaves colour, size, speeds, angles and the initial coordinates unchanged.
- `Paddle.Reset` and `ScoreCard.Reset` fix the whole new state from constants, so applying either twice gives the same state as applying it once.

## Left out

- Rendering, fonts, textures and audio playback are not modelled. This covers `draw`, `play_audio`, the welcome screen, the net, every `Drawable`, and src/pongo/ui.rs, net.rs and main.rs. The sounds are modelled only as the ordered queue of `Ping`/`Pong` tags a frame produces.
- `launch_then_block_until_exit` is not modelled. It is the welcome-screen loop around the game loop and reset.
- The win message and its 1.5 s sleep are not modelled. `CheckForWin` models only the winner and the running flag.
- The draw queue is not modelled.
- Shared ownership (`Rc<RefCell<…>>`) and the `resettables` vector are not modelled. `Game` holds references to its five entities, and `Reset` calls each entity's reset in the same order.
- `f32` is modelled as `real`, so there is no rounding, overflow to infinity or NaN.
- `sin`, `cos` and `sqrt` are abstract. The proofs assume only the laws in `Common.Trig.Lawful`:
  - sin 0 = 0 and cos 0 = 1;
  - sin² + cos² = 1;
  - cos ≥ 0 on [0, π/2] and sin ≥ 0 on [0, π];
  - sqrt is the non-negative square root.
- The clock (`precise_time_ms`) and event polling are parameters: each frame carries its clock readings and the one event polled for the left paddle.
  - The clock is assumed never to go backwards (`MonotoneClock`). Otherwise the Rust code's `u64` subtractions would underflow.
- `PongGame.Game.ExecuteGameLoop` also stops when the supplied frames run out. The Rust loop runs until the game stops.
- `sleep_ms` is not performed. `CapFramesPerSecond` returns the delay it would sleep, and the loop collects the delays.
- The random launch draws are parameters of `Ball.Reset`: the angle in [0, max launch angle) and the two ±1 directions.
- `u32`/`u64`/`i32` widths are modelled as unbounded integers, with no wrap-around. Scores stop at five points, counters stay within three, and time stamps are only compared.
- PongGame.Game.Valid: the invariant needs a `Configured()` game. This requires a positive fps, because the Rust code's `1000 / fps` would panic at zero. It also requires paddles of positive height that fit in the field, because the bounce angle divides by half the paddle's height.
- PongGame.Game.Valid: the invariant bounds the speed multiplier by [1, 1.6), not by the exact values 1.0, 1.1, …, 1.5. With `f32` rounding, five additions of 0.1 may stay just below 1.5 and allow a sixth step. The shared bound covers both cases.
- Physics.ReboundOffPaddle: this holds only when the maximum bounce angle × (h + d) / h is at most a right angle, for the same reason as the next line.
- Physics.PaddleHitSendsBallBack: this holds only when the maximum bounce angle × (h + d) / h is at most a right angle. A ball that merely grazes a paddle's end gives an angle multiplier above one, so a larger maximum angle could send the ball back toward the paddle.
- Physics.ReflectOffTopOrBottom: the ball ends in the field only when it overshoots by less than a field's height. The same holds for `ReflectOffScoringWall`. The mirroring at game.rs:369-376 and :455-468 is applied once, so a larger overshoot in one frame would leave the ball outside the field.
- The stored velocity is not scaled by the multiplier. A magnitude of speed × multiplier might be expected, but ball.rs:104-109 and game.rs:406-407 store a velocity of the base speed, and the multiplier and slow motion scale it only when the ball advances (game.rs:362-363). `Valid()` keeps vx² + vy² = speed².
- The interpolation at game.rs:390 and :433 divides by the horizontal distance travelled. It cannot divide by zero, because the crossing test at game.rs:382 and :427 only passes when the ball moves horizontally. `Interpolate` requires `nx != x0`, and `PaddleStage` establishes it.
- Physics.ReturnedBallDoesNotScoreAgainst: this needs the same bound on the bounce angle, and a paddle face inside the field.
- Physics.Collide: a ball re-advanced after a paddle hit is not checked against the top and bottom walls again (game.rs:420-421 and :442-443). The game methods keep this rule as written, so the model's ball can end a frame outside [0, height − d]. See Findings for the corrected `SettledCollide`; the methods do not use it, because the Rust code has no second check.
- PongGame.Game.BounceOffPaddles: this re-advances the ball with the horizontal ratio, not the vertical one the Rust code uses. See Findings.

## Findings

| source | as written | input that shows it | evidently intended | confidence | as-written member | corrected member |
|---|---|---|---|---|---|---|
| src/pongo/game.rs:419 (and :441) | the time left after a paddle bounce is dt × (new_y − bounce_y) / (new_y − y), a ratio of vertical distances | left paddle at (10, 250), 10 × 100; ball of diameter 10 at (25, 295) moving level (vy = 0, e.g. after a dead-centre hit) to (15, 295) in a 0.05 s frame: the ball crosses the paddle's face at its centre, a genuine hit, but the ratio is 0/0 (NaN in `f32`), so the re-advanced position is NaN | the fraction of the frame left after the bounce, from the horizontal distances (which never vanish at a crossing); it equals the vertical ratio wherever that is defined | not executed | Physics.SourceRemainingFrameTime, Physics.LevelHitUndefinedInSource | Physics.RemainingFrameTime, Physics.RemainingFrameTimeAgrees |
| src/pongo/game.rs:420-421 (and :442-443) | after a paddle hit the ball is re-advanced from the bounce point, and the new y is not checked against the top and bottom walls again | 800 × 600 field; left paddle at (10, 0), 10 × 100; ball of diameter 10 and speed 500, maximum bounce angle 0.75, at (22.4, 1.4) moving at (−480, −140) in a 0.01 s frame: it reaches y = 0 at x = 17.6 (no wall bounce), meets the paddle's face at y = 0.7, leaves at 0.6645 rad and ends at y = 0.7 − 2.5 × sin 0.6645 ≈ −0.84, above the top wall | the re-advanced ball is reflected off the top or bottom wall like the tentative one, so it ends the frame in the field | not executed | Physics.Collide, Physics.HitNearWallLeavesField | Physics.SettledCollide, Physics.SettledCollideStaysInField |
