// The game of src/pongo/game.rs: a class whose timers, slow-motion charges
// and running flag change in place, and whose per-frame methods move the
// ball, the two paddles and the score cards they share with it. Every
// method is proved against the pure rules of the Physics module.

module PongGame {
  import opened Common
  import opened Physics
  import opened BallEntity
  import opened PaddleEntity
  import opened ScoreCardEntity

  /** The state of one frame: its duration in seconds and the sounds queued during it. */
  class GameLoopContext {
    const dtSec: real
    var audibleQueue: seq<Sound>

    constructor (dtSec: real)
      ensures this.dtSec == dtSec && audibleQueue == []
    {
      this.dtSec := dtSec;
      audibleQueue := [];
    }
  }

  /** The input events the left paddle reacts to; any other event is `OtherEvent`. */
  datatype Event = Quit | EscapeKeyDown | MouseButtonDown | MouseMotion(y: int) | OtherEvent

  /**
   * The clock readings of one pass of the game loop, in the order the game
   * takes them: at the top of the loop, in the ball step, on a click, and at
   * the slow-motion expiry check; and the event polled for the left paddle.
   */
  datatype Frame = Frame(loopClockMs: nat, ballClockMs: nat, clickClockMs: nat, expiryClockMs: nat,
                         polled: Option<Event>)

  predicate InOrder(f: Frame) {
    f.loopClockMs <= f.ballClockMs <= f.clickClockMs <= f.expiryClockMs
  }

  /** The clock never goes backwards, from `startMs` through every reading of every frame. */
  predicate MonotoneClock(startMs: nat, frames: seq<Frame>) {
    && (forall i :: 0 <= i < |frames| ==> InOrder(frames[i]))
    && (0 < |frames| ==> startMs <= frames[0].loopClockMs)
    && (forall i, j :: 0 <= i < j < |frames| ==> frames[i].expiryClockMs <= frames[j].loopClockMs)
  }

  /** The slow-motion state after the left paddle's event: a click asks for a slow motion, anything else leaves it. */
  function SlowMotionAfter(polled: Option<Event>, s: SlowMotion, nowMs: nat): (r: SlowMotion)
    ensures polled != Some(MouseButtonDown) ==> r == s
    ensures r.remaining <= s.remaining <= r.remaining + 1
    ensures r.startedMs != s.startedMs ==> s.startedMs.None? && r.startedMs == Some(nowMs) && r.remaining + 1 == s.remaining
  {
    if polled == Some(MouseButtonDown) then ClickSlowMotion(s, nowMs) else s
  }

  /** A frame ends the game when its event quits or when the scores after it name a winner. */
  predicate StoppedBy(f: Frame, lscore: int, rscore: int) {
    f.polled == Some(Quit) || f.polled == Some(EscapeKeyDown) || Winner(lscore, rscore).Some?
  }

  /** No time stamp of a speed-up or a slow motion is later than `nowMs`. */
  predicate StampsNotAfter(lastSpeedupMs: Option<nat>, slowMotionStartedMs: Option<nat>, nowMs: nat) {
    && (lastSpeedupMs.Some? ==> lastSpeedupMs.value <= nowMs)
    && (slowMotionStartedMs.Some? ==> slowMotionStartedMs.value <= nowMs)
  }

  /** A duration in milliseconds, in seconds. */
  function FrameSeconds(durationMs: int): real {
    durationMs as real / 1000.0
  }

  /**
   * A snapshot of everything a pass of the game loop changes: the ball's
   * motion, the speed multiplier the ball and the right paddle share, the
   * two paddles' rectangles, the scores, the speed-up timer, the slow-motion
   * state and the running flag.
   */
  datatype GameState = GameState(ball: Motion, multiplier: real, lpaddle: Rect, rpaddle: Rect,
                                 lscore: int, rscore: int, lastSpeedupMs: Option<nat>,
                                 slowMotion: SlowMotion, running: bool)

  /**
   * A snapshot the frames from index `n` on can be played from, the previous
   * loop-clock reading being `lastMs`: real paddles, a clock that never goes
   * back from there on, and no time stamp after frame `n`'s loop-clock
   * reading.
   */
  predicate PlayableFrom(s: GameState, lastMs: nat, frames: seq<Frame>, n: nat) {
    && n <= |frames|
    && s.lpaddle.height > 0.0 && s.rpaddle.height > 0.0
    && (forall i :: n <= i < |frames| ==> InOrder(frames[i]))
    && (forall i, j :: n <= i < j < |frames| ==> frames[i].expiryClockMs <= frames[j].loopClockMs)
    && (n < |frames| ==> lastMs <= frames[n].loopClockMs
                         && StampsNotAfter(s.lastSpeedupMs, s.slowMotion.startedMs, frames[n].loopClockMs))
  }

  /** A game with no stamp after the loop's first clock reading can play all the frames. */
  lemma PlayableAtStart(s: GameState, startMs: nat, frames: seq<Frame>)
    requires s.lpaddle.height > 0.0 && s.rpaddle.height > 0.0 && MonotoneClock(startMs, frames)
    requires StampsNotAfter(s.lastSpeedupMs, s.slowMotion.startedMs, startMs)
    ensures PlayableFrom(s, startMs, frames, 0)
  {
  }

  /**
   * The game loop's record after `framesRun` turns over `frames`: one sleep
   * per turn, each the frame delay for the time since the previous turn; the
   * scores after each turn; the game stopped only on the last turn, and only
   * because that frame quit or left a winner. A round that started below
   * five points (`startedBelow`) has no score above five, and a game still
   * running after a turn has both scores below five.
   */
  predicate LoopProgress(fps: nat, startMs: nat, frames: seq<Frame>, framesRun: nat, sleepsMs: seq<Option<nat>>,
                         scoresAfter: seq<(int, int)>, running: bool, lscore: int, rscore: int, startedBelow: bool)
    requires 0 < fps && MonotoneClock(startMs, frames)
  {
    && framesRun <= |frames| && |sleepsMs| == framesRun && |scoresAfter| == framesRun
    && (0 < framesRun ==> scoresAfter[framesRun - 1] == (lscore, rscore))
    && (!running ==> 0 < framesRun && StoppedBy(frames[framesRun - 1], lscore, rscore))
    && (running && 0 < framesRun ==> !StoppedBy(frames[framesRun - 1], lscore, rscore))
    && (forall i :: 0 <= i < framesRun - 1 ==> !StoppedBy(frames[i], scoresAfter[i].0, scoresAfter[i].1))
    && (forall i :: 0 <= i < framesRun ==>
          sleepsMs[i] == FrameDelayMs(fps, frames[i].loopClockMs - (if i == 0 then startMs else frames[i - 1].loopClockMs)))
    && (startedBelow ==> lscore <= POINTS_TO_WIN && rscore <= POINTS_TO_WIN)
    && ((0 < framesRun || startedBelow) && running ==> lscore < POINTS_TO_WIN && rscore < POINTS_TO_WIN)
  }

  /**
   * One more turn of a running loop keeps its record: the turn's sleep and
   * scores are appended, and it stops exactly when its frame quits or leaves
   * a winner, having added at most one point.
   */
  lemma LoopTurn(fps: nat, startMs: nat, frames: seq<Frame>, framesRun: nat, sleepsMs: seq<Option<nat>>,
                 scoresAfter: seq<(int, int)>, lscore: int, rscore: int, startedBelow: bool,
                 sleepMs: Option<nat>, lscore': int, rscore': int, running': bool)
    requires 0 < fps && MonotoneClock(startMs, frames) && framesRun < |frames|
    requires LoopProgress(fps, startMs, frames, framesRun, sleepsMs, scoresAfter, true, lscore, rscore, startedBelow)
    requires running' == !StoppedBy(frames[framesRun], lscore', rscore')
    requires lscore <= lscore' && rscore <= rscore' && lscore' + rscore' <= lscore + rscore + 1
    requires sleepMs == FrameDelayMs(fps, frames[framesRun].loopClockMs
                                          - (if framesRun == 0 then startMs else frames[framesRun - 1].loopClockMs))
    ensures LoopProgress(fps, startMs, frames, framesRun + 1, sleepsMs + [sleepMs], scoresAfter + [(lscore', rscore')],
                         running', lscore', rscore', startedBelow)
  {
  }

  class Game {
    const trig: Trig
    const width: real
    const height: real
    const fps: nat
    const ball: Ball
    const lpaddle: Paddle
    const rpaddle: Paddle
    const lscoreCard: ScoreCard
    const rscoreCard: ScoreCard
    var timeBallLastSpeedupMs: Option<nat>
    var slowMotionsRemaining: nat
    var timeSlowMotionStartedMs: Option<nat>
    var running: bool

    /** A paddle whose initial position lies in the field. */
    ghost predicate Fits(p: Paddle) {
      0.0 < p.height <= height && 0.0 <= p.initialY && p.initialY + p.height <= height
    }

    /** The game's fixed configuration: everything the rules rely on that never changes. */
    ghost predicate Configured() {
      && trig.Lawful()
      && 0 < fps
      && lpaddle != rpaddle && lscoreCard != rscoreCard
      && 0.0 < ball.maxLaunchAngle
      && Fits(lpaddle) && Fits(rpaddle)
    }

    /** The game's invariant while it is played. */
    ghost predicate Valid()
      reads this, ball, lpaddle, rpaddle, lscoreCard, rscoreCard
    {
      && Configured()
      && ball.Valid()
      && 0.0 <= lpaddle.y && lpaddle.y + lpaddle.height <= height
      && 0.0 <= rpaddle.y && rpaddle.y + rpaddle.height <= height
      && rpaddle.speedMultiplier == ball.speedMultiplier
      && 1.0 <= ball.speedMultiplier < SPEEDUP_CAP + SPEEDUP_STEP
      && 0 <= lscoreCard.score && 0 <= rscoreCard.score
      && slowMotionsRemaining <= SLOW_MOTIONS_PER_ROUND
    }

    /** No stored time stamp is later than `nowMs`. */
    predicate ClockNotBefore(nowMs: nat)
      reads this
    {
      StampsNotAfter(timeBallLastSpeedupMs, timeSlowMotionStartedMs, nowMs)
    }

    /** The state right after a reset with the given launch draws. */
    ghost predicate Restarted(launchAngle: real, upOrDown: real, leftOrRight: real)
      reads this, ball, lpaddle, rpaddle, lscoreCard, rscoreCard
    {
      && timeBallLastSpeedupMs.None? && timeSlowMotionStartedMs.None?
      && slowMotionsRemaining == SLOW_MOTIONS_PER_ROUND
      && ball.x == ball.initialX && ball.y == ball.initialY && ball.speedMultiplier == 1.0
      && Velocity(ball.vx, ball.vy) == LaunchVelocity(trig, ball.speed, launchAngle, upOrDown, leftOrRight)
      && lpaddle.y == lpaddle.initialY && lpaddle.x == lpaddle.initialX && lpaddle.speedMultiplier == 1.0
      && rpaddle.y == rpaddle.initialY && rpaddle.x == rpaddle.initialX && rpaddle.speedMultiplier == 1.0
      && lscoreCard.score == 0 && rscoreCard.score == 0
    }

    /** The ball's fixed dimensions and speeds, as the collision rules see them. */
    function Shape(): (r: BallShape)
      ensures r.diameter == ball.diameter && r.speed == ball.speed && r.maxBounceAngle == ball.maxBounceAngle
    {
      BallShape(ball.diameter, ball.speed, ball.maxBounceAngle)
    }

    /** The ball's current position and velocity. */
    function BallMotion(): (r: Motion)
      reads ball
      ensures r.x == ball.x && r.y == ball.y && r.vx == ball.vx && r.vy == ball.vy
    {
      Motion(ball.x, ball.y, ball.vx, ball.vy)
    }

    /** Whether a slow motion is running. */
    function SlowMotionActive(): (r: bool)
      reads this
      ensures r <==> timeSlowMotionStartedMs != None
    {
      timeSlowMotionStartedMs.Some?
    }

    /** The current snapshot of the game. */
    function State(): GameState
      reads this, ball, lpaddle, rpaddle, lscoreCard, rscoreCard
    {
      GameState(BallMotion(), ball.speedMultiplier, lpaddle.Bounds(), rpaddle.Bounds(),
                lscoreCard.score, rscoreCard.score, timeBallLastSpeedupMs,
                SlowMotion(slowMotionsRemaining, timeSlowMotionStartedMs), running)
    }

    /**
     * One pass of the game loop on a snapshot, for a frame lasting `dtSec`
     * seconds: the ball step at the current multiplier and slow motion, a point
     * to the player it awards one to, the speed-up rule at the ball clock,
     * the left paddle's event (a click asks for a slow motion, a motion moves
     * the paddle), the right paddle tracking the moved ball at the speed the
     * new slow-motion state gives it, the expiry check, and the stop on a
     * quit, an escape or a winner. Only the paddles' heights move; at most
     * one point is scored; no charge is given back; and a slow motion still
     * running has run less than 5 s at the expiry check.
     */
    function PlayFrame(s: GameState, f: Frame, dtSec: real): (r: GameState)
      requires s.lpaddle.height > 0.0 && s.rpaddle.height > 0.0
      requires InOrder(f) && StampsNotAfter(s.lastSpeedupMs, s.slowMotion.startedMs, f.ballClockMs)
      ensures r.lpaddle == s.lpaddle.(y := r.lpaddle.y) && r.rpaddle == s.rpaddle.(y := r.rpaddle.y)
      ensures StampsNotAfter(r.lastSpeedupMs, r.slowMotion.startedMs, f.expiryClockMs)
      ensures s.lscore <= r.lscore && s.rscore <= r.rscore && r.lscore + r.rscore <= s.lscore + s.rscore + 1
      ensures r.running <==> s.running && !StoppedBy(f, r.lscore, r.rscore)
      ensures r.slowMotion.remaining <= s.slowMotion.remaining
      ensures r.slowMotion.startedMs.Some? ==> f.expiryClockMs < r.slowMotion.startedMs.value + SLOW_MOTION_DURATION_MS
    {
      var moved := BallStage(s, f.ballClockMs, dtSec);
      var clicked := LeftStage(moved, f.polled, f.clickClockMs);
      WinStage(ExpiryStage(RightStage(clicked, dtSec), f.expiryClockMs))
    }

    /**
     * The ball stage of a pass: the ball takes its step, a point goes to the
     * player the step awards it to, and the speed-up rule runs at `nowMs`.
     */
    function BallStage(s: GameState, nowMs: nat, dtSec: real): GameState
      requires s.lpaddle.height > 0.0 && s.rpaddle.height > 0.0
      requires s.lastSpeedupMs.Some? ==> s.lastSpeedupMs.value <= nowMs
    {
      var o := StepOutcome(s, dtSec);
      var speedup := SpeedupRule(s.lastSpeedupMs, nowMs, AllowsSpeedup(o), s.multiplier, s.slowMotion.startedMs.Some?);
      s.(ball := o.ball, multiplier := s.multiplier + (if speedup.bumped then SPEEDUP_STEP else 0.0),
         lscore := s.lscore + (if o.point == PointToLeft then 1 else 0),
         rscore := s.rscore + (if o.point == PointToRight then 1 else 0),
         lastSpeedupMs := speedup.lastSpeedupMs)
    }

    /** The left paddle's stage: a click asks for a slow motion, a motion moves the paddle, a quit or an escape stops. */
    function LeftStage(s: GameState, polled: Option<Event>, nowMs: nat): GameState {
      s.(lpaddle := s.lpaddle.(y := if polled.Some? && polled.value.MouseMotion?
                                   then ClampToField(polled.value.y as real, s.lpaddle.height, height)
                                   else s.lpaddle.y),
         slowMotion := SlowMotionAfter(polled, s.slowMotion, nowMs),
         running := s.running && polled != Some(Quit) && polled != Some(EscapeKeyDown))
    }

    /** The right paddle's stage: it tracks the ball at the speed the multiplier and the slow motion give it. */
    function RightStage(s: GameState, dtSec: real): GameState {
      s.(rpaddle := s.rpaddle.(y := ClampToField(
           TrackTarget(s.rpaddle.y, s.rpaddle.height, TrackingY(s.ball.y, s.ball.vx, ball.diameter, height),
                       PaddleStep(rpaddle.speed, s.multiplier, s.slowMotion.startedMs.Some?, dtSec)),
           s.rpaddle.height, height)))
    }

    /** The expiry stage: a slow motion that has run for 5 s at `nowMs` ends. */
    function ExpiryStage(s: GameState, nowMs: nat): GameState
      requires s.slowMotion.startedMs.Some? ==> s.slowMotion.startedMs.value <= nowMs
    {
      s.(slowMotion := s.slowMotion.(startedMs := ExpireSlowMotion(s.slowMotion.startedMs, nowMs)))
    }

    /** The win stage: a game whose scores name a winner stops. */
    function WinStage(s: GameState): GameState {
      s.(running := s.running && Winner(s.lscore, s.rscore).None?)
    }

    /**
     * The game loop from snapshot `s` over the frames from index `n` on, the
     * previous loop-clock reading being `lastMs`: while the game runs and
     * frames remain, the next frame is played over the time since the
     * previous reading. A stopped game, or one out of frames, stays as it
     * is. Scores never go down, and a game stopped at the start stays
     * stopped.
     */
    function PlayFrames(s: GameState, lastMs: nat, frames: seq<Frame>, n: nat): (r: GameState)
      requires PlayableFrom(s, lastMs, frames, n)
      ensures s.lscore <= r.lscore && s.rscore <= r.rscore
      ensures r.running ==> s.running
      decreases |frames| - n
    {
      if n == |frames| || !s.running then s
      else PlayFrames(PlayFrame(s, frames[n], FrameSeconds(frames[n].loopClockMs - lastMs)), frames[n].loopClockMs, frames, n + 1)
    }

    /** A stopped game, or one out of frames, is where the loop leaves it. */
    lemma PlayFramesDone(s: GameState, lastMs: nat, frames: seq<Frame>, n: nat)
      requires PlayableFrom(s, lastMs, frames, n) && (n == |frames| || !s.running)
      ensures PlayFrames(s, lastMs, frames, n) == s
    {
    }

    /** Playing the frames from index `n` on from a running game is playing frame `n`, then the rest. */
    lemma PlayFramesOn(frames: seq<Frame>, n: nat, lastMs: nat, s: GameState, s': GameState)
      requires n < |frames| && s.running && PlayableFrom(s, lastMs, frames, n)
      requires s' == PlayFrame(s, frames[n], FrameSeconds(frames[n].loopClockMs - lastMs))
      ensures PlayableFrom(s', frames[n].loopClockMs, frames, n + 1)
      ensures PlayFrames(s', frames[n].loopClockMs, frames, n + 1) == PlayFrames(s, lastMs, frames, n)
    {
    }

    /** The ball step of a frame lasting `dtSec` from snapshot `s`, at its multiplier and slow motion. */
    function StepOutcome(s: GameState, dtSec: real): Outcome
      requires s.lpaddle.height > 0.0 && s.rpaddle.height > 0.0
    {
      BallStep(trig, Shape(), s.ball, s.multiplier, s.slowMotion.startedMs.Some?, s.lpaddle, s.rpaddle, width, height, dtSec)
    }

    /** What the ball step of a frame lasting `dtSec` makes of the current state. */
    ghost function NextOutcome(dtSec: real): (o: Outcome)
      reads this, ball, lpaddle, rpaddle, lscoreCard, rscoreCard
      requires Valid()
      ensures HasSpeed(o.ball.vx, o.ball.vy, ball.speed)
    {
      BallStepConservesSpeed(trig, Shape(), BallMotion(), ball.speedMultiplier, SlowMotionActive(),
                             lpaddle.Bounds(), rpaddle.Bounds(), width, height, dtSec);
      StepOutcome(State(), dtSec)
    }

    /** A game that is not running, reset with the given launch draws. */
    constructor (trig: Trig, width: real, height: real, fps: nat, ball: Ball, lpaddle: Paddle, rpaddle: Paddle,
                 lscoreCard: ScoreCard, rscoreCard: ScoreCard,
                 launchAngle: real, upOrDown: real, leftOrRight: real)
      requires trig.Lawful()
      requires 0.0 <= launchAngle < ball.maxLaunchAngle
      requires upOrDown == 1.0 || upOrDown == -1.0
      requires leftOrRight == 1.0 || leftOrRight == -1.0
      modifies ball, lpaddle, rpaddle, lscoreCard, rscoreCard
      ensures this.trig == trig && this.width == width && this.height == height && this.fps == fps
      ensures this.ball == ball && this.lpaddle == lpaddle && this.rpaddle == rpaddle
      ensures this.lscoreCard == lscoreCard && this.rscoreCard == rscoreCard
      ensures !running
      ensures Restarted(launchAngle, upOrDown, leftOrRight)
      ensures Configured() ==> Valid()
    {
      this.trig := trig;
      this.width := width;
      this.height := height;
      this.fps := fps;
      this.ball := ball;
      this.lpaddle := lpaddle;
      this.rpaddle := rpaddle;
      this.lscoreCard := lscoreCard;
      this.rscoreCard := rscoreCard;
      timeBallLastSpeedupMs := None;
      slowMotionsRemaining := SLOW_MOTIONS_PER_ROUND;
      timeSlowMotionStartedMs := None;
      running := false;
      new;
      Reset(launchAngle, upOrDown, leftOrRight);
    }

    /**
     * Back to the start of a round: no speed-up time, three slow motions, no
     * slow motion running, then the ball, the paddles and the score cards
     * reset in that order.
     */
    method Reset(launchAngle: real, upOrDown: real, leftOrRight: real)
      requires trig.Lawful()
      requires 0.0 <= launchAngle < ball.maxLaunchAngle
      requires upOrDown == 1.0 || upOrDown == -1.0
      requires leftOrRight == 1.0 || leftOrRight == -1.0
      modifies this`timeBallLastSpeedupMs, this`slowMotionsRemaining, this`timeSlowMotionStartedMs
      modifies ball, lpaddle, rpaddle, lscoreCard, rscoreCard
      ensures Restarted(launchAngle, upOrDown, leftOrRight)
      ensures Configured() ==> Valid()
    {
      timeBallLastSpeedupMs := None;
      slowMotionsRemaining := SLOW_MOTIONS_PER_ROUND;
      timeSlowMotionStartedMs := None;
      ball.Reset(trig, launchAngle, upOrDown, leftOrRight);
      lpaddle.Reset();
      rpaddle.Reset();
      lscoreCard.Reset();
      rscoreCard.Reset();
    }

    /**
     * One frame of ball movement: the ball ends where the ball step puts it,
     * a point goes to the player the step awards it to, the step's sounds
     * are queued in order, and the speed-up rule decides whether the ball and
     * the right paddle speed up. The invariant, including the ball's base
     * speed, is kept.
     */
    method MoveBall(ctx: GameLoopContext, nowMs: nat)
      requires Valid() && ClockNotBefore(nowMs)
      modifies this`timeBallLastSpeedupMs, ball, rpaddle`speedMultiplier, lscoreCard`score, rscoreCard`score
      modifies ctx`audibleQueue
      ensures Valid() && ClockNotBefore(nowMs)
      ensures var o := old(NextOutcome(ctx.dtSec));
        && BallMotion() == o.ball
        && lscoreCard.score == old(lscoreCard.score) + (if o.point == PointToLeft then 1 else 0)
        && rscoreCard.score == old(rscoreCard.score) + (if o.point == PointToRight then 1 else 0)
        && ctx.audibleQueue == old(ctx.audibleQueue) + Sounds(o)
      ensures var s := SpeedupRule(old(timeBallLastSpeedupMs), nowMs, AllowsSpeedup(old(NextOutcome(ctx.dtSec))),
                                   old(ball.speedMultiplier), SlowMotionActive());
        && timeBallLastSpeedupMs == s.lastSpeedupMs
        && ball.speedMultiplier == old(ball.speedMultiplier) + (if s.bumped then SPEEDUP_STEP else 0.0)
      ensures State() == BallStage(old(State()), nowMs, ctx.dtSec)
    {
      ghost var o := NextOutcome(ctx.dtSec);
      var bounce := MoveAndCollide(ctx);
      SpeedupBoundsMultiplier(timeBallLastSpeedupMs, nowMs, bounce, ball.speedMultiplier, SlowMotionActive());
      SpeedUp(nowMs, bounce);
    }

    /**
     * The ball step of move_ball without the speed-up: advance, then bounce
     * off the top or bottom wall, a paddle and a scoring wall in turn. The
     * result is the ball step's outcome; `bounce` says whether it allows a
     * speed-up.
     */
    method MoveAndCollide(ctx: GameLoopContext) returns (bounce: bool)
      requires lpaddle.height > 0.0 && rpaddle.height > 0.0 && lscoreCard != rscoreCard
      modifies ball`x, ball`y, ball`vx, ball`vy, lscoreCard`score, rscoreCard`score, ctx`audibleQueue
      ensures var o := old(BallStep(trig, Shape(), BallMotion(), ball.speedMultiplier, SlowMotionActive(),
                                    lpaddle.Bounds(), rpaddle.Bounds(), width, height, ctx.dtSec));
        && BallMotion() == o.ball
        && lscoreCard.score == old(lscoreCard.score) + (if o.point == PointToLeft then 1 else 0)
        && rscoreCard.score == old(rscoreCard.score) + (if o.point == PointToRight then 1 else 0)
        && ctx.audibleQueue == old(ctx.audibleQueue) + Sounds(o)
        && bounce == AllowsSpeedup(o)
    {
      ghost var b := BallMotion();
      ghost var sounds := ctx.audibleQueue;
      ghost var o := BallStep(trig, Shape(), b, ball.speedMultiplier, SlowMotionActive(),
                              lpaddle.Bounds(), rpaddle.Bounds(), width, height, ctx.dtSec);

      // Tentative position.
      var newX := Advance(ball.x, ball.vx, ball.speedMultiplier, SlowMotionActive(), ctx.dtSec);
      var newY := Advance(ball.y, ball.vy, ball.speedMultiplier, SlowMotionActive(), ctx.dtSec);
      ghost var wall := ReflectOffTopOrBottom(newY, ball.vy, ball.diameter, height);
      ghost var deflection := PaddleStage(trig, Shape(), b.x, b.y, newX, wall.pos, b.vx, wall.vel,
                                          lpaddle.Bounds(), rpaddle.Bounds(), ctx.dtSec);
      ghost var scoring := ReflectOffScoringWall(deflection.x, deflection.vx, ball.diameter, width);
      assert o == Outcome(Motion(scoring.pos, deflection.y, scoring.vel, deflection.vy),
                          wall.bounced, deflection.hit, scoring.point);

      newY := BounceOffTopOrBottom(ctx, newY);
      newX, newY, bounce := BounceOffPaddles(ctx, newX, newY);
      var scored;
      newX, scored := BounceOffScoringWalls(ctx, newX);
      bounce := bounce || scored;
      ball.x := newX;
      ball.y := newY;
    }

    /**
     * A tentative height beyond the top or bottom wall is mirrored back into
     * the field, the vertical velocity reversed and a ping queued.
     */
    method BounceOffTopOrBottom(ctx: GameLoopContext, newY: real) returns (y: real)
      modifies ball`vy, ctx`audibleQueue
      ensures var r := ReflectOffTopOrBottom(newY, old(ball.vy), ball.diameter, height);
        && y == r.pos && ball.vy == r.vel
        && ctx.audibleQueue == old(ctx.audibleQueue) + (if r.bounced then [Ping] else [])
    {
      y := newY;
      if y < 0.0 {
        y := -y;
        ball.vy := -ball.vy;
        ctx.audibleQueue := ctx.audibleQueue + [Ping];
      } else if y + ball.diameter >= height {
        y := height - (y + ball.diameter - height) - ball.diameter;
        ball.vy := -ball.vy;
        ctx.audibleQueue := ctx.audibleQueue + [Ping];
      }
    }

    /**
     * A swept crossing of a paddle's face at a height that meets the paddle
     * bounces the ball off it at the angle the hit offset gives, re-advances
     * it for the rest of the frame and queues a pong.
     */
    method BounceOffPaddles(ctx: GameLoopContext, newX: real, newY: real) returns (x: real, y: real, bounce: bool)
      requires lpaddle.height > 0.0 && rpaddle.height > 0.0
      modifies ball`vx, ball`vy, ctx`audibleQueue
      ensures var d := old(PaddleStage(trig, Shape(), ball.x, ball.y, newX, newY, ball.vx, ball.vy,
                                       lpaddle.Bounds(), rpaddle.Bounds(), ctx.dtSec));
        && x == d.x && y == d.y && ball.vx == d.vx && ball.vy == d.vy && bounce == (d.hit != NoHit)
        && ctx.audibleQueue == old(ctx.audibleQueue) + (if d.hit != NoHit then [Pong] else [])
    {
      x, y, bounce := newX, newY, false;
      var lp, rp := lpaddle.Bounds(), rpaddle.Bounds();
      if newX < lp.x + lp.width && ball.x >= lp.x + lp.width {
        assert CrossesLeftPaddle(ball.x, newX, lp);
        var bounceX := lp.x + lp.width;
        var bounceY := Interpolate(ball.x, ball.y, newX, newY, bounceX);
        if bounceY + ball.diameter >= lp.y && bounceY <= lp.y + lp.height {
          assert LeftPaddleHit(ball.x, ball.y, newX, newY, ball.diameter, lp);
          var v := Rebound(trig, ball.speed, BounceAngle(bounceY, ball.diameter, lp, ball.maxBounceAngle), ball.vy, 1.0);
          var bounceDtSec := RemainingFrameTime(ctx.dtSec, ball.x, newX, bounceX);
          LeftHitDeflection(trig, Shape(), ball.x, ball.y, newX, newY, ball.vx, ball.vy, lp, rp, ctx.dtSec, bounceY, v, bounceDtSec);
          ball.vx, ball.vy := v.vx, v.vy;
          x := bounceX + v.vx * bounceDtSec;
          y := bounceY + v.vy * bounceDtSec;
          ctx.audibleQueue := ctx.audibleQueue + [Pong];
          bounce := true;
        } else {
          MissDeflection(trig, Shape(), ball.x, ball.y, newX, newY, ball.vx, ball.vy, lp, rp, ctx.dtSec);
        }
      } else if newX + ball.diameter > rp.x && ball.x + ball.diameter <= rp.x {
        assert !CrossesLeftPaddle(ball.x, newX, lp) && CrossesRightPaddle(ball.x, newX, ball.diameter, rp);
        var bounceX := rp.x - ball.diameter;
        var bounceY := Interpolate(ball.x, ball.y, newX, newY, bounceX);
        if bounceY + ball.diameter >= rp.y && bounceY <= rp.y + rp.height {
          assert RightPaddleHit(ball.x, ball.y, newX, newY, ball.diameter, rp);
          var v := Rebound(trig, ball.speed, BounceAngle(bounceY, ball.diameter, rp, ball.maxBounceAngle), ball.vy, -1.0);
          var bounceDtSec := RemainingFrameTime(ctx.dtSec, ball.x, newX, bounceX);
          RightHitDeflection(trig, Shape(), ball.x, ball.y, newX, newY, ball.vx, ball.vy, lp, rp, ctx.dtSec, bounceY, v, bounceDtSec);
          ball.vx, ball.vy := v.vx, v.vy;
          x := bounceX + v.vx * bounceDtSec;
          y := bounceY + v.vy * bounceDtSec;
          ctx.audibleQueue := ctx.audibleQueue + [Pong];
          bounce := true;
        } else {
          MissDeflection(trig, Shape(), ball.x, ball.y, newX, newY, ball.vx, ball.vy, lp, rp, ctx.dtSec);
        }
      } else {
        MissDeflection(trig, Shape(), ball.x, ball.y, newX, newY, ball.vx, ball.vy, lp, rp, ctx.dtSec);
      }
    }

    /**
     * A tentative position beyond the left or right wall is mirrored back,
     * the horizontal velocity reversed, a point given to the player at the
     * other end and a ping queued.
     */
    method BounceOffScoringWalls(ctx: GameLoopContext, newX: real) returns (x: real, scored: bool)
      requires lscoreCard != rscoreCard
      modifies ball`vx, lscoreCard`score, rscoreCard`score, ctx`audibleQueue
      ensures var w := ReflectOffScoringWall(newX, old(ball.vx), ball.diameter, width);
        && x == w.pos && ball.vx == w.vel && scored == (w.point != NoPoint)
        && lscoreCard.score == old(lscoreCard.score) + (if w.point == PointToLeft then 1 else 0)
        && rscoreCard.score == old(rscoreCard.score) + (if w.point == PointToRight then 1 else 0)
        && ctx.audibleQueue == old(ctx.audibleQueue) + (if scored then [Ping] else [])
    {
      x, scored := newX, false;
      if x < 0.0 {
        x := -x;
        ball.vx := -ball.vx;
        rscoreCard.score := rscoreCard.score + 1;
        ctx.audibleQueue := ctx.audibleQueue + [Ping];
        scored := true;
      } else if x + ball.diameter > width {
        x := width - (x + ball.diameter - width) - ball.diameter;
        ball.vx := -ball.vx;
        lscoreCard.score := lscoreCard.score + 1;
        ctx.audibleQueue := ctx.audibleQueue + [Ping];
        scored := true;
      }
    }

    /**
     * The periodic speed-up of the ball and the right paddle together, as
     * the speed-up rule decides it.
     */
    method SpeedUp(nowMs: nat, bounce: bool)
      requires ClockNotBefore(nowMs)
      modifies this`timeBallLastSpeedupMs, ball`speedMultiplier, rpaddle`speedMultiplier
      ensures var s := SpeedupRule(old(timeBallLastSpeedupMs), nowMs, bounce, old(ball.speedMultiplier), SlowMotionActive());
        && timeBallLastSpeedupMs == s.lastSpeedupMs
        && ball.speedMultiplier == old(ball.speedMultiplier) + (if s.bumped then SPEEDUP_STEP else 0.0)
        && rpaddle.speedMultiplier == old(rpaddle.speedMultiplier) + (if s.bumped then SPEEDUP_STEP else 0.0)
    {
      match timeBallLastSpeedupMs {
        case None =>
          timeBallLastSpeedupMs := Some(nowMs);
        case Some(lastSpeedupMs) =>
          if nowMs - lastSpeedupMs > SPEEDUP_INTERVAL_MS && bounce
             && ball.speedMultiplier < SPEEDUP_CAP && timeSlowMotionStartedMs.None? {
            ball.speedMultiplier := ball.speedMultiplier + SPEEDUP_STEP;
            rpaddle.speedMultiplier := rpaddle.speedMultiplier + SPEEDUP_STEP;
            timeBallLastSpeedupMs := Some(nowMs);
          }
      }
    }

    /**
     * The left paddle follows the polled event: quit and escape stop the
     * game, a click is a slow-motion request, and a mouse motion puts the
     * paddle at the pointer's height, kept inside the field.
     */
    method MoveLeftPaddle(polled: Option<Event>, nowMs: nat)
      requires Valid() && ClockNotBefore(nowMs)
      modifies this`running, this`slowMotionsRemaining, this`timeSlowMotionStartedMs, lpaddle`y
      ensures Valid() && ClockNotBefore(nowMs)
      ensures running == (old(running) && polled != Some(Quit) && polled != Some(EscapeKeyDown))
      ensures polled == Some(MouseButtonDown) ==>
        SlowMotion(slowMotionsRemaining, timeSlowMotionStartedMs)
          == ClickSlowMotion(SlowMotion(old(slowMotionsRemaining), old(timeSlowMotionStartedMs)), nowMs)
      ensures polled != Some(MouseButtonDown) ==>
        slowMotionsRemaining == old(slowMotionsRemaining) && timeSlowMotionStartedMs == old(timeSlowMotionStartedMs)
      ensures polled.Some? && polled.value.MouseMotion? ==>
        lpaddle.y == ClampToField(polled.value.y as real, lpaddle.height, height)
      ensures !(polled.Some? && polled.value.MouseMotion?) ==> lpaddle.y == old(lpaddle.y)
      ensures State() == LeftStage(old(State()), polled, nowMs)
    {
      match polled
      case None =>
      case Some(event) =>
        match event
        case Quit =>
          running := false;
        case EscapeKeyDown =>
          running := false;
        case MouseButtonDown =>
          if slowMotionsRemaining > 0 && timeSlowMotionStartedMs.None? {
            slowMotionsRemaining := slowMotionsRemaining - 1;
            timeSlowMotionStartedMs := Some(nowMs);
          }
        case MouseMotion(y) =>
          lpaddle.y := y as real;
          if lpaddle.y < 0.0 {
            lpaddle.y := 0.0;
          } else if lpaddle.y + lpaddle.height > height {
            lpaddle.y := height - lpaddle.height;
          }
        case OtherEvent =>
    }

    /**
     * The computer's paddle tracks the ball while it approaches and heads
     * for mid-field otherwise, at its modified speed, without overshooting,
     * and stays inside the field.
     */
    method MoveRightPaddle(ctx: GameLoopContext)
      requires Valid()
      modifies rpaddle`y
      ensures Valid()
      ensures rpaddle.y == old(ClampToField(
        TrackTarget(rpaddle.y, rpaddle.height, TrackingY(ball.y, ball.vx, ball.diameter, height),
                    PaddleStep(rpaddle.speed, rpaddle.speedMultiplier, SlowMotionActive(), ctx.dtSec)),
        rpaddle.height, height))
      ensures State() == RightStage(old(State()), ctx.dtSec)
    {
      ghost var step := PaddleStep(rpaddle.speed, rpaddle.speedMultiplier, SlowMotionActive(), ctx.dtSec);
      assert step == ModSpeed(rpaddle.speed, rpaddle.speedMultiplier, SlowMotionActive()) * ctx.dtSec;
      ghost var tracked := TrackTarget(rpaddle.y, rpaddle.height, TrackingY(ball.y, ball.vx, ball.diameter, height), step);
      ghost var s, ry := State(), ClampToField(tracked, rpaddle.height, height);
      assert RightStage(s, ctx.dtSec) == s.(rpaddle := s.rpaddle.(y := ry));
      var trackingY := if ball.vx > 0.0 then ball.y + ball.diameter / 2.0 else height / 2.0;
      if trackingY > rpaddle.y + rpaddle.height * (3.0 / 4.0) {
        rpaddle.y := rpaddle.y + ModSpeed(rpaddle.speed, rpaddle.speedMultiplier, SlowMotionActive()) * ctx.dtSec;
        if rpaddle.y > trackingY {
          rpaddle.y := trackingY - rpaddle.height / 2.0;
        }
      } else if trackingY < rpaddle.y + rpaddle.height * (1.0 / 4.0) {
        rpaddle.y := rpaddle.y - ModSpeed(rpaddle.speed, rpaddle.speedMultiplier, SlowMotionActive()) * ctx.dtSec;
        if rpaddle.y + rpaddle.height < trackingY {
          rpaddle.y := trackingY - rpaddle.height / 2.0;
        }
      }
      assert rpaddle.y == tracked;
      if rpaddle.y < 0.0 {
        rpaddle.y := 0.0;
      } else if rpaddle.y + rpaddle.height > height {
        rpaddle.y := height - rpaddle.height;
      }
      assert rpaddle.y == ry && 0.0 <= ry && ry + rpaddle.height <= height;
      assert rpaddle.Bounds() == s.rpaddle.(y := ry);
      assert State() == s.(rpaddle := rpaddle.Bounds());
    }

    /** A player with five points wins, the left one first, and a win stops the game. */
    method CheckForWin() returns (winner: Option<Side>)
      modifies this`running
      ensures winner == Winner(lscoreCard.score, rscoreCard.score)
      ensures running == (old(running) && winner.None?)
      ensures State() == WinStage(old(State()))
    {
      winner := None;
      if lscoreCard.score >= POINTS_TO_WIN {
        winner := Some(LeftPlayer);
      } else if rscoreCard.score >= POINTS_TO_WIN {
        winner := Some(RightPlayer);
      }
      if winner.Some? {
        running := false;
      }
    }

    /** The sleep that pads a frame which took `durationMs` to the frame budget. */
    method CapFramesPerSecond(durationMs: nat) returns (sleepMs: Option<nat>)
      requires 0 < fps
      ensures sleepMs == FrameDelayMs(fps, durationMs)
    {
      var maxDelayMs := 1000 / fps;
      if maxDelayMs > durationMs {
        sleepMs := Some(maxDelayMs - durationMs);
      } else {
        sleepMs := None;
      }
    }

    /**
     * One pass of the game loop: move the ball, the left paddle and the right
     * paddle, end a slow motion that has run for 5 s, and check for a win.
     * Each step ends in its stage of the snapshot, so the pass ends in
     * `PlayFrame` of the old snapshot; the queued sounds are the ball step's.
     */
    method ExecuteGameLoopIterationPerFrame(ctx: GameLoopContext, f: Frame) returns (winner: Option<Side>)
      requires Valid() && InOrder(f) && ClockNotBefore(f.ballClockMs)
      modifies this`timeBallLastSpeedupMs, this`slowMotionsRemaining, this`timeSlowMotionStartedMs, this`running
      modifies ball, lpaddle`y, rpaddle`y, rpaddle`speedMultiplier, lscoreCard`score, rscoreCard`score
      modifies ctx`audibleQueue
      ensures Valid() && ClockNotBefore(f.expiryClockMs)
      ensures State() == PlayFrame(old(State()), f, ctx.dtSec)
      ensures ctx.audibleQueue == old(ctx.audibleQueue) + Sounds(old(NextOutcome(ctx.dtSec)))
      ensures winner == Winner(lscoreCard.score, rscoreCard.score)
    {
      MoveBall(ctx, f.ballClockMs);
      MoveLeftPaddle(f.polled, f.clickClockMs);
      MoveRightPaddle(ctx);
      EndSlowMotionIfElapsed(f.expiryClockMs);
      winner := CheckForWin();
    }

    /** A slow motion that has run for 5 s or more ends. */
    method EndSlowMotionIfElapsed(nowMs: nat)
      requires ClockNotBefore(nowMs)
      modifies this`timeSlowMotionStartedMs
      ensures timeSlowMotionStartedMs == ExpireSlowMotion(old(timeSlowMotionStartedMs), nowMs)
      ensures State() == ExpiryStage(old(State()), nowMs)
    {
      match timeSlowMotionStartedMs {
        case None =>
        case Some(startedMs) =>
          if nowMs - startedMs >= SLOW_MOTION_DURATION_MS {
            timeSlowMotionStartedMs := None;
          }
      }
    }

    /**
     * One turn of the game loop: the frame is timed from the previous one's
     * loop-clock reading, played over that duration, and padded to the frame
     * budget. The new snapshot is the old one with the frame played over
     * that duration.
     */
    method RunFrame(f: Frame, timeLastInvocationMs: nat) returns (sleepMs: Option<nat>)
      requires Valid() && InOrder(f) && ClockNotBefore(f.ballClockMs) && timeLastInvocationMs <= f.loopClockMs
      modifies this`timeBallLastSpeedupMs, this`slowMotionsRemaining, this`timeSlowMotionStartedMs, this`running
      modifies ball, lpaddle`y, rpaddle`y, rpaddle`speedMultiplier, lscoreCard`score, rscoreCard`score
      ensures Valid() && ClockNotBefore(f.expiryClockMs)
      ensures State() == PlayFrame(old(State()), f, FrameSeconds(f.loopClockMs - timeLastInvocationMs))
      ensures sleepMs == FrameDelayMs(fps, f.loopClockMs - timeLastInvocationMs)
    {
      hide PlayFrame;
      var dtMs := f.loopClockMs - timeLastInvocationMs;
      var ctx := new GameLoopContext(FrameSeconds(dtMs));
      var _ := ExecuteGameLoopIterationPerFrame(ctx, f);
      sleepMs := CapFramesPerSecond(dtMs);
    }

    /**
     * Turn `n` of the game loop, the previous loop-clock reading being
     * `lastMs`: the frames still to come play on from the new state as they
     * did from the old one with frame `n` first, and the loop's record gains
     * the turn's sleep and the scores after it.
     */
    method PlayTurn(ghost startMs: nat, frames: seq<Frame>, n: nat, lastMs: nat, ghost sleepsMs: seq<Option<nat>>,
                    ghost scoresAfter: seq<(int, int)>, ghost startedBelow: bool)
      returns (sleepMs: Option<nat>)
      requires Valid() && running && MonotoneClock(startMs, frames) && n < |frames|
      requires lastMs == if n == 0 then startMs else frames[n - 1].loopClockMs
      requires ClockNotBefore(if n == 0 then startMs else frames[n - 1].expiryClockMs)
      requires LoopProgress(fps, startMs, frames, n, sleepsMs, scoresAfter, running,
                            lscoreCard.score, rscoreCard.score, startedBelow)
      modifies this`timeBallLastSpeedupMs, this`slowMotionsRemaining, this`timeSlowMotionStartedMs, this`running
      modifies ball, lpaddle`y, rpaddle`y, rpaddle`speedMultiplier, lscoreCard`score, rscoreCard`score
      ensures Valid() && ClockNotBefore(frames[n].expiryClockMs)
      ensures old(PlayableFrom(State(), lastMs, frames, n)) && PlayableFrom(State(), frames[n].loopClockMs, frames, n + 1)
      ensures PlayFrames(State(), frames[n].loopClockMs, frames, n + 1) == old(PlayFrames(State(), lastMs, frames, n))
      ensures LoopProgress(fps, startMs, frames, n + 1, sleepsMs + [sleepMs],
                           scoresAfter + [(lscoreCard.score, rscoreCard.score)], running,
                           lscoreCard.score, rscoreCard.score, startedBelow)
    {
      hide PlayFrame;
      ghost var s := State();
      sleepMs := RunFrame(frames[n], lastMs);
      PlayFramesOn(frames, n, lastMs, s, State());
      LoopTurn(fps, startMs, frames, n, sleepsMs, scoresAfter, s.lscore, s.rscore, startedBelow,
               sleepMs, lscoreCard.score, rscoreCard.score, running);
    }

    /**
     * The game loop over the frames the clock and the player supply: it
     * plays them in order, each over the time since the previous one, until
     * the first frame that quits or leaves a winner, or until the frames run
     * out, and pads each frame to the frame budget; a round that starts below
     * five points never takes a score beyond five. The game ends in the state
     * the frames run played it into. `scoresAfter` records the two scores
     * after each frame run: no frame before the last, nor the last while the
     * game still runs, quit or left a winner.
     */
    method ExecuteGameLoop(startMs: nat, frames: seq<Frame>)
      returns (framesRun: nat, sleepsMs: seq<Option<nat>>, ghost scoresAfter: seq<(int, int)>, ghost started: GameState)
      requires Valid() && ClockNotBefore(startMs) && MonotoneClock(startMs, frames)
      modifies this`timeBallLastSpeedupMs, this`slowMotionsRemaining, this`timeSlowMotionStartedMs, this`running
      modifies ball, lpaddle`y, rpaddle`y, rpaddle`speedMultiplier, lscoreCard`score, rscoreCard`score
      ensures Valid()
      ensures framesRun <= |frames| && |sleepsMs| == framesRun
      ensures started == old(State()).(running := true) && State() == PlayFrames(started, startMs, frames, 0)
      ensures running ==> framesRun == |frames|
      ensures !running ==> 0 < framesRun && StoppedBy(frames[framesRun - 1], lscoreCard.score, rscoreCard.score)
      ensures |scoresAfter| == framesRun
      ensures 0 < framesRun ==> scoresAfter[framesRun - 1] == (lscoreCard.score, rscoreCard.score)
      ensures forall i :: 0 <= i < framesRun && (running || i < framesRun - 1) ==>
        !StoppedBy(frames[i], scoresAfter[i].0, scoresAfter[i].1)
      ensures forall i :: 0 <= i < framesRun ==>
        sleepsMs[i] == FrameDelayMs(fps, frames[i].loopClockMs - (if i == 0 then startMs else frames[i - 1].loopClockMs))
      ensures old(lscoreCard.score) < POINTS_TO_WIN && old(rscoreCard.score) < POINTS_TO_WIN ==>
        lscoreCard.score <= POINTS_TO_WIN && rscoreCard.score <= POINTS_TO_WIN
      ensures 0 < framesRun && running ==> lscoreCard.score < POINTS_TO_WIN && rscoreCard.score < POINTS_TO_WIN
    {
      hide PlayFrame, PlayableFrom, MonotoneClock;
      running := true;
      started := State();
      PlayableAtStart(started, startMs, frames);
      ghost var final := PlayFrames(started, startMs, frames, 0);
      var timeLastInvocationMs := startMs;
      ghost var startedBelow := lscoreCard.score < POINTS_TO_WIN && rscoreCard.score < POINTS_TO_WIN;
      framesRun := 0;
      sleepsMs := [];
      scoresAfter := [];
      while running && framesRun < |frames|
        invariant Valid() && framesRun <= |frames|
        invariant timeLastInvocationMs == if framesRun == 0 then startMs else frames[framesRun - 1].loopClockMs
        invariant ClockNotBefore(if framesRun == 0 then startMs else frames[framesRun - 1].expiryClockMs)
        invariant PlayableFrom(State(), timeLastInvocationMs, frames, framesRun)
        invariant PlayFrames(State(), timeLastInvocationMs, frames, framesRun) == final
        invariant LoopProgress(fps, startMs, frames, framesRun, sleepsMs, scoresAfter, running,
                               lscoreCard.score, rscoreCard.score, startedBelow)
        decreases |frames| - framesRun
      {
        var sleepMs := PlayTurn(startMs, frames, framesRun, timeLastInvocationMs, sleepsMs, scoresAfter, startedBelow);
        sleepsMs := sleepsMs + [sleepMs];
        scoresAfter := scoresAfter + [(lscoreCard.score, rscoreCard.score)];
        timeLastInvocationMs := frames[framesRun].loopClockMs;
        framesRun := framesRun + 1;
      }
      PlayFramesDone(State(), timeLastInvocationMs, frames, framesRun);
    }
  }
}
