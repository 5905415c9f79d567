// Concrete frames of the ball step on an 800 x 600 field with a ball of
// diameter 10 and base speed 100, the left paddle at x = 10 and the right
// one at x = 780, both 10 wide and 100 high. Every ball below moves at its
// base speed, as the game's invariant demands.

module Scenarios {
  import opened Common
  import opened Physics

  const LeftPaddle: Rect := Rect(10.0, 250.0, 10.0, 100.0)
  const RightPaddle: Rect := Rect(780.0, 250.0, 10.0, 100.0)
  const Ball: BallShape := BallShape(10.0, 100.0, 0.75)

  /** A ball in open field moving right at 100 px/s travels 100 px in one second, untouched. */
  lemma FreeFlight(m: Trig)
    ensures BallStep(m, Ball, Motion(395.0, 295.0, 100.0, 0.0), 1.0, false, LeftPaddle, RightPaddle, 800.0, 600.0, 1.0)
            == Outcome(Motion(495.0, 295.0, 100.0, 0.0), false, NoHit, NoPoint)
  {
    BallStepFreeFlight(m, Ball, Motion(395.0, 295.0, 100.0, 0.0), 1.0, false, LeftPaddle, RightPaddle, 800.0, 600.0, 1.0);
  }

  /** A ball that would end 5 px above the top wall ends 5 px below it, heading down, with a ping. */
  lemma TopWall(m: Trig)
    ensures var o := BallStep(m, Ball, Motion(395.0, 3.0, 60.0, -80.0), 1.0, false, LeftPaddle, RightPaddle, 800.0, 600.0, 0.1);
      o == Outcome(Motion(401.0, 5.0, 60.0, 80.0), true, NoHit, NoPoint) && Sounds(o) == [Ping]
  {
    calc {
      BallStep(m, Ball, Motion(395.0, 3.0, 60.0, -80.0), 1.0, false, LeftPaddle, RightPaddle, 800.0, 600.0, 0.1);
      == { assert Advance(395.0, 60.0, 1.0, false, 0.1) == 401.0;
           assert Advance(3.0, -80.0, 1.0, false, 0.1) == -5.0; }
      Collide(m, Ball, Motion(395.0, 3.0, 60.0, -80.0), 401.0, -5.0, LeftPaddle, RightPaddle, 800.0, 600.0, 0.1);
      == { assert ReflectOffTopOrBottom(-5.0, -80.0, 10.0, 600.0) == Reflection(5.0, 80.0, true);
           assert !CrossesLeftPaddle(395.0, 401.0, LeftPaddle);
           assert !CrossesRightPaddle(395.0, 401.0, 10.0, RightPaddle);
           assert PaddleStage(m, Ball, 395.0, 3.0, 401.0, 5.0, 60.0, 80.0, LeftPaddle, RightPaddle, 0.1)
               == Deflection(401.0, 5.0, 60.0, 80.0, NoHit);
           assert ReflectOffScoringWall(401.0, 60.0, 10.0, 800.0) == WallBounce(401.0, 60.0, NoPoint); }
      Outcome(Motion(401.0, 5.0, 60.0, 80.0), true, NoHit, NoPoint);
    }
  }

  /**
   * A ball that passes the right wall, clear of the right paddle, is
   * mirrored back into the field with its horizontal velocity reversed, and
   * the point goes to the left player.
   */
  lemma RightWall(m: Trig)
    ensures var o := BallStep(m, Ball, Motion(705.0, 100.0, 100.0, 0.0), 1.0, false, LeftPaddle, RightPaddle, 800.0, 600.0, 1.0);
      o == Outcome(Motion(775.0, 100.0, -100.0, 0.0), false, NoHit, PointToLeft) && AllowsSpeedup(o)
  {
    calc {
      BallStep(m, Ball, Motion(705.0, 100.0, 100.0, 0.0), 1.0, false, LeftPaddle, RightPaddle, 800.0, 600.0, 1.0);
      == { assert Advance(705.0, 100.0, 1.0, false, 1.0) == 805.0;
           assert Advance(100.0, 0.0, 1.0, false, 1.0) == 100.0; }
      Collide(m, Ball, Motion(705.0, 100.0, 100.0, 0.0), 805.0, 100.0, LeftPaddle, RightPaddle, 800.0, 600.0, 1.0);
      == { assert ReflectOffTopOrBottom(100.0, 0.0, 10.0, 600.0) == Reflection(100.0, 0.0, false);
           ClearOfRightPaddle(m);
           assert ReflectOffScoringWall(805.0, 100.0, 10.0, 800.0) == WallBounce(775.0, -100.0, PointToLeft); }
      Outcome(Motion(775.0, 100.0, -100.0, 0.0), false, NoHit, PointToLeft);
    }
  }

  /** The ball of `RightWall` crosses the right paddle's face far above the paddle. */
  lemma ClearOfRightPaddle(m: Trig)
    ensures PaddleStage(m, Ball, 705.0, 100.0, 805.0, 100.0, 100.0, 0.0, LeftPaddle, RightPaddle, 1.0)
         == Deflection(805.0, 100.0, 100.0, 0.0, NoHit)
  {
    assert !CrossesLeftPaddle(705.0, 805.0, LeftPaddle);
    assert CrossesRightPaddle(705.0, 805.0, 10.0, RightPaddle);
    assert Interpolate(705.0, 100.0, 805.0, 100.0, 770.0) == 100.0;
    assert !Overlaps(100.0, 10.0, RightPaddle);
  }

  /**
   * A level ball meeting the left paddle dead centre goes straight back at
   * full speed, re-advanced for the half of the frame left after the bounce.
   * The end position uses the corrected, horizontal ratio: at this very input
   * (vy = 0) the vertical ratio at game.rs:419 is 0/0 (see
   * `LevelHitUndefinedInSource`).
   */
  lemma DeadCentreHit(m: Trig)
    requires m.sin(0.0) == 0.0 && m.cos(0.0) == 1.0
    ensures BallStep(m, Ball, Motion(25.0, 295.0, -100.0, 0.0), 1.0, false, LeftPaddle, RightPaddle, 800.0, 600.0, 0.1)
         == Outcome(Motion(25.0, 295.0, 100.0, 0.0), false, LeftHit, NoPoint)
  {
    calc {
      BallStep(m, Ball, Motion(25.0, 295.0, -100.0, 0.0), 1.0, false, LeftPaddle, RightPaddle, 800.0, 600.0, 0.1);
      == { assert Advance(25.0, -100.0, 1.0, false, 0.1) == 15.0;
           assert Advance(295.0, 0.0, 1.0, false, 0.1) == 295.0; }
      Collide(m, Ball, Motion(25.0, 295.0, -100.0, 0.0), 15.0, 295.0, LeftPaddle, RightPaddle, 800.0, 600.0, 0.1);
      == { assert ReflectOffTopOrBottom(295.0, 0.0, 10.0, 600.0) == Reflection(295.0, 0.0, false);
           DeadCentreStage(m);
           assert ReflectOffScoringWall(25.0, 100.0, 10.0, 800.0) == WallBounce(25.0, 100.0, NoPoint); }
      Outcome(Motion(25.0, 295.0, 100.0, 0.0), false, LeftHit, NoPoint);
    }
  }

  /** The paddle stage of the dead-centre hit: the swept test finds the left paddle at the ball's height. */
  lemma DeadCentreStage(m: Trig)
    requires m.sin(0.0) == 0.0 && m.cos(0.0) == 1.0
    ensures PaddleStage(m, Ball, 25.0, 295.0, 15.0, 295.0, -100.0, 0.0, LeftPaddle, RightPaddle, 0.1)
         == Deflection(25.0, 295.0, 100.0, 0.0, LeftHit)
  {
    assert CrossesLeftPaddle(25.0, 15.0, LeftPaddle);
    assert Interpolate(25.0, 295.0, 15.0, 295.0, 20.0) == 295.0;
    assert Overlaps(295.0, 10.0, LeftPaddle);
    DeadCentreBounce(m);
  }

  /** The bounce of the dead-centre hit: straight back at base speed, half a frame past the paddle's face. */
  lemma DeadCentreBounce(m: Trig)
    requires m.sin(0.0) == 0.0 && m.cos(0.0) == 1.0
    ensures BounceOff(m, Ball, 25.0, 15.0, 20.0, 295.0, LeftPaddle, 0.0, 1.0, 0.1, LeftHit)
         == Deflection(25.0, 295.0, 100.0, 0.0, LeftHit)
  {
    assert BounceAngle(295.0, 10.0, LeftPaddle, 0.75) == 0.0;
    assert Rebound(m, 100.0, 0.0, 0.0, 1.0) == Velocity(100.0, 0.0);
    assert RemainingFrameTime(0.1, 25.0, 15.0, 20.0) == 0.05 by {
      assert (15.0 - 20.0) / (15.0 - 25.0) == 0.5;
    }
  }

  /** Three slow motions, each left to run out, use up the round's charges: a fourth click does nothing. */
  lemma FourthClickIgnored()
    ensures var inputs := [Click(0), Expiry, Click(6000), Expiry, Click(12000), Expiry, Click(18000)];
      && SlowMotionsStarted(SlowMotion(SLOW_MOTIONS_PER_ROUND, None), inputs) == 3
      && ReplaySlowMotion(SlowMotion(SLOW_MOTIONS_PER_ROUND, None), inputs) == SlowMotion(0, None)
  {
  }
}
