// The ball of src/pongo/ball.rs: a class whose position, speed multiplier
// and velocity change in place, and whose reset relaunches it from its
// initial position in a random direction (the random draws are parameters).

module BallEntity {
  import opened Common
  import opened Physics

  /** The vertical part of a launch: the sine of the angle times the base speed, up (-1) or down (+1). */
  function LaunchVy(m: Trig, speed: real, angle: real, upOrDown: real): (vy: real) {
    m.sin(angle) * speed * upOrDown
  }

  /** The horizontal part of a launch, by Pythagoras from the vertical part, left (-1) or right (+1). */
  function LaunchVx(m: Trig, speed: real, vy: real, leftOrRight: real): (vx: real) {
    m.sqrt(speed * speed - vy * vy) * leftOrRight
  }

  /**
   * The launch velocity for angle `angle` (measured from the horizontal),
   * vertical sign `upOrDown` and horizontal sign `leftOrRight`.
   */
  function LaunchVelocity(m: Trig, speed: real, angle: real, upOrDown: real, leftOrRight: real): (v: Velocity) {
    var vy := LaunchVy(m, speed, angle, upOrDown);
    Velocity(LaunchVx(m, speed, vy, leftOrRight), vy)
  }

  /**
   * A launch never exceeds the base speed vertically, always has exactly the
   * base speed, heads horizontally in the chosen direction and, for a
   * non-negative speed and an angle below a half turn, vertically too.
   */
  lemma {:induction false} LaunchVelocityProperties(m: Trig, speed: real, angle: real, upOrDown: real, leftOrRight: real)
    requires m.Lawful()
    requires upOrDown == 1.0 || upOrDown == -1.0
    requires leftOrRight == 1.0 || leftOrRight == -1.0
    ensures var v := LaunchVelocity(m, speed, angle, upOrDown, leftOrRight);
      && v.vy * v.vy <= speed * speed
      && HasSpeed(v.vx, v.vy, speed)
      && 0.0 <= v.vx * leftOrRight
      && (0.0 <= speed && 0.0 <= angle <= 2.0 * m.halfPi ==> 0.0 <= v.vy * upOrDown)
  {
    LaunchVerticalBound(m, speed, angle, upOrDown);
    HorizontalByPythagoras(m, speed, LaunchVy(m, speed, angle, upOrDown), leftOrRight);
    LaunchVerticalSign(m, speed, angle, upOrDown);
  }

  /** The vertical part of a launch is at most the base speed in magnitude. */
  lemma {:induction false} LaunchVerticalBound(m: Trig, speed: real, angle: real, upOrDown: real)
    requires m.Lawful()
    requires upOrDown == 1.0 || upOrDown == -1.0
    ensures LaunchVy(m, speed, angle, upOrDown) * LaunchVy(m, speed, angle, upOrDown) <= speed * speed
  {
    SineSquaredAtMostOne(m, angle);
    calc {
      LaunchVy(m, speed, angle, upOrDown) * LaunchVy(m, speed, angle, upOrDown);
      == (m.sin(angle) * speed * upOrDown) * (m.sin(angle) * speed * upOrDown);
      == (m.sin(angle) * m.sin(angle)) * (speed * speed) * (upOrDown * upOrDown);
      == (m.sin(angle) * m.sin(angle)) * (speed * speed);
      <= { MulMonotone(m.sin(angle) * m.sin(angle), 1.0, speed * speed); }
      speed * speed;
    }
  }

  /** Below a half turn, a launch heads vertically in the drawn direction. */
  lemma {:induction false} LaunchVerticalSign(m: Trig, speed: real, angle: real, upOrDown: real)
    requires m.Lawful()
    requires upOrDown == 1.0 || upOrDown == -1.0
    ensures 0.0 <= speed && 0.0 <= angle <= 2.0 * m.halfPi ==> 0.0 <= LaunchVy(m, speed, angle, upOrDown) * upOrDown
  {
    calc {
      LaunchVy(m, speed, angle, upOrDown) * upOrDown;
      == m.sin(angle) * speed * upOrDown * upOrDown;
      == m.sin(angle) * speed * (upOrDown * upOrDown);
      == m.sin(angle) * speed;
    }
    if 0.0 <= speed && 0.0 <= angle <= 2.0 * m.halfPi {
      MulMonotone(0.0, m.sin(angle), speed);
    }
  }

  /** The horizontal part completes any vertical part within the base speed to exactly the base speed. */
  lemma {:induction false} HorizontalByPythagoras(m: Trig, speed: real, vy: real, leftOrRight: real)
    requires m.Lawful()
    requires vy * vy <= speed * speed
    requires leftOrRight == 1.0 || leftOrRight == -1.0
    ensures HasSpeed(LaunchVx(m, speed, vy, leftOrRight), vy, speed)
    ensures 0.0 <= LaunchVx(m, speed, vy, leftOrRight) * leftOrRight
  {
    var r := m.sqrt(speed * speed - vy * vy);
    assert 0.0 <= r && r * r == speed * speed - vy * vy;
    calc {
      LaunchVx(m, speed, vy, leftOrRight) * LaunchVx(m, speed, vy, leftOrRight);
      == (r * leftOrRight) * (r * leftOrRight);
      == (r * r) * (leftOrRight * leftOrRight);
      == r * r;
    }
    calc {
      LaunchVx(m, speed, vy, leftOrRight) * leftOrRight;
      == r * leftOrRight * leftOrRight;
      == r * (leftOrRight * leftOrRight);
      == r;
    }
  }

  class Ball {
    const color: Color
    const initialX: real
    const initialY: real
    var x: real
    var y: real
    const diameter: real
    /** Base speed in pixels per second; the stored velocity always has this magnitude. */
    const speed: real
    var speedMultiplier: real
    var vx: real
    var vy: real
    const maxLaunchAngle: real
    const maxBounceAngle: real

    ghost predicate Valid()
      reads this
    {
      0.0 < maxLaunchAngle && HasSpeed(vx, vy, speed)
    }

    /** A ball at (x, y) that is immediately reset, and so launched. */
    constructor (m: Trig, color: Color, x: real, y: real, diameter: real, speed: real,
                 maxLaunchAngle: real, maxBounceAngle: real,
                 launchAngle: real, upOrDown: real, leftOrRight: real)
      requires m.Lawful()
      requires 0.0 <= launchAngle < maxLaunchAngle
      requires upOrDown == 1.0 || upOrDown == -1.0
      requires leftOrRight == 1.0 || leftOrRight == -1.0
      ensures Valid()
      ensures this.color == color && this.diameter == diameter && this.speed == speed
      ensures this.maxLaunchAngle == maxLaunchAngle && this.maxBounceAngle == maxBounceAngle
      ensures initialX == x && initialY == y
      ensures this.x == x && this.y == y && speedMultiplier == 1.0
      ensures Velocity(vx, vy) == LaunchVelocity(m, speed, launchAngle, upOrDown, leftOrRight)
    {
      this.color := color;
      initialX := x;
      initialY := y;
      this.x := x;
      this.y := y;
      this.diameter := diameter;
      this.speed := speed;
      speedMultiplier := 1.0;
      vx := 0.0;
      vy := 0.0;
      this.maxLaunchAngle := maxLaunchAngle;
      this.maxBounceAngle := maxBounceAngle;
      new;
      Reset(m, launchAngle, upOrDown, leftOrRight);
    }

    /**
     * Back to the initial position at the base speed, launched at
     * `launchAngle` (drawn from [0, maxLaunchAngle)) in the drawn directions.
     */
    method Reset(m: Trig, launchAngle: real, upOrDown: real, leftOrRight: real)
      requires m.Lawful()
      requires 0.0 <= launchAngle < maxLaunchAngle
      requires upOrDown == 1.0 || upOrDown == -1.0
      requires leftOrRight == 1.0 || leftOrRight == -1.0
      modifies this
      ensures Valid()
      ensures x == initialX && y == initialY && speedMultiplier == 1.0
      ensures Velocity(vx, vy) == LaunchVelocity(m, speed, launchAngle, upOrDown, leftOrRight)
    {
      x := initialX;
      y := initialY;
      speedMultiplier := 1.0;
      var launch := LaunchVelocity(m, speed, launchAngle, upOrDown, leftOrRight);
      LaunchVelocityProperties(m, speed, launchAngle, upOrDown, leftOrRight);
      vx := launch.vx;
      vy := launch.vy;
    }
  }
}
