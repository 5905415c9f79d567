// The game rules of src/pongo/game.rs as pure functions over values:
// speed modification, the per-frame ball step (walls, paddles, scoring),
// the periodic speed-up, the right-paddle AI, clamping, the win check and
// the frame-cap delay. The Game class (game.dfy) applies them in place.

module Physics {
  import opened Common

  const SLOW_MOTION_FACTOR: real := 0.5
  const SLOW_MOTION_DURATION_MS: nat := 5000
  const SLOW_MOTIONS_PER_ROUND: nat := 3
  const SPEEDUP_INTERVAL_MS: nat := 15000
  const SPEEDUP_STEP: real := 0.1
  const SPEEDUP_CAP: real := 1.5
  const POINTS_TO_WIN: int := 5

  /** Axis-aligned rectangle of a paddle: top-left corner and size. */
  datatype Rect = Rect(x: real, y: real, width: real, height: real)

  /** The parts of a ball the step reads but never changes. */
  datatype BallShape = BallShape(diameter: real, speed: real, maxBounceAngle: real)

  /** The parts of a ball the step changes: top-left corner and velocity. */
  datatype Motion = Motion(x: real, y: real, vx: real, vy: real)

  datatype Velocity = Velocity(vx: real, vy: real)

  /** The velocity (vx, vy) has magnitude `speed`. */
  predicate HasSpeed(vx: real, vy: real, speed: real) {
    vx * vx + vy * vy == speed * speed
  }

  datatype PaddleHit = NoHit | LeftHit | RightHit

  /** Who a scoring-wall bounce awards a point to. */
  datatype Point = NoPoint | PointToLeft | PointToRight

  datatype Side = LeftPlayer | RightPlayer

  datatype Sound = Ping | Pong

  // ---------------------------------------------------------------------
  // mod_speed

  /** A speed scaled by its multiplier, and halved while slow motion is active. */
  function ModSpeed(speed: real, multiplier: real, slowMotion: bool): (r: real)
    ensures !slowMotion ==> r == speed * multiplier
    ensures slowMotion ==> 2.0 * r == speed * multiplier
  {
    var modifiedSpeed := speed * multiplier;
    if slowMotion then modifiedSpeed * SLOW_MOTION_FACTOR else modifiedSpeed
  }

  /** How far a paddle may move in a frame lasting `dt`: its modified speed times the frame time. */
  function PaddleStep(speed: real, multiplier: real, slowMotion: bool, dt: real): (r: real)
    ensures 0.0 <= speed && 0.0 <= multiplier && 0.0 <= dt ==> 0.0 <= r
  {
    var s := ModSpeed(speed, multiplier, slowMotion);
    assert 0.0 <= speed && 0.0 <= multiplier && 0.0 <= dt ==> 0.0 <= s * dt by {
      if 0.0 <= speed && 0.0 <= multiplier && 0.0 <= dt {
        assert 0.0 <= speed * multiplier;
      }
    }
    s * dt
  }

  /** The tentative position one frame on, moving at the modified speed, in the velocity's direction. */
  function Advance(pos: real, v: real, multiplier: real, slowMotion: bool, dt: real): (r: real)
    ensures 0.0 < multiplier && 0.0 < dt ==> (r > pos <==> v > 0.0) && (r < pos <==> v < 0.0)
  {
    var step := ModSpeed(v, multiplier, slowMotion) * dt;
    assert 0.0 < multiplier && 0.0 < dt ==> (step > 0.0 <==> v > 0.0) && (step < 0.0 <==> v < 0.0) by {
      if 0.0 < multiplier && 0.0 < dt {
        ModSpeedKeepsDirection(v, multiplier, slowMotion);
        var s := ModSpeed(v, multiplier, slowMotion);
        if s > 0.0 { assert s * dt > 0.0; } else if s < 0.0 { assert s * dt < 0.0; } else { assert s * dt == 0.0; }
      }
    }
    pos + step
  }

  /** Scaling never turns a velocity component around, and zero stays zero. */
  lemma ModSpeedKeepsDirection(v: real, multiplier: real, slowMotion: bool)
    requires 0.0 < multiplier
    ensures ModSpeed(v, multiplier, slowMotion) > 0.0 <==> v > 0.0
    ensures ModSpeed(v, multiplier, slowMotion) < 0.0 <==> v < 0.0
  {
    var r := ModSpeed(v, multiplier, slowMotion);
    if v > 0.0 {
      assert v * multiplier > 0.0;
    } else if v < 0.0 {
      assert v * multiplier < 0.0;
    } else {
      assert v * multiplier == 0.0;
    }
  }

  // ---------------------------------------------------------------------
  // Top and bottom walls

  datatype Reflection = Reflection(pos: real, vel: real, bounced: bool)

  /**
   * Reflection off the top or bottom wall: the distance travelled beyond the
   * wall is mirrored back into the field and the vertical velocity reversed.
   */
  function ReflectOffTopOrBottom(y: real, vy: real, diameter: real, height: real): (r: Reflection)
    ensures r.bounced <==> y < 0.0 || y + diameter >= height
    ensures r.bounced ==> r.vel == -vy
    ensures !r.bounced ==> r.pos == y && r.vel == vy
    ensures y < 0.0 ==> r.pos - 0.0 == 0.0 - y
    ensures 0.0 <= y && y + diameter >= height ==> (height - diameter) - r.pos == (y + diameter) - height
    ensures -(height - diameter) <= y <= 2.0 * (height - diameter) ==> 0.0 <= r.pos <= height - diameter
  {
    if y < 0.0 then
      Reflection(-y, -vy, true)
    else if y + diameter >= height then
      Reflection(height - (y + diameter - height) - diameter, -vy, true)
    else
      Reflection(y, vy, false)
  }

  // ---------------------------------------------------------------------
  // Left and right (scoring) walls

  datatype WallBounce = WallBounce(pos: real, vel: real, point: Point)

  /**
   * Reflection off the left or right wall. Passing the left wall is a point
   * for the right player and passing the right wall a point for the left one;
   * exactly one of the two, or neither, happens.
   */
  function ReflectOffScoringWall(x: real, vx: real, diameter: real, width: real): (r: WallBounce)
    ensures r.point == PointToRight <==> x < 0.0
    ensures r.point == PointToLeft <==> 0.0 <= x && x + diameter > width
    ensures r.point != NoPoint ==> r.vel == -vx
    ensures r.point == NoPoint ==> r.pos == x && r.vel == vx
    ensures x < 0.0 ==> r.pos - 0.0 == 0.0 - x
    ensures 0.0 <= x && x + diameter > width ==> (width - diameter) - r.pos == (x + diameter) - width
    ensures -(width - diameter) <= x <= 2.0 * (width - diameter) ==> 0.0 <= r.pos <= width - diameter
  {
    if x < 0.0 then
      WallBounce(-x, -vx, PointToRight)
    else if x + diameter > width then
      WallBounce(width - (x + diameter - width) - diameter, -vx, PointToLeft)
    else
      WallBounce(x, vx, NoPoint)
  }

  // ---------------------------------------------------------------------
  // Paddles

  /** Swept test: the ball's left edge passes the left paddle's right face this frame. */
  predicate CrossesLeftPaddle(x0: real, nx: real, p: Rect) {
    nx < p.x + p.width && x0 >= p.x + p.width
  }

  /** Swept test: the ball's right edge passes the right paddle's left face this frame. */
  predicate CrossesRightPaddle(x0: real, nx: real, diameter: real, p: Rect) {
    nx + diameter > p.x && x0 + diameter <= p.x
  }

  /** The y of the point at x = bx on the straight line from (x0, y0) to (nx, ny). */
  function Interpolate(x0: real, y0: real, nx: real, ny: real, bx: real): (r: real)
    requires nx != x0
    ensures bx == x0 ==> r == y0
    ensures bx == nx ==> r == ny
  {
    (ny - y0) / (nx - x0) * (bx - x0) + y0
  }

  /** The interpolated point keeps the gradient of the frame's path. */
  lemma InterpolateOnLine(x0: real, y0: real, nx: real, ny: real, bx: real)
    requires nx != x0
    ensures (Interpolate(x0, y0, nx, ny, bx) - y0) * (nx - x0) == (ny - y0) * (bx - x0)
  {
    var s := (ny - y0) / (nx - x0);
    assert s * (nx - x0) == ny - y0;
    calc {
      (s * (bx - x0)) * (nx - x0);
      == (s * (nx - x0)) * (bx - x0);
      == (ny - y0) * (bx - x0);
    }
  }

  /** The interpolated point lies between the frame's start and end points. */
  lemma {:induction false} InterpolateBetween(x0: real, y0: real, nx: real, ny: real, bx: real)
    requires nx != x0
    requires x0 <= bx <= nx || nx <= bx <= x0
    ensures y0 <= ny ==> y0 <= Interpolate(x0, y0, nx, ny, bx) <= ny
    ensures ny <= y0 ==> ny <= Interpolate(x0, y0, nx, ny, bx) <= y0
  {
    var t := (bx - x0) / (nx - x0);
    FractionInUnit(bx - x0, nx - x0);
    DivMulSwap(ny - y0, bx - x0, nx - x0);
    assert Interpolate(x0, y0, nx, ny, bx) == y0 + (ny - y0) * t;
    if y0 <= ny {
      ScaleWithin(ny - y0, t);
    } else {
      ScaleWithin(y0 - ny, t);
      assert (ny - y0) * t == -((y0 - ny) * t);
    }
  }

  /** The ball's square at height `bounceY` overlaps the paddle's vertical extent. */
  predicate Overlaps(bounceY: real, diameter: real, p: Rect) {
    bounceY + diameter >= p.y && bounceY <= p.y + p.height
  }

  /** The ball's path crosses the left paddle's face at a height where it meets the paddle. */
  predicate LeftPaddleHit(x0: real, y0: real, nx: real, ny: real, diameter: real, lp: Rect) {
    CrossesLeftPaddle(x0, nx, lp) && Overlaps(Interpolate(x0, y0, nx, ny, lp.x + lp.width), diameter, lp)
  }

  /** The ball's path crosses the right paddle's face at a height where it meets the paddle. */
  predicate RightPaddleHit(x0: real, y0: real, nx: real, ny: real, diameter: real, rp: Rect) {
    CrossesRightPaddle(x0, nx, diameter, rp) && Overlaps(Interpolate(x0, y0, nx, ny, rp.x - diameter), diameter, rp)
  }

  /**
   * The bounce angle: the distance between the centres of ball and paddle,
   * relative to half the paddle's height, times the maximum bounce angle.
   */
  function BounceAngle(bounceY: real, diameter: real, p: Rect, maxBounceAngle: real): (a: real)
    requires p.height > 0.0
    ensures 0.0 <= maxBounceAngle ==> 0.0 <= a
    ensures bounceY + diameter / 2.0 == p.y + p.height / 2.0 ==> a == 0.0
  {
    var relativeY := (p.y + p.height / 2.0) - (bounceY + diameter / 2.0);
    var bounceAngleMultiplier := Abs(relativeY / (p.height / 2.0));
    bounceAngleMultiplier * maxBounceAngle
  }

  /**
   * The angle multiplier is at most (height + diameter) / height for a ball
   * that overlaps the paddle, and exactly one when the ball's centre is level
   * with the paddle's top or bottom edge.
   */
  lemma {:induction false} BounceAngleBounds(bounceY: real, diameter: real, p: Rect, maxBounceAngle: real)
    requires p.height > 0.0 && 0.0 <= maxBounceAngle
    ensures Overlaps(bounceY, diameter, p) ==>
      BounceAngle(bounceY, diameter, p, maxBounceAngle) * p.height <= maxBounceAngle * (p.height + diameter)
    ensures Abs((p.y + p.height / 2.0) - (bounceY + diameter / 2.0)) == p.height / 2.0 ==>
      BounceAngle(bounceY, diameter, p, maxBounceAngle) == maxBounceAngle
  {
    var half := p.height / 2.0;
    var relativeY := (p.y + half) - (bounceY + diameter / 2.0);
    var q := relativeY / half;
    assert relativeY == q * half;
    assert Abs(q) * half == Abs(relativeY) by {
      if q < 0.0 {
        assert q * half < 0.0;
      } else {
        assert q * half >= 0.0;
      }
    }
    var a := BounceAngle(bounceY, diameter, p, maxBounceAngle);
    assert a == Abs(q) * maxBounceAngle;
    if Overlaps(bounceY, diameter, p) {
      assert Abs(relativeY) <= half + diameter / 2.0;
      assert Abs(q) * p.height <= p.height + diameter;
      MulMonotone(Abs(q) * p.height, p.height + diameter, maxBounceAngle);
      assert a * p.height == (Abs(q) * p.height) * maxBounceAngle;
    }
    if Abs(relativeY) == half {
      UnitRatio(relativeY, half, q);
    }
  }

  /** A ratio whose numerator has the denominator's magnitude is one in magnitude. */
  lemma UnitRatio(relativeY: real, half: real, q: real)
    requires 0.0 < half && q * half == relativeY && Abs(relativeY) == half
    ensures Abs(q) == 1.0
  {
    if q < 0.0 {
      assert q * half < 0.0;
      assert (q + 1.0) * half == 0.0;
      assert q == -1.0;
    } else {
      assert (q - 1.0) * half == 0.0;
      assert q == 1.0;
    }
  }

  /**
   * The ball's velocity after a paddle hit: `speed` in magnitude, at `angle`
   * from the horizontal, horizontally `away` from the paddle (+1 from the
   * left paddle, -1 from the right one) and vertically in the direction of
   * approach.
   */
  function Rebound(m: Trig, speed: real, angle: real, vy: real, away: real): (v: Velocity)
    ensures m.sin(angle) == 0.0 ==> v.vy == 0.0
    ensures 0.0 <= speed && 0.0 <= m.sin(angle) ==> (vy < 0.0 ==> v.vy <= 0.0) && (0.0 <= vy ==> 0.0 <= v.vy)
  {
    Velocity(speed * m.cos(angle) * away, speed * m.sin(angle) * (if vy < 0.0 then -1.0 else 1.0))
  }

  /** Paddle hits change the direction of the ball, never its speed. */
  lemma ReboundConservesSpeed(m: Trig, speed: real, angle: real, vy: real, away: real)
    requires m.Lawful()
    requires away == 1.0 || away == -1.0
    ensures var v := Rebound(m, speed, angle, vy, away);
      HasSpeed(v.vx, v.vy, speed)
  {
    var sy := if vy < 0.0 then -1.0 else 1.0;
    assert m.cos(angle) * m.cos(angle) + m.sin(angle) * m.sin(angle) == 1.0;
    PolarMagnitude(speed, m.cos(angle), m.sin(angle), away, sy);
  }

  /**
   * The return-angle law: the ball leaves the paddle horizontally away from
   * it (for angles up to a right angle) and keeps the vertical direction it
   * came with; a dead-centre hit returns it straight at full speed.
   */
  lemma ReboundDirection(m: Trig, speed: real, angle: real, vy: real, away: real)
    requires m.Lawful()
    requires away == 1.0 || away == -1.0
    requires 0.0 <= speed
    ensures var v := Rebound(m, speed, angle, vy, away);
      && (0.0 <= angle <= m.halfPi ==> 0.0 <= v.vx * away)
      && (0.0 <= angle <= 2.0 * m.halfPi ==> (vy < 0.0 ==> v.vy <= 0.0) && (0.0 <= vy ==> 0.0 <= v.vy))
      && (angle == 0.0 ==> v == Velocity(speed * away, 0.0))
  {
    var v := Rebound(m, speed, angle, vy, away);
    if 0.0 <= angle <= m.halfPi {
      assert 0.0 <= m.cos(angle);
      assert v.vx * away == speed * m.cos(angle) * (away * away);
    }
    if 0.0 <= angle <= 2.0 * m.halfPi {
      assert 0.0 <= m.sin(angle);
      assert 0.0 <= speed * m.sin(angle);
    }
  }

  /**
   * The part of the frame's time left after the bounce, as the fraction of
   * the horizontal travel that lies beyond the paddle's face.
   */
  function RemainingFrameTime(dt: real, x0: real, nx: real, bx: real): (t: real)
    requires nx != x0
    ensures 0.0 <= dt && (nx < bx <= x0 || x0 <= bx < nx) ==> 0.0 <= t <= dt
  {
    var f := (nx - bx) / (nx - x0);
    assert 0.0 <= dt && (nx < bx <= x0 || x0 <= bx < nx) ==> 0.0 <= dt * f <= dt by {
      if 0.0 <= dt && (nx < bx <= x0 || x0 <= bx < nx) {
        FractionInUnit(nx - bx, nx - x0);
        ScaleWithin(dt, f);
      }
    }
    dt * f
  }

  /**
   * The same time as game.rs computes it, from the vertical travel. A level
   * path makes it 0/0 (NaN in f32): that case is `None` here.
   */
  function SourceRemainingFrameTime(dt: real, y0: real, ny: real, bounceY: real): (t: Option<real>)
    ensures t.None? <==> ny == y0
  {
    if ny == y0 then None else Some(dt * (ny - bounceY) / (ny - y0))
  }

  /**
   * Wherever the source's ratio is defined, it equals the horizontal one, for
   * any crossing point on the frame's straight path.
   */
  lemma {:induction false} RemainingFrameTimeAgrees(dt: real, x0: real, y0: real, nx: real, ny: real, bx: real, bounceY: real)
    requires nx != x0 && ny != y0
    requires (bounceY - y0) * (nx - x0) == (ny - y0) * (bx - x0)
    ensures SourceRemainingFrameTime(dt, y0, ny, bounceY) == Some(RemainingFrameTime(dt, x0, nx, bx))
  {
    var dy, dx := ny - y0, nx - x0;
    var source := dt * (ny - bounceY) / dy;
    assert source * dy == dt * (ny - bounceY);
    var f := (nx - bx) / dx;
    assert f * dx == nx - bx;
    assert (ny - bounceY) * dx == dy * (nx - bx) by {
      calc {
        (ny - bounceY) * dx;
        == dy * dx - (bounceY - y0) * dx;
        == dy * dx - dy * (bx - x0);
        == dy * (nx - bx);
      }
    }
    calc {
      source * (dy * dx);
      == dt * (ny - bounceY) * dx;
      == dt * (dy * (nx - bx));
      == dt * ((f * dx) * dy);
      == (dt * f) * (dy * dx);
    }
    assert dy * dx != 0.0;
    assert (source - dt * f) * (dy * dx) == 0.0;
    assert RemainingFrameTime(dt, x0, nx, bx) == dt * f;
  }

  /** What the paddle stage leaves behind: the ball's position and velocity, and the hit. */
  datatype Deflection = Deflection(x: real, y: real, vx: real, vy: real, hit: PaddleHit)

  /**
   * A genuine hit at (bx, bounceY): the new velocity from the hit offset, and
   * the ball re-advanced from the bounce point for the rest of the frame.
   */
  function BounceOff(m: Trig, shape: BallShape, x0: real, nx: real, bx: real, bounceY: real,
                     p: Rect, vy: real, away: real, dt: real, hit: PaddleHit): (r: Deflection)
    requires nx != x0 && p.height > 0.0
    ensures r.hit == hit
    ensures Velocity(r.vx, r.vy) == Rebound(m, shape.speed, BounceAngle(bounceY, shape.diameter, p, shape.maxBounceAngle), vy, away)
  {
    var v := Rebound(m, shape.speed, BounceAngle(bounceY, shape.diameter, p, shape.maxBounceAngle), vy, away);
    var t := RemainingFrameTime(dt, x0, nx, bx);
    Deflection(bx + v.vx * t, bounceY + v.vy * t, v.vx, v.vy, hit)
  }

  /**
   * The paddle stage of the ball step (left paddle first, then right): a
   * swept crossing of a paddle's face, whose interpolated crossing height
   * overlaps the paddle, bounces the ball and re-advances it for the rest
   * of the frame; otherwise the tentative position stands.
   */
  function PaddleStage(m: Trig, shape: BallShape, x0: real, y0: real, nx: real, ny: real,
                       vx: real, vy: real, lp: Rect, rp: Rect, dt: real): (r: Deflection)
    requires lp.height > 0.0 && rp.height > 0.0
    ensures r.hit == LeftHit <==> LeftPaddleHit(x0, y0, nx, ny, shape.diameter, lp)
    ensures r.hit == RightHit <==>
      !CrossesLeftPaddle(x0, nx, lp) && RightPaddleHit(x0, y0, nx, ny, shape.diameter, rp)
    ensures r.hit == LeftHit ==>
      r == BounceOff(m, shape, x0, nx, lp.x + lp.width, Interpolate(x0, y0, nx, ny, lp.x + lp.width), lp, vy, 1.0, dt, LeftHit)
    ensures r.hit == RightHit ==>
      r == BounceOff(m, shape, x0, nx, rp.x - shape.diameter, Interpolate(x0, y0, nx, ny, rp.x - shape.diameter), rp, vy, -1.0, dt, RightHit)
    ensures r.hit == NoHit ==> r == Deflection(nx, ny, vx, vy, NoHit)
  {
    if CrossesLeftPaddle(x0, nx, lp) then
      var bx := lp.x + lp.width;
      var bounceY := Interpolate(x0, y0, nx, ny, bx);
      if Overlaps(bounceY, shape.diameter, lp) then
        BounceOff(m, shape, x0, nx, bx, bounceY, lp, vy, 1.0, dt, LeftHit)
      else
        Deflection(nx, ny, vx, vy, NoHit)
    else if CrossesRightPaddle(x0, nx, shape.diameter, rp) then
      var bx := rp.x - shape.diameter;
      var bounceY := Interpolate(x0, y0, nx, ny, bx);
      if Overlaps(bounceY, shape.diameter, rp) then
        BounceOff(m, shape, x0, nx, bx, bounceY, rp, vy, -1.0, dt, RightHit)
      else
        Deflection(nx, ny, vx, vy, NoHit)
    else
      Deflection(nx, ny, vx, vy, NoHit)
  }

  /**
   * A hit on the left paddle, spelled out: the ball leaves the paddle's face
   * at the interpolated height with the rebound velocity, moved on by that
   * velocity for the part of the frame left after the crossing.
   */
  lemma LeftHitDeflection(m: Trig, shape: BallShape, x0: real, y0: real, nx: real, ny: real,
                          vx: real, vy: real, lp: Rect, rp: Rect, dt: real, bounceY: real, v: Velocity, t: real)
    requires lp.height > 0.0 && rp.height > 0.0
    requires LeftPaddleHit(x0, y0, nx, ny, shape.diameter, lp)
    requires bounceY == Interpolate(x0, y0, nx, ny, lp.x + lp.width)
    requires v == Rebound(m, shape.speed, BounceAngle(bounceY, shape.diameter, lp, shape.maxBounceAngle), vy, 1.0)
    requires t == RemainingFrameTime(dt, x0, nx, lp.x + lp.width)
    ensures PaddleStage(m, shape, x0, y0, nx, ny, vx, vy, lp, rp, dt)
         == Deflection(lp.x + lp.width + v.vx * t, bounceY + v.vy * t, v.vx, v.vy, LeftHit)
  {
    var bx := lp.x + lp.width;
    assert PaddleStage(m, shape, x0, y0, nx, ny, vx, vy, lp, rp, dt)
        == BounceOff(m, shape, x0, nx, bx, bounceY, lp, vy, 1.0, dt, LeftHit);
    assert BounceOff(m, shape, x0, nx, bx, bounceY, lp, vy, 1.0, dt, LeftHit)
        == Deflection(bx + v.vx * t, bounceY + v.vy * t, v.vx, v.vy, LeftHit);
  }

  /** A hit on the right paddle, spelled out as for the left one, with the ball sent back to the left. */
  lemma RightHitDeflection(m: Trig, shape: BallShape, x0: real, y0: real, nx: real, ny: real,
                           vx: real, vy: real, lp: Rect, rp: Rect, dt: real, bounceY: real, v: Velocity, t: real)
    requires lp.height > 0.0 && rp.height > 0.0
    requires !CrossesLeftPaddle(x0, nx, lp) && RightPaddleHit(x0, y0, nx, ny, shape.diameter, rp)
    requires bounceY == Interpolate(x0, y0, nx, ny, rp.x - shape.diameter)
    requires v == Rebound(m, shape.speed, BounceAngle(bounceY, shape.diameter, rp, shape.maxBounceAngle), vy, -1.0)
    requires t == RemainingFrameTime(dt, x0, nx, rp.x - shape.diameter)
    ensures PaddleStage(m, shape, x0, y0, nx, ny, vx, vy, lp, rp, dt)
         == Deflection(rp.x - shape.diameter + v.vx * t, bounceY + v.vy * t, v.vx, v.vy, RightHit)
  {
    var bx := rp.x - shape.diameter;
    assert PaddleStage(m, shape, x0, y0, nx, ny, vx, vy, lp, rp, dt)
        == BounceOff(m, shape, x0, nx, bx, bounceY, rp, vy, -1.0, dt, RightHit);
    assert BounceOff(m, shape, x0, nx, bx, bounceY, rp, vy, -1.0, dt, RightHit)
        == Deflection(bx + v.vx * t, bounceY + v.vy * t, v.vx, v.vy, RightHit);
  }

  /** Without a hit, the paddle stage leaves the tentative position and the velocity as they are. */
  lemma MissDeflection(m: Trig, shape: BallShape, x0: real, y0: real, nx: real, ny: real,
                       vx: real, vy: real, lp: Rect, rp: Rect, dt: real)
    requires lp.height > 0.0 && rp.height > 0.0
    requires !LeftPaddleHit(x0, y0, nx, ny, shape.diameter, lp)
    requires CrossesLeftPaddle(x0, nx, lp) || !RightPaddleHit(x0, y0, nx, ny, shape.diameter, rp)
    ensures PaddleStage(m, shape, x0, y0, nx, ny, vx, vy, lp, rp, dt) == Deflection(nx, ny, vx, vy, NoHit)
  {
  }

  /**
   * A ball that crosses a paddle's face is returned whenever it meets the
   * paddle's height both where the frame starts and where it would end,
   * however far it travels in the frame and whatever the other paddle does:
   * the test is swept, so the ball cannot pass through a paddle.
   */
  lemma {:induction false} NoTunnelling(m: Trig, shape: BallShape, x0: real, y0: real, nx: real, ny: real,
                                        vx: real, vy: real, lp: Rect, rp: Rect, dt: real)
    requires lp.height > 0.0 && rp.height > 0.0
    ensures CrossesLeftPaddle(x0, nx, lp) && Overlaps(y0, shape.diameter, lp) && Overlaps(ny, shape.diameter, lp)
      ==> PaddleStage(m, shape, x0, y0, nx, ny, vx, vy, lp, rp, dt).hit == LeftHit
    ensures !CrossesLeftPaddle(x0, nx, lp) && CrossesRightPaddle(x0, nx, shape.diameter, rp)
            && Overlaps(y0, shape.diameter, rp) && Overlaps(ny, shape.diameter, rp)
      ==> PaddleStage(m, shape, x0, y0, nx, ny, vx, vy, lp, rp, dt).hit == RightHit
  {
    if CrossesLeftPaddle(x0, nx, lp) && Overlaps(y0, shape.diameter, lp) && Overlaps(ny, shape.diameter, lp) {
      InterpolateBetween(x0, y0, nx, ny, lp.x + lp.width);
      assert LeftPaddleHit(x0, y0, nx, ny, shape.diameter, lp);
    }
    if !CrossesLeftPaddle(x0, nx, lp) && CrossesRightPaddle(x0, nx, shape.diameter, rp)
       && Overlaps(y0, shape.diameter, rp) && Overlaps(ny, shape.diameter, rp) {
      InterpolateBetween(x0, y0, nx, ny, rp.x - shape.diameter);
      assert RightPaddleHit(x0, y0, nx, ny, shape.diameter, rp);
    }
  }

  /** The paddle stage keeps the ball at its base speed, hit or not. */
  lemma PaddleStageConservesSpeed(m: Trig, shape: BallShape, x0: real, y0: real, nx: real, ny: real,
                                  vx: real, vy: real, lp: Rect, rp: Rect, dt: real)
    requires m.Lawful()
    requires lp.height > 0.0 && rp.height > 0.0
    requires HasSpeed(vx, vy, shape.speed)
    ensures var r := PaddleStage(m, shape, x0, y0, nx, ny, vx, vy, lp, rp, dt);
      HasSpeed(r.vx, r.vy, shape.speed)
  {
    if CrossesLeftPaddle(x0, nx, lp) {
      var bounceY := Interpolate(x0, y0, nx, ny, lp.x + lp.width);
      ReboundConservesSpeed(m, shape.speed, BounceAngle(bounceY, shape.diameter, lp, shape.maxBounceAngle), vy, 1.0);
    } else if CrossesRightPaddle(x0, nx, shape.diameter, rp) {
      var bounceY := Interpolate(x0, y0, nx, ny, rp.x - shape.diameter);
      ReboundConservesSpeed(m, shape.speed, BounceAngle(bounceY, shape.diameter, rp, shape.maxBounceAngle), vy, -1.0);
    }
  }

  /**
   * After a paddle hit the ball moves away from that paddle, provided the largest possible bounce angle (the maximum bounce
   * angle stretched by (height + diameter) / height) is at most a right angle.
   */
  lemma PaddleHitSendsBallBack(m: Trig, shape: BallShape, x0: real, y0: real, nx: real, ny: real,
                               vx: real, vy: real, lp: Rect, rp: Rect, dt: real)
    requires m.Lawful()
    requires lp.height > 0.0 && rp.height > 0.0
    requires 0.0 <= shape.speed && 0.0 <= shape.maxBounceAngle
    requires shape.maxBounceAngle * (lp.height + shape.diameter) <= m.halfPi * lp.height
    requires shape.maxBounceAngle * (rp.height + shape.diameter) <= m.halfPi * rp.height
    ensures var r := PaddleStage(m, shape, x0, y0, nx, ny, vx, vy, lp, rp, dt);
      (r.hit == LeftHit ==> 0.0 <= r.vx) && (r.hit == RightHit ==> r.vx <= 0.0)
    ensures var r := PaddleStage(m, shape, x0, y0, nx, ny, vx, vy, lp, rp, dt);
      r.hit != NoHit ==> (vy < 0.0 ==> r.vy <= 0.0) && (0.0 <= vy ==> 0.0 <= r.vy)
  {
    if CrossesLeftPaddle(x0, nx, lp) {
      var bounceY := Interpolate(x0, y0, nx, ny, lp.x + lp.width);
      if Overlaps(bounceY, shape.diameter, lp) {
        ReboundOffPaddle(m, shape, bounceY, lp, vy, 1.0);
      }
    } else if CrossesRightPaddle(x0, nx, shape.diameter, rp) {
      var bounceY := Interpolate(x0, y0, nx, ny, rp.x - shape.diameter);
      if Overlaps(bounceY, shape.diameter, rp) {
        ReboundOffPaddle(m, shape, bounceY, rp, vy, -1.0);
      }
    }
  }

  /** The rebound off one paddle, at the angle its geometry gives. */
  lemma ReboundOffPaddle(m: Trig, shape: BallShape, bounceY: real, p: Rect, vy: real, away: real)
    requires m.Lawful()
    requires p.height > 0.0 && 0.0 <= shape.speed && 0.0 <= shape.maxBounceAngle
    requires shape.maxBounceAngle * (p.height + shape.diameter) <= m.halfPi * p.height
    requires away == 1.0 || away == -1.0
    requires Overlaps(bounceY, shape.diameter, p)
    ensures var v := Rebound(m, shape.speed, BounceAngle(bounceY, shape.diameter, p, shape.maxBounceAngle), vy, away);
      && 0.0 <= v.vx * away
      && (vy < 0.0 ==> v.vy <= 0.0) && (0.0 <= vy ==> 0.0 <= v.vy)
  {
    var a := BounceAngle(bounceY, shape.diameter, p, shape.maxBounceAngle);
    BounceAngleBounds(bounceY, shape.diameter, p, shape.maxBounceAngle);
    CancelPositive(a, m.halfPi, shape.maxBounceAngle * (p.height + shape.diameter), p.height);
    ReboundConservesSpeed(m, shape.speed, a, vy, away);
    ReboundDirection(m, shape.speed, a, vy, away);
  }

  /**
   * The finding of game.rs:419 and :441 as written: a ball moving level
   * (vy == 0, e.g. after a dead-centre hit) that meets the left paddle makes
   * the source's remaining-time ratio 0/0, although it is a genuine hit.
   */
  lemma LevelHitUndefinedInSource(m: Trig)
    ensures var lp := Rect(10.0, 250.0, 10.0, 100.0);
            var shape := BallShape(10.0, 200.0, 0.75);
            && PaddleStage(m, shape, 25.0, 295.0, 15.0, 295.0, -200.0, 0.0, lp, Rect(770.0, 250.0, 10.0, 100.0), 0.05).hit == LeftHit
            && SourceRemainingFrameTime(0.05, 295.0, 295.0, Interpolate(25.0, 295.0, 15.0, 295.0, 20.0)).None?
            && RemainingFrameTime(0.05, 25.0, 15.0, 20.0) == 0.025
  {
  }

  // ---------------------------------------------------------------------
  // The whole ball step (move_ball without the speed-up)

  /** What one ball step produces: the new motion and the events it fired. */
  datatype Outcome = Outcome(ball: Motion, wallBounce: bool, hit: PaddleHit, point: Point)

  /** A paddle bounce or a point allows the periodic speed-up. */
  predicate AllowsSpeedup(o: Outcome) {
    o.hit != NoHit || o.point != NoPoint
  }

  /** The sounds a step queues, in order: ping for a wall, pong for a paddle, ping for a point. */
  function Sounds(o: Outcome): (s: seq<Sound>)
    ensures |s| <= 3
    ensures Pong in s <==> o.hit != NoHit
    ensures |s| == (if o.wallBounce then 1 else 0) + (if o.hit != NoHit then 1 else 0) + (if o.point != NoPoint then 1 else 0)
    ensures o.wallBounce ==> s[0] == Ping
    ensures o.hit != NoHit ==> s[if o.wallBounce then 1 else 0] == Pong
    ensures o.point != NoPoint ==> s[|s| - 1] == Ping
  {
    (if o.wallBounce then [Ping] else [])
    + (if o.hit != NoHit then [Pong] else [])
    + (if o.point != NoPoint then [Ping] else [])
  }

  /**
   * One frame of ball movement: advance by the modified velocity, then
   * resolve the collisions at the tentative position.
   */
  function BallStep(m: Trig, shape: BallShape, b: Motion, multiplier: real, slowMotion: bool,
                    lp: Rect, rp: Rect, width: real, height: real, dt: real): (o: Outcome)
    requires lp.height > 0.0 && rp.height > 0.0
    ensures var ny := Advance(b.y, b.vy, multiplier, slowMotion, dt);
      o.wallBounce <==> ny < 0.0 || ny + shape.diameter >= height
    ensures !o.wallBounce && o.hit == NoHit && o.point == NoPoint ==>
      o.ball == Motion(Advance(b.x, b.vx, multiplier, slowMotion, dt), Advance(b.y, b.vy, multiplier, slowMotion, dt), b.vx, b.vy)
  {
    Collide(m, shape, b, Advance(b.x, b.vx, multiplier, slowMotion, dt), Advance(b.y, b.vy, multiplier, slowMotion, dt),
            lp, rp, width, height, dt)
  }

  /**
   * The collisions of one frame, from the ball's position `b` and its
   * tentative position (nx, ny): reflect off the top or bottom wall, bounce
   * off a paddle, then reflect off a scoring wall.
   */
  function Collide(m: Trig, shape: BallShape, b: Motion, nx: real, ny: real,
                   lp: Rect, rp: Rect, width: real, height: real, dt: real): (o: Outcome)
    requires lp.height > 0.0 && rp.height > 0.0
    ensures o.wallBounce <==> ny < 0.0 || ny + shape.diameter >= height
    ensures !o.wallBounce && o.hit == NoHit && o.point == NoPoint ==> o.ball == Motion(nx, ny, b.vx, b.vy)
  {
    var v := ReflectOffTopOrBottom(ny, b.vy, shape.diameter, height);
    var p := PaddleStage(m, shape, b.x, b.y, nx, v.pos, b.vx, v.vel, lp, rp, dt);
    var w := ReflectOffScoringWall(p.x, p.vx, shape.diameter, width);
    Outcome(Motion(w.pos, p.y, w.vel, p.vy), v.bounced, p.hit, w.point)
  }

  /** Every stage of the collisions keeps the stored velocity at the ball's base speed. */
  lemma CollideConservesSpeed(m: Trig, shape: BallShape, b: Motion, nx: real, ny: real,
                              lp: Rect, rp: Rect, width: real, height: real, dt: real)
    requires m.Lawful()
    requires lp.height > 0.0 && rp.height > 0.0
    requires HasSpeed(b.vx, b.vy, shape.speed)
    ensures var o := Collide(m, shape, b, nx, ny, lp, rp, width, height, dt);
      HasSpeed(o.ball.vx, o.ball.vy, shape.speed)
  {
    var v := ReflectOffTopOrBottom(ny, b.vy, shape.diameter, height);
    FlipKeepsSpeed(b.vx, b.vy, shape.speed, b.vx, v.vel);
    PaddleStageConservesSpeed(m, shape, b.x, b.y, nx, v.pos, b.vx, v.vel, lp, rp, dt);
    var p := PaddleStage(m, shape, b.x, b.y, nx, v.pos, b.vx, v.vel, lp, rp, dt);
    var w := ReflectOffScoringWall(p.x, p.vx, shape.diameter, width);
    FlipKeepsSpeed(p.vx, p.vy, shape.speed, w.vel, p.vy);
  }

  /** The ball's speed is the same after a frame as before. */
  lemma BallStepConservesSpeed(m: Trig, shape: BallShape, b: Motion, multiplier: real, slowMotion: bool,
                               lp: Rect, rp: Rect, width: real, height: real, dt: real)
    requires m.Lawful()
    requires lp.height > 0.0 && rp.height > 0.0
    requires HasSpeed(b.vx, b.vy, shape.speed)
    ensures var o := BallStep(m, shape, b, multiplier, slowMotion, lp, rp, width, height, dt);
      HasSpeed(o.ball.vx, o.ball.vy, shape.speed)
  {
    CollideConservesSpeed(m, shape, b, Advance(b.x, b.vx, multiplier, slowMotion, dt),
                          Advance(b.y, b.vy, multiplier, slowMotion, dt), lp, rp, width, height, dt);
  }

  /** Reversing either component of a velocity keeps its speed. */
  lemma FlipKeepsSpeed(vx: real, vy: real, speed: real, fx: real, fy: real)
    requires HasSpeed(vx, vy, speed)
    requires fx == vx || fx == -vx
    requires fy == vy || fy == -vy
    ensures HasSpeed(fx, fy, speed)
  {
    assert fx * fx == vx * vx && fy * fy == vy * vy;
  }

  /**
   * A ball whose tentative position is inside the field and whose path meets
   * no paddle face simply moves there: velocity unchanged, no event.
   */
  lemma BallStepFreeFlight(m: Trig, shape: BallShape, b: Motion, multiplier: real, slowMotion: bool,
                           lp: Rect, rp: Rect, width: real, height: real, dt: real)
    requires lp.height > 0.0 && rp.height > 0.0
    ensures var nx := Advance(b.x, b.vx, multiplier, slowMotion, dt);
            var ny := Advance(b.y, b.vy, multiplier, slowMotion, dt);
      0.0 <= ny && ny + shape.diameter < height && 0.0 <= nx && nx + shape.diameter <= width
      && !CrossesLeftPaddle(b.x, nx, lp) && !CrossesRightPaddle(b.x, nx, shape.diameter, rp)
      ==> BallStep(m, shape, b, multiplier, slowMotion, lp, rp, width, height, dt)
          == Outcome(Motion(nx, ny, b.vx, b.vy), false, NoHit, NoPoint)
  {
    var nx := Advance(b.x, b.vx, multiplier, slowMotion, dt);
    var ny := Advance(b.y, b.vy, multiplier, slowMotion, dt);
    var v := ReflectOffTopOrBottom(ny, b.vy, shape.diameter, height);
    var p := PaddleStage(m, shape, b.x, b.y, nx, v.pos, b.vx, v.vel, lp, rp, dt);
    if 0.0 <= ny && ny + shape.diameter < height && 0.0 <= nx && nx + shape.diameter <= width
       && !CrossesLeftPaddle(b.x, nx, lp) && !CrossesRightPaddle(b.x, nx, shape.diameter, rp) {
      assert v == Reflection(ny, b.vy, false);
      assert p == Deflection(nx, ny, b.vx, b.vy, NoHit);
      assert ReflectOffScoringWall(p.x, p.vx, shape.diameter, width) == WallBounce(nx, b.vx, NoPoint);
      assert BallStep(m, shape, b, multiplier, slowMotion, lp, rp, width, height, dt)
          == Outcome(Motion(nx, ny, b.vx, b.vy), false, NoHit, NoPoint);
    }
  }

  /**
   * A ball returned by a paddle cannot score against that paddle's player in
   * the same frame, provided the paddle's face is inside the field and the
   * bounce angle stays within a right angle.
   */
  lemma ReturnedBallDoesNotScoreAgainst(m: Trig, shape: BallShape, b: Motion, nx: real, ny: real,
                                        lp: Rect, rp: Rect, width: real, height: real, dt: real)
    requires m.Lawful()
    requires lp.height > 0.0 && rp.height > 0.0 && 0.0 <= dt
    requires 0.0 <= shape.speed && 0.0 <= shape.maxBounceAngle
    requires shape.maxBounceAngle * (lp.height + shape.diameter) <= m.halfPi * lp.height
    requires shape.maxBounceAngle * (rp.height + shape.diameter) <= m.halfPi * rp.height
    requires 0.0 <= lp.x + lp.width && rp.x <= width
    ensures var o := Collide(m, shape, b, nx, ny, lp, rp, width, height, dt);
      (o.hit == LeftHit ==> o.point != PointToRight) && (o.hit == RightHit ==> o.point != PointToLeft)
  {
    var v := ReflectOffTopOrBottom(ny, b.vy, shape.diameter, height);
    var p := PaddleStage(m, shape, b.x, b.y, nx, v.pos, b.vx, v.vel, lp, rp, dt);
    PaddleHitSendsBallBack(m, shape, b.x, b.y, nx, v.pos, b.vx, v.vel, lp, rp, dt);
    if p.hit == LeftHit {
      var bx := lp.x + lp.width;
      var t := RemainingFrameTime(dt, b.x, nx, bx);
      MulMonotone(0.0, p.vx, t);
      assert bx <= p.x;
    } else if p.hit == RightHit {
      var bx := rp.x - shape.diameter;
      var t := RemainingFrameTime(dt, b.x, nx, bx);
      MulMonotone(p.vx, 0.0, t);
      assert p.x <= bx;
    }
  }

  /**
   * The finding of game.rs:420-421 and :442-443 as written: the ball
   * re-advanced after a paddle hit is not checked against the top and
   * bottom walls again, so a steep rebound close to a wall ends the frame
   * outside the field. Here a ball moving at 500 px/s up and to the left
   * meets a left paddle at the top of an 800 x 600 field 0.7 px below the
   * wall; it leaves at 0.6645 rad, whose sine is about 0.617.
   */
  lemma HitNearWallLeavesField(m: Trig)
    requires m.sin(0.6645) >= 0.5
    ensures var lp := Rect(10.0, 0.0, 10.0, 100.0);
            var shape := BallShape(10.0, 500.0, 0.75);
            var o := BallStep(m, shape, Motion(22.4, 1.4, -480.0, -140.0), 1.0, false,
                              lp, Rect(780.0, 250.0, 10.0, 100.0), 800.0, 600.0, 0.01);
            && HasSpeed(-480.0, -140.0, shape.speed)
            && o.hit == LeftHit && !o.wallBounce && o.ball.y < 0.0
  {
    var lp, rp := Rect(10.0, 0.0, 10.0, 100.0), Rect(780.0, 250.0, 10.0, 100.0);
    var shape := BallShape(10.0, 500.0, 0.75);
    var b := Motion(22.4, 1.4, -480.0, -140.0);
    assert Advance(22.4, -480.0, 1.0, false, 0.01) == 17.6;
    assert Advance(1.4, -140.0, 1.0, false, 0.01) == 0.0;
    assert ReflectOffTopOrBottom(0.0, -140.0, 10.0, 600.0) == Reflection(0.0, -140.0, false);
    assert Interpolate(22.4, 1.4, 17.6, 0.0, 20.0) == 0.7;
    assert LeftPaddleHit(22.4, 1.4, 17.6, 0.0, 10.0, lp);
    assert BounceAngle(0.7, 10.0, lp, 0.75) == 0.6645;
    var r := Rebound(m, 500.0, 0.6645, -140.0, 1.0);
    assert r.vy == -(500.0 * m.sin(0.6645));
    assert RemainingFrameTime(0.01, 22.4, 17.6, 20.0) == 0.005;
    LeftHitDeflection(m, shape, 22.4, 1.4, 17.6, 0.0, -480.0, -140.0, lp, rp, 0.01, 0.7, r, 0.005);
    var p := PaddleStage(m, shape, 22.4, 1.4, 17.6, 0.0, -480.0, -140.0, lp, rp, 0.01);
    assert p.hit == LeftHit && p.y == 0.7 + r.vy * 0.005 < 0.0;
    assert Collide(m, shape, b, 17.6, 0.0, lp, rp, 800.0, 600.0, 0.01).ball.y == p.y;
  }

  /**
   * The ball step's collisions as evidently intended: as `Collide`, but a
   * ball re-advanced after a paddle hit is reflected off the top or bottom
   * wall once more, with its own ping.
   */
  function SettledCollide(m: Trig, shape: BallShape, b: Motion, nx: real, ny: real,
                          lp: Rect, rp: Rect, width: real, height: real, dt: real): (o: Outcome)
    requires lp.height > 0.0 && rp.height > 0.0
    ensures var c := Collide(m, shape, b, nx, ny, lp, rp, width, height, dt);
      o.hit == c.hit && o.point == c.point && o.ball.x == c.ball.x && o.ball.vx == c.ball.vx
    ensures var c := Collide(m, shape, b, nx, ny, lp, rp, width, height, dt);
      o.hit == NoHit ==> o == c
  {
    var v := ReflectOffTopOrBottom(ny, b.vy, shape.diameter, height);
    var p := PaddleStage(m, shape, b.x, b.y, nx, v.pos, b.vx, v.vel, lp, rp, dt);
    var s := if p.hit == NoHit then Reflection(p.y, p.vy, false) else ReflectOffTopOrBottom(p.y, p.vy, shape.diameter, height);
    var w := ReflectOffScoringWall(p.x, p.vx, shape.diameter, width);
    Outcome(Motion(w.pos, s.pos, w.vel, s.vel), v.bounced || s.bounced, p.hit, w.point)
  }

  /**
   * With the second wall check, a ball that starts the frame in the field
   * ends it in the field, provided neither the tentative overshoot nor a
   * frame's travel at the base speed reaches the field's free height.
   */
  lemma {:induction false} SettledCollideStaysInField(m: Trig, shape: BallShape, b: Motion, nx: real, ny: real,
                                                      lp: Rect, rp: Rect, width: real, height: real, dt: real)
    requires m.Lawful()
    requires lp.height > 0.0 && rp.height > 0.0 && 0.0 <= shape.speed && 0.0 <= dt
    requires 0.0 <= b.y <= height - shape.diameter
    requires -(height - shape.diameter) <= ny <= 2.0 * (height - shape.diameter)
    requires shape.speed * dt <= height - shape.diameter
    ensures var o := SettledCollide(m, shape, b, nx, ny, lp, rp, width, height, dt);
      0.0 <= o.ball.y <= height - shape.diameter
  {
    var v := ReflectOffTopOrBottom(ny, b.vy, shape.diameter, height);
    var p := PaddleStage(m, shape, b.x, b.y, nx, v.pos, b.vx, v.vel, lp, rp, dt);
    if p.hit == LeftHit {
      ReadvanceNearField(m, shape, b.x, b.y, nx, v.pos, lp.x + lp.width, lp, v.vel, 1.0, dt, LeftHit, height);
    } else if p.hit == RightHit {
      ReadvanceNearField(m, shape, b.x, b.y, nx, v.pos, rp.x - shape.diameter, rp, v.vel, -1.0, dt, RightHit, height);
    }
  }

  /**
   * A ball re-advanced after a hit ends at most a frame's travel at the base
   * speed beyond the heights where the frame started and would have ended.
   */
  lemma {:induction false} ReadvanceNearField(m: Trig, shape: BallShape, x0: real, y0: real, nx: real, ny: real, bx: real,
                                              p: Rect, vy: real, away: real, dt: real, hit: PaddleHit, height: real)
    requires m.Lawful()
    requires p.height > 0.0 && 0.0 <= shape.speed && 0.0 <= dt && (away == 1.0 || away == -1.0)
    requires nx < bx <= x0 || x0 <= bx < nx
    requires 0.0 <= y0 <= height - shape.diameter && 0.0 <= ny <= height - shape.diameter
    ensures var r := BounceOff(m, shape, x0, nx, bx, Interpolate(x0, y0, nx, ny, bx), p, vy, away, dt, hit);
      -(shape.speed * dt) <= r.y <= (height - shape.diameter) + shape.speed * dt
  {
    hide Rebound, RemainingFrameTime, BounceOff, Interpolate, BounceAngle;
    var bounceY := Interpolate(x0, y0, nx, ny, bx);
    InterpolateBetween(x0, y0, nx, ny, bx);
    var a := BounceAngle(bounceY, shape.diameter, p, shape.maxBounceAngle);
    var v := Rebound(m, shape.speed, a, vy, away);
    ReboundConservesSpeed(m, shape.speed, a, vy, away);
    assert v.vx * v.vx >= 0.0;
    SquareBound(v.vy, shape.speed);
    var t := RemainingFrameTime(dt, x0, nx, bx);
    TravelWithin(v.vy, t, shape.speed, dt);
    BounceOffHeight(m, shape, x0, nx, bx, bounceY, p, vy, away, dt, hit);
  }

  /** After a hit the ball sits at the bounce height moved on by the new vy for the time left. */
  lemma BounceOffHeight(m: Trig, shape: BallShape, x0: real, nx: real, bx: real, bounceY: real,
                        p: Rect, vy: real, away: real, dt: real, hit: PaddleHit)
    requires nx != x0 && p.height > 0.0
    ensures BounceOff(m, shape, x0, nx, bx, bounceY, p, vy, away, dt, hit).y
         == bounceY + Rebound(m, shape.speed, BounceAngle(bounceY, shape.diameter, p, shape.maxBounceAngle), vy, away).vy
                      * RemainingFrameTime(dt, x0, nx, bx)
  {
  }

  /** At a velocity of at most `s` in magnitude, `t` <= `dt` seconds cover at most `s` * `dt`. */
  lemma TravelWithin(v: real, t: real, s: real, dt: real)
    requires -s <= v <= s && 0.0 <= t <= dt && 0.0 <= s
    ensures -(s * dt) <= v * t <= s * dt
  {
    MulMonotone(-s, v, t);
    MulMonotone(v, s, t);
    MulMonotone(t, dt, s);
  }

  // ---------------------------------------------------------------------
  // Periodic speed-up

  /** The speed-up timer and whether this call speeds the ball and the right paddle up. */
  datatype Speedup = Speedup(lastSpeedupMs: Option<nat>, bumped: bool)

  /**
   * The first call only starts the timer. Later calls speed up when more than
   * 15 s have passed since the last speed-up, the frame had a paddle or
   * scoring bounce, the ball's multiplier is below the cap and slow motion is
   * off; a speed-up restarts the timer.
   */
  function SpeedupRule(last: Option<nat>, nowMs: nat, bounce: bool, multiplier: real, slowMotion: bool): (r: Speedup)
    requires last.Some? ==> last.value <= nowMs
    ensures r.lastSpeedupMs.Some? && r.lastSpeedupMs.value <= nowMs
    ensures last.None? ==> r == Speedup(Some(nowMs), false)
    ensures r.bumped ==> last.Some? && nowMs > last.value + SPEEDUP_INTERVAL_MS && bounce
                         && multiplier < SPEEDUP_CAP && !slowMotion && r.lastSpeedupMs == Some(nowMs)
    ensures last.Some? && nowMs > last.value + SPEEDUP_INTERVAL_MS && bounce && multiplier < SPEEDUP_CAP && !slowMotion
            ==> r.bumped
    ensures last.Some? && !r.bumped ==> r.lastSpeedupMs == last
  {
    match last
    case None => Speedup(Some(nowMs), false)
    case Some(lastMs) =>
      if nowMs - lastMs > SPEEDUP_INTERVAL_MS && bounce && multiplier < SPEEDUP_CAP && !slowMotion then
        Speedup(Some(nowMs), true)
      else
        Speedup(last, false)
  }

  /** The multiplier starts at one and a speed-up never takes it to 1.6 or beyond. */
  lemma SpeedupBoundsMultiplier(last: Option<nat>, nowMs: nat, bounce: bool, multiplier: real, slowMotion: bool)
    requires last.Some? ==> last.value <= nowMs
    requires 1.0 <= multiplier < SPEEDUP_CAP + SPEEDUP_STEP
    ensures var r := SpeedupRule(last, nowMs, bounce, multiplier, slowMotion);
      1.0 <= multiplier + (if r.bumped then SPEEDUP_STEP else 0.0) < SPEEDUP_CAP + SPEEDUP_STEP
  {
  }

  // ---------------------------------------------------------------------
  // Slow motion

  /** The slow-motion charges left in this round and when the running one started, if any. */
  datatype SlowMotion = SlowMotion(remaining: nat, startedMs: Option<nat>)

  /**
   * A mouse click starts slow motion, stamped with the click's time, only
   * when a charge is left and no slow motion is running, and uses up one
   * charge; any other click changes nothing.
   */
  function ClickSlowMotion(s: SlowMotion, nowMs: nat): (r: SlowMotion)
    ensures r.startedMs != s.startedMs <==> 0 < s.remaining && s.startedMs.None?
    ensures r.startedMs != s.startedMs ==> r.startedMs == Some(nowMs) && r.remaining + 1 == s.remaining
    ensures r.startedMs == s.startedMs ==> r == s
  {
    if s.remaining > 0 && s.startedMs.None? then SlowMotion(s.remaining - 1, Some(nowMs)) else s
  }

  /** Slow motion ends at the first check made 5 s or more after it started. */
  function ExpireSlowMotion(startedMs: Option<nat>, nowMs: nat): (r: Option<nat>)
    requires startedMs.Some? ==> startedMs.value <= nowMs
    ensures r.None? <==> startedMs.None? || startedMs.value + SLOW_MOTION_DURATION_MS <= nowMs
    ensures r.Some? ==> r == startedMs
  {
    match startedMs
    case None => None
    case Some(started) => if nowMs - started >= SLOW_MOTION_DURATION_MS then None else startedMs
  }

  /** What happens to slow motion between resets: a click, or the end of the running slow motion. */
  datatype SlowMotionInput = Click(atMs: nat) | Expiry

  /** The slow-motion state after a sequence of clicks and expiries. */
  function ReplaySlowMotion(s: SlowMotion, inputs: seq<SlowMotionInput>): (r: SlowMotion)
    decreases |inputs|
  {
    if inputs == [] then s
    else
      match inputs[0]
      case Click(t) => ReplaySlowMotion(ClickSlowMotion(s, t), inputs[1..])
      case Expiry => ReplaySlowMotion(SlowMotion(s.remaining, None), inputs[1..])
  }

  /** The number of clicks in `inputs` that start a slow motion. */
  function SlowMotionsStarted(s: SlowMotion, inputs: seq<SlowMotionInput>): (n: nat)
    decreases |inputs|
  {
    if inputs == [] then 0
    else
      match inputs[0]
      case Click(t) =>
        var r := ClickSlowMotion(s, t);
        (if r.startedMs != s.startedMs then 1 else 0) + SlowMotionsStarted(r, inputs[1..])
      case Expiry => SlowMotionsStarted(SlowMotion(s.remaining, None), inputs[1..])
  }

  /**
   * Every slow motion started uses up one charge: however the player clicks,
   * the slow motions started and the charges left add up to the charges at
   * the start, so a round (which starts with three) has at most three.
   */
  lemma {:induction false} SlowMotionChargesBound(s: SlowMotion, inputs: seq<SlowMotionInput>)
    ensures SlowMotionsStarted(s, inputs) + ReplaySlowMotion(s, inputs).remaining == s.remaining
    ensures s.remaining <= SLOW_MOTIONS_PER_ROUND ==> SlowMotionsStarted(s, inputs) <= SLOW_MOTIONS_PER_ROUND
    decreases |inputs|
  {
    if inputs != [] {
      match inputs[0]
      case Click(t) => SlowMotionChargesBound(ClickSlowMotion(s, t), inputs[1..]);
      case Expiry => SlowMotionChargesBound(SlowMotion(s.remaining, None), inputs[1..]);
    }
  }

  // ---------------------------------------------------------------------
  // Paddle movement

  /** Keep a paddle of height `h` between the top and the bottom of the field. */
  function ClampToField(y: real, h: real, height: real): (r: real)
    ensures 0.0 <= y && y + h <= height ==> r == y
    ensures h <= height ==> 0.0 <= r && r + h <= height
    ensures y < 0.0 ==> r == 0.0
    ensures y + h > height && 0.0 <= y ==> r + h == height
  {
    if y < 0.0 then 0.0
    else if y + h > height then height - h
    else y
  }

  /** The height the right paddle aims for: the ball's centre while it approaches, else mid-field. */
  function TrackingY(ballY: real, ballVx: real, diameter: real, height: real): (r: real)
    ensures 0.0 <= diameter && 0.0 <= ballY && ballY + diameter <= height ==> 0.0 <= r <= height
  {
    if ballVx > 0.0 then ballY + diameter / 2.0 else height / 2.0
  }

  /**
   * One frame of the right paddle's AI before clamping: move by `step`
   * toward the target only when it lies below the paddle's 3/4 line or above
   * its 1/4 line, and centre the paddle on the target instead of overshooting.
   */
  function TrackTarget(y: real, h: real, target: real, step: real): (r: real)
    ensures 0.0 < h && 0.0 <= step ==> (r > y ==> target > y + h * (3.0 / 4.0))
    ensures 0.0 < h && 0.0 <= step ==> (r < y ==> target < y + h * (1.0 / 4.0))
    ensures y + h * (1.0 / 4.0) <= target <= y + h * (3.0 / 4.0) ==> r == y
    ensures 0.0 < h && 0.0 <= step ==> y - step <= r <= y + step
    ensures 0.0 < h && 0.0 < step && target > y + h * (3.0 / 4.0) ==> y < r <= target
    ensures 0.0 < h && 0.0 < step && target < y + h * (1.0 / 4.0) ==> r < y && target <= r + h
    ensures r != y - step && r != y + step && r != y ==> r + h / 2.0 == target
  {
    if target > y + h * (3.0 / 4.0) then
      var moved := y + step;
      if moved > target then target - h / 2.0 else moved
    else if target < y + h * (1.0 / 4.0) then
      var moved := y - step;
      if moved + h < target then target - h / 2.0 else moved
    else
      y
  }

  /**
   * The right paddle's whole move: it stays in the field, moves at most
   * `step`, moves down only toward a target below its 3/4 line and up only
   * toward a target above its 1/4 line.
   */
  lemma RightPaddleMoveProperties(y: real, h: real, height: real, target: real, step: real)
    requires 0.0 < h <= height && 0.0 <= step
    requires 0.0 <= y && y + h <= height
    ensures var r := ClampToField(TrackTarget(y, h, target, step), h, height);
      && 0.0 <= r && r + h <= height
      && y - step <= r <= y + step
      && (r > y ==> target > y + h * (3.0 / 4.0))
      && (r < y ==> target < y + h * (1.0 / 4.0))
  {
    var t := TrackTarget(y, h, target, step);
    var r := ClampToField(t, h, height);
    if t < 0.0 {
      assert r == 0.0 && t < y;
    } else if t + h > height {
      assert r == height - h && t > y;
    } else {
      assert r == t;
    }
  }

  // ---------------------------------------------------------------------
  // Winning and frame pacing

  /** The winner, if any: the left player is checked first. */
  function Winner(lscore: int, rscore: int): (w: Option<Side>)
    ensures w == Some(LeftPlayer) <==> lscore >= POINTS_TO_WIN
    ensures w == Some(RightPlayer) <==> lscore < POINTS_TO_WIN && rscore >= POINTS_TO_WIN
    ensures w.None? <==> lscore < POINTS_TO_WIN && rscore < POINTS_TO_WIN
  {
    if lscore >= POINTS_TO_WIN then Some(LeftPlayer)
    else if rscore >= POINTS_TO_WIN then Some(RightPlayer)
    else None
  }

  /**
   * The sleep that pads a frame to its budget of 1000 / fps whole
   * milliseconds; `None` when the frame already took at least that long.
   */
  function FrameDelayMs(fps: nat, durationMs: nat): (sleepMs: Option<nat>)
    requires 0 < fps
    ensures sleepMs.Some? <==> durationMs < 1000 / fps
    ensures sleepMs.Some? ==> 0 < sleepMs.value && durationMs + sleepMs.value == 1000 / fps
  {
    var maxDelayMs := 1000 / fps;
    if maxDelayMs > durationMs then Some(maxDelayMs - durationMs) else None
  }
}
