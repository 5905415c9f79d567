// The paddle of src/pongo/paddle.rs: a class whose position and speed
// multiplier change in place and whose reset restores the initial state.

module PaddleEntity {
  import opened Common
  import opened Physics

  class Paddle {
    const color: Color
    const initialX: real
    const initialY: real
    var x: real
    var y: real
    const width: real
    const height: real
    /** Base speed in pixels per second. */
    const speed: real
    var speedMultiplier: real

    /** The paddle's current rectangle, as the collision rules see it. */
    function Bounds(): (r: Rect)
      reads this
      ensures r.x == x && r.y == y && r.width == width && r.height == height
    {
      Rect(x, y, width, height)
    }

    /** A paddle at (x, y) with its base speed, immediately reset. */
    constructor (color: Color, x: real, y: real, width: real, height: real, speed: real)
      ensures this.color == color && this.width == width && this.height == height && this.speed == speed
      ensures initialX == x && initialY == y
      ensures this.x == x && this.y == y && speedMultiplier == 1.0
    {
      this.color := color;
      initialX := x;
      initialY := y;
      this.x := x;
      this.y := y;
      this.width := width;
      this.height := height;
      this.speed := speed;
      speedMultiplier := 1.0;
      new;
      Reset();
    }

    /** Back to the initial position and the base speed; everything else is constant. */
    method Reset()
      modifies this
      ensures x == initialX && y == initialY && speedMultiplier == 1.0
    {
      x := initialX;
      y := initialY;
      speedMultiplier := 1.0;
    }
  }
}
