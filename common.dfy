// Shared vocabulary of the Pong model: optional values, colours, and the
// trigonometry the game borrows from the floating-point library.

module Common {

  datatype Option<T> = None | Some(value: T)

  /** An SDL colour; only carried around, never inspected by the rules. */
  datatype Color = RGB(r: int, g: int, b: int)

  function Abs(x: real): (r: real)
    ensures 0.0 <= r && (r == x || r == -x)
  {
    if x < 0.0 then -x else x
  }

  /**
   * `sin`, `cos` and `sqrt` of the floating-point library, left abstract.
   * Only the laws below are assumed of them (through `Lawful()`);
   * `halfPi` stands for pi/2.
   */
  datatype Trig = Trig(sin: real -> real, cos: real -> real, sqrt: real -> real, halfPi: real)
  {
    ghost predicate Lawful() {
      && 0.0 < halfPi
      && sin(0.0) == 0.0
      && cos(0.0) == 1.0
      && (forall a :: sin(a) * sin(a) + cos(a) * cos(a) == 1.0)
      && (forall a :: 0.0 <= a <= halfPi ==> 0.0 <= cos(a))
      && (forall a :: 0.0 <= a <= 2.0 * halfPi ==> 0.0 <= sin(a))
      && (forall x :: 0.0 <= x ==> 0.0 <= sqrt(x) && sqrt(x) * sqrt(x) == x)
    }
  }

  /** sin is bounded by one in magnitude, whatever the angle. */
  lemma SineSquaredAtMostOne(m: Trig, a: real)
    requires m.Lawful()
    ensures m.sin(a) * m.sin(a) <= 1.0
  {
    var c := m.cos(a);
    assert m.sin(a) * m.sin(a) + c * c == 1.0;
    assert 0.0 <= c * c;
  }

  /** A velocity of magnitude `speed` pointed at `angle`, with independent signs per axis. */
  lemma {:induction false} PolarMagnitude(speed: real, c: real, s: real, sx: real, sy: real)
    requires c * c + s * s == 1.0
    requires sx * sx == 1.0 && sy * sy == 1.0
    ensures (speed * c * sx) * (speed * c * sx) + (speed * s * sy) * (speed * s * sy) == speed * speed
  {
    calc {
      (speed * c * sx) * (speed * c * sx) + (speed * s * sy) * (speed * s * sy);
      == (speed * speed) * (c * c) * (sx * sx) + (speed * speed) * (s * s) * (sy * sy);
      == (speed * speed) * (c * c) + (speed * speed) * (s * s);
      == (speed * speed) * (c * c + s * s);
      == speed * speed;
    }
  }

  // Real-arithmetic facts the solver does not find on its own.

  lemma FractionInUnit(a: real, b: real)
    requires b != 0.0
    requires 0.0 <= a <= b || b <= a <= 0.0
    ensures 0.0 <= a / b <= 1.0
  {
    var q := a / b;
    assert q * b == a;
    if b < 0.0 {
      var r := (-a) / (-b);
      assert r * (-b) == -a;
      assert (q - r) * b == 0.0;
      PositiveFractionInUnit(-a, -b);
    } else {
      PositiveFractionInUnit(a, b);
    }
  }

  lemma PositiveFractionInUnit(a: real, b: real)
    requires 0.0 < b && 0.0 <= a <= b
    ensures 0.0 <= a / b <= 1.0
  {
    var q := a / b;
    assert q * b == a;
    assert q < 0.0 ==> q * b < 0.0;
    assert q > 1.0 ==> (q - 1.0) * b > 0.0;
  }

  lemma ScaleWithin(d: real, t: real)
    requires 0.0 <= d && 0.0 <= t <= 1.0
    ensures 0.0 <= d * t <= d
  {
    assert d * (1.0 - t) >= 0.0;
  }

  lemma SquareBound(v: real, s: real)
    requires 0.0 <= s && v * v <= s * s
    ensures -s <= v <= s
  {
    if v > s {
      SquareGrows(s, v - s);
    } else if v < -s {
      SquareGrows(s, -s - v);
    }
  }

  lemma SquareGrows(s: real, d: real)
    requires 0.0 <= s && 0.0 < d
    ensures (s + d) * (s + d) > s * s
  {
    assert (s + d) * (s + d) == s * s + 2.0 * (s * d) + d * d;
    assert d * d > 0.0;
    assert s * d >= 0.0;
  }

  lemma MulMonotone(x: real, y: real, k: real)
    requires x <= y && 0.0 <= k
    ensures x * k <= y * k
  {
    assert (y - x) * k >= 0.0;
  }

  /** Dividing both sides of a chain `x * k <= z <= y * k` by a positive `k`. */
  lemma CancelPositive(x: real, y: real, z: real, k: real)
    requires 0.0 < k && x * k <= z && z <= y * k
    ensures x <= y
  {
    assert (y - x) * k >= 0.0;
  }

  lemma DivMulSwap(a: real, b: real, c: real)
    requires c != 0.0
    ensures a / c * b == a * (b / c)
  {
    var s, t := a / c, b / c;
    assert s * c == a;
    assert t * c == b;
    calc {
      s * b;
      == s * (t * c);
      == (s * c) * t;
      == a * t;
    }
  }

}
