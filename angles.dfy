/** Angle arithmetic of the controller: the wrapped position error that drives
    the speed observer, and the re-wrapping of the observer's position state. */
module Angles {

  /** numpy's `np.pi`, written out to the digits of the double it denotes. */
  const PI: real := 3.141592653589793
  const TWO_PI: real := 2.0 * PI

  function Abs(x: real): real {
    if x < 0.0 then -x else x
  }

  /** True when `x` is a whole number of turns (an integer multiple of 2*pi). */
  predicate WholeTurns(x: real) {
    (x / TWO_PI).Floor as real == x / TWO_PI
  }

  /** The remainder of Python's `divmod(a, 2*np.pi)`: floored, so it lies in
      [0, 2*pi) and differs from `a` by whole turns. */
  function Mod2Pi(a: real): (r: real)
    ensures 0.0 <= r < TWO_PI
    ensures WholeTurns(a - r)
  {
    var q := (a / TWO_PI).Floor;
    assert (q as real * TWO_PI) / TWO_PI == q as real;
    a - q as real * TWO_PI
  }

  /** `angle_diff(a, b)`: the signed difference of the two angles reduced to
      [0, 2*pi), shifted by a turn when that makes it shorter. */
  function AngleDiff(a: real, b: real): (r: real)
    ensures -PI <= r <= PI
    ensures r == Mod2Pi(a) - Mod2Pi(b)
         || r == Mod2Pi(a) - Mod2Pi(b) - TWO_PI
         || r == Mod2Pi(a) - Mod2Pi(b) + TWO_PI
  {
    var a' := Mod2Pi(a);
    var b' := Mod2Pi(b);
    var d1 := a' - b';
    var d2 := if d1 > 0.0 then a' - (b' + TWO_PI) else (TWO_PI + a') - b';
    if Abs(d1) < Abs(d2) then d1 else d2
  }

  /** The error of an angle against itself is zero. */
  lemma AngleDiffSelf(a: real)
    ensures AngleDiff(a, a) == 0.0
  {
  }

  /** Adding whole turns to an angle does not change its reduction. */
  lemma {:induction false} Mod2PiPeriodic(a: real, k: int)
    ensures Mod2Pi(a + k as real * TWO_PI) == Mod2Pi(a)
  {
    var q := (a / TWO_PI).Floor;
    var x := a + k as real * TWO_PI;
    assert x / TWO_PI == a / TWO_PI + k as real;
    assert (q + k) as real <= x / TWO_PI < (q + k) as real + 1.0;
    assert (x / TWO_PI).Floor == q + k;
    assert Mod2Pi(x) == x - (q + k) as real * TWO_PI;
  }

  /** The error only depends on the two angles modulo a turn. */
  lemma AngleDiffPeriodic(a: real, b: real, k: int, m: int)
    ensures AngleDiff(a + k as real * TWO_PI, b + m as real * TWO_PI) == AngleDiff(a, b)
  {
    Mod2PiPeriodic(a, k);
    Mod2PiPeriodic(b, m);
  }

  /** The error is the shortest representative: no other whole-turn shift of
      the reduced difference is smaller in magnitude. */
  lemma AngleDiffIsShortest(a: real, b: real, k: int)
    ensures Abs(AngleDiff(a, b)) <= Abs(Mod2Pi(a) - Mod2Pi(b) + k as real * TWO_PI)
  {
    var d := Mod2Pi(a) - Mod2Pi(b);
    var r := AngleDiff(a, b);
    if k >= 2 {
      assert k as real * TWO_PI >= 2.0 * TWO_PI;
    } else if k <= -2 {
      assert k as real * TWO_PI <= -2.0 * TWO_PI;
    }
  }

  /** Away from the half-turn ties, swapping the arguments negates the error. */
  lemma AngleDiffAntisymmetric(a: real, b: real)
    requires Abs(AngleDiff(a, b)) < PI
    ensures AngleDiff(b, a) == -AngleDiff(a, b)
  {
  }

  /** The two `while` loops that follow the observer update: subtract whole
      turns while the position is above pi, then add whole turns while it is
      below -pi. The result lies in [-pi, pi] and differs from the input by
      `turns` whole turns; an input already in range is left alone. */
  method WrapPosition(x: real) returns (y: real, ghost turns: int)
    ensures -PI <= y <= PI
    ensures y == x + turns as real * TWO_PI
    ensures -PI <= x <= PI ==> y == x
  {
    y, turns := x, 0;
    while y > PI
      invariant y == x + turns as real * TWO_PI
      invariant -PI <= x <= PI ==> y == x
      decreases ((y - PI) / TWO_PI).Floor
    {
      y := y - TWO_PI;
      turns := turns - 1;
    }
    while y < -PI
      invariant y == x + turns as real * TWO_PI
      invariant y <= PI
      invariant -PI <= x <= PI ==> y == x
      decreases ((-PI - y) / TWO_PI).Floor
    {
      y := y + TWO_PI;
      turns := turns + 1;
    }
  }
}
