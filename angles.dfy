/** Angles in degrees, as the tilt pipeline compares them.

    The source works on floats; here an angle is a `real`, and Python's
    float remainder `x % 360` (whose result takes the sign of the divisor)
    is written out with `Floor`. */
module Angles {

  /** Absolute value, Python's `abs` on a float. */
  function Abs(x: real): real
  {
    if x < 0.0 then -x else x
  }

  /** x and y differ by a whole number of full turns. */
  predicate Congruent(x: real, y: real)
  {
    ((x - y) / 360.0).Floor as real == (x - y) / 360.0
  }

  /** Python's `x % 360` on a float: the remainder in [0, 360), found by
      removing whole turns (Mod360IsFloorMod gives Python's floor formula). */
  function Mod360(x: real): (r: real)
    ensures 0.0 <= r < 360.0
    decreases if x < 0.0 then 720.0 - x else x
  {
    if 0.0 <= x < 360.0 then x
    else Mod360(if x < 0.0 then x + 360.0 else x - 360.0)
  }

  /** Mod360 is Python's float remainder `x - 360 * floor(x / 360)`. */
  lemma {:induction false} Mod360IsFloorMod(x: real)
    ensures Mod360(x) == x - 360.0 * (x / 360.0).Floor as real
    decreases if x < 0.0 then 720.0 - x else x
  {
    if x < 0.0 {
      Mod360IsFloorMod(x + 360.0);
      assert (x + 360.0) / 360.0 == x / 360.0 + 1.0;
      assert ((x + 360.0) / 360.0).Floor == (x / 360.0).Floor + 1;
    } else if x >= 360.0 {
      Mod360IsFloorMod(x - 360.0);
      assert (x - 360.0) / 360.0 == x / 360.0 - 1.0;
      assert ((x - 360.0) / 360.0).Floor == (x / 360.0).Floor - 1;
    } else {
      assert 0.0 <= x / 360.0 < 1.0;
      assert (x / 360.0).Floor == 0;
    }
  }

  /** The lambda `angleDiff(start, stop)`: `((start - stop) + 180) % 360 - 180`. */
  function AngleDiff(start: real, stop: real): (d: real)
    ensures -180.0 <= d < 180.0
  {
    Mod360((start - stop) + 180.0) - 180.0
  }

  /** Python's remainder differs from its argument by whole turns. */
  lemma Mod360Congruent(x: real)
    ensures Congruent(Mod360(x), x)
  {
    Mod360IsFloorMod(x);
    var k := (x / 360.0).Floor;
    CongruentByTurns(Mod360(x), x, -k);
  }

  /** AngleDiff differs from start - stop by whole turns. */
  lemma AngleDiffCongruent(start: real, stop: real)
    ensures Congruent(AngleDiff(start, stop), start - stop)
  {
    var y := (start - stop) + 180.0;
    Mod360Congruent(y);
    var k := TurnsBetween(Mod360(y), y);
    CongruentByTurns(AngleDiff(start, stop), start - stop, k);
  }

  /** The whole number of turns between two congruent angles. */
  lemma TurnsBetween(x: real, y: real) returns (k: int)
    requires Congruent(x, y)
    ensures x - y == 360.0 * k as real
  {
    k := ((x - y) / 360.0).Floor;
  }

  /** Angles a whole number of turns apart are congruent. */
  lemma CongruentByTurns(x: real, y: real, k: int)
    requires x - y == 360.0 * k as real
    ensures Congruent(x, y)
  {
    assert (x - y) / 360.0 == k as real;
  }

  /** Within one turn of each other, congruent angles are equal. */
  lemma CongruentWithinTurn(x: real, y: real)
    requires Congruent(x, y)
    requires -360.0 < x - y < 360.0
    ensures x == y
  {
    var k := TurnsBetween(x, y);
    assert -1 < k < 1;
  }

  /** AngleDiff is the only angle in [-180, 180) congruent to start - stop. */
  lemma AngleDiffUnique(start: real, stop: real, d: real)
    requires -180.0 <= d < 180.0
    requires Congruent(d, start - stop)
    ensures d == AngleDiff(start, stop)
  {
    var e := AngleDiff(start, stop);
    AngleDiffCongruent(start, stop);
    var k1 := TurnsBetween(d, start - stop);
    var k2 := TurnsBetween(e, start - stop);
    CongruentByTurns(d, e, k1 - k2);
    CongruentWithinTurn(d, e);
  }

  /** When start - stop already lies in [-180, 180), AngleDiff returns it unchanged. */
  lemma AngleDiffExact(start: real, stop: real)
    requires -180.0 <= start - stop < 180.0
    ensures AngleDiff(start, stop) == start - stop
  {
    CongruentByTurns(start - stop, start - stop, 0);
    AngleDiffUnique(start, stop, start - stop);
  }

  /** AngleDiff is the shortest rotation: no angle congruent to start - stop is smaller in magnitude. */
  lemma AngleDiffShortest(start: real, stop: real, d: real)
    requires Congruent(d, start - stop)
    ensures Abs(AngleDiff(start, stop)) <= Abs(d)
  {
    var e := AngleDiff(start, stop);
    AngleDiffCongruent(start, stop);
    var k1 := TurnsBetween(d, start - stop);
    var k2 := TurnsBetween(e, start - stop);
    var k := k1 - k2;
    assert d == e + 360.0 * k as real;
    if k >= 1 {
      assert d >= e + 360.0;
    } else if k <= -1 {
      assert d <= e - 360.0;
    }
  }

  /** Swapping the arguments negates the difference, except at the half turn, which maps to itself. */
  lemma AngleDiffAntisymmetric(a: real, b: real)
    ensures AngleDiff(b, a) == if AngleDiff(a, b) == -180.0 then -180.0 else -AngleDiff(a, b)
  {
    var e := AngleDiff(a, b);
    AngleDiffCongruent(a, b);
    var k := TurnsBetween(e, a - b);
    var c := if e == -180.0 then -180.0 else -e;
    if e == -180.0 {
      CongruentByTurns(c, b - a, -k - 1);
    } else {
      CongruentByTurns(c, b - a, -k);
    }
    AngleDiffUnique(b, a, c);
  }

  /** Triangle inequality of the circular distance: two centres an angle is close to are close to each other. */
  lemma AngleDiffTriangle(a: real, c1: real, c2: real)
    ensures Abs(AngleDiff(c1, c2)) <= Abs(AngleDiff(a, c1)) + Abs(AngleDiff(a, c2))
  {
    var d1 := AngleDiff(a, c1);
    var d2 := AngleDiff(a, c2);
    AngleDiffCongruent(a, c1);
    AngleDiffCongruent(a, c2);
    var k1 := TurnsBetween(d1, a - c1);
    var k2 := TurnsBetween(d2, a - c2);
    CongruentByTurns(d2 - d1, c1 - c2, k2 - k1);
    AngleDiffShortest(c1, c2, d2 - d1);
  }
}
