/**
 * The fixed-step ray march of castRay: from the camera, add a constant step
 * (cos, sin) / rate to the point until the cell under it is a wall. On a level
 * whose outer ring is all wall, a step of at most one cell per axis cannot jump
 * over the ring, so the march always stops inside the grid.
 */
module March {
  import opened Level

  /** A step that moves at all. */
  predicate Moving(sx: real, sy: real) {
    sx != 0.0 || sy != 0.0
  }

  /** Everything a march from (x, y) with step (sx, sy) relies on. */
  predicate Marchable(g: Grid, x: real, y: real, sx: real, sy: real) {
    WellFormed(g) && InBounds(g, x, y) && ShortStep(sx, sy) && Moving(sx, sy)
  }

  /** The coordinate after k steps of d from p, accumulated one step at a time. */
  function Advance(p: real, d: real, k: nat): (r: real)
    ensures d >= 0.0 ==> r >= p
    ensures d <= 0.0 ==> r <= p
  {
    if k == 0 then p else Advance(p, d, k - 1) + d
  }

  /** Starting one step further along is the same as taking one more step. */
  lemma {:induction false} AdvanceShift(p: real, d: real, k: nat)
    ensures Advance(p + d, d, k) == Advance(p, d, k + 1)
  {
    if k > 0 {
      AdvanceShift(p, d, k - 1);
    }
  }

  /** After k steps the point has moved by exactly k times the step. */
  lemma {:induction false} AdvanceIsLinear(p: real, d: real, k: nat)
    ensures Advance(p, d, k) == p + k as real * d
  {
    if k > 0 {
      AdvanceIsLinear(p, d, k - 1);
      assert (k - 1) as real * d + d == k as real * d;
    }
  }

  /** The number of steps still possible before the point leaves the grid along an
      axis the step moves on; it drops by exactly one per step. */
  function Measure(g: Grid, x: real, y: real, sx: real, sy: real): int
    requires Rectangular(g)
  {
    if sx > 0.0 then ((|g| as real - x) / sx).Floor
    else if sx < 0.0 then (x / -sx).Floor
    else if sy > 0.0 then ((|g[0]| as real - y) / sy).Floor
    else if sy < 0.0 then (y / -sy).Floor
    else 0
  }

  /** A positive factor can be cancelled from both sides of an inequality. */
  lemma CancelPositive(a: real, b: real, d: real)
    requires d > 0.0 && a * d <= b * d
    ensures a <= b
  {
    assert (b - a) * d >= 0.0;
  }

  lemma QuotientStep(a: real, d: real)
    requires d > 0.0
    ensures (a - d) / d == a / d - 1.0
  {
    var q := a / d;
    var p := (a - d) / d;
    assert q * d == a && p * d == a - d;
    var e := q - 1.0 - p;
    assert e * d == q * d - d - p * d;
    assert e * d == 0.0;
    assert e <= 0.0 && e >= 0.0;
  }

  /** Taking d away from a quotient's numerator lowers its floor by one. */
  lemma QuotientCountdown(a: real, d: real)
    requires d > 0.0 && a - d >= 0.0
    ensures 0 <= ((a - d) / d).Floor == (a / d).Floor - 1
  {
    QuotientStep(a, d);
    var z := (a - d) / d;
    assert z * d == a - d;
    assert z >= 0.0;
    assert (z + 1.0).Floor == z.Floor + 1;
  }

  /** From a cell off the ring, one step stays in the grid and lowers the measure,
      which stays non-negative. */
  lemma MeasureDecreases(g: Grid, x: real, y: real, sx: real, sy: real)
    requires WellFormed(g) && Interior(g, x, y) && ShortStep(sx, sy) && Moving(sx, sy)
    ensures InBounds(g, x + sx, y + sy)
    ensures 0 <= Measure(g, x + sx, y + sy, sx, sy) == Measure(g, x, y, sx, sy) - 1
  {
    StepFromInterior(g, x, y, sx, sy);
    var x', y' := x + sx, y + sy;
    var rows, cols := |g| as real, |g[0]| as real;
    assert |g[x'.Floor]| == |g[0]|;
    assert 0.0 <= x' < rows by {
      assert x'.Floor as real <= x' < x'.Floor as real + 1.0;
    }
    assert 0.0 <= y' < cols by {
      assert y'.Floor as real <= y' < y'.Floor as real + 1.0;
    }
    if sx > 0.0 {
      QuotientCountdown(rows - x, sx);
      assert rows - x - sx == rows - x';
    } else if sx < 0.0 {
      QuotientCountdown(x, -sx);
      assert x - -sx == x';
    } else if sy > 0.0 {
      QuotientCountdown(cols - y, sy);
      assert cols - y - sy == cols - y';
    } else {
      QuotientCountdown(y, -sy);
      assert y - -sy == y';
    }
  }

  /** How many steps the march takes before it stands in a wall. */
  function MarchSteps(g: Grid, x: real, y: real, sx: real, sy: real): (k: nat)
    requires Marchable(g, x, y, sx, sy)
    ensures k == 0 <==> Blocked(g, x, y)
    decreases Measure(g, x, y, sx, sy)
  {
    if Blocked(g, x, y) then 0
    else
      MeasureDecreases(g, x, y, sx, sy);
      1 + MarchSteps(g, x + sx, y + sy, sx, sy)
  }

  /** The march stops at the first step point whose cell is a wall: it takes no step
      when it starts in a wall, every earlier step point lies in a free cell, and
      no point it visits is outside the grid. */
  lemma {:induction false} MarchStopsAtFirstWall(g: Grid, x: real, y: real, sx: real, sy: real)
    requires Marchable(g, x, y, sx, sy)
    ensures MarchSteps(g, x, y, sx, sy) == 0 <==> Blocked(g, x, y)
    ensures var k := MarchSteps(g, x, y, sx, sy);
      InBounds(g, Advance(x, sx, k), Advance(y, sy, k)) && Blocked(g, Advance(x, sx, k), Advance(y, sy, k))
    ensures var k := MarchSteps(g, x, y, sx, sy);
      forall j :: 0 <= j < k ==>
        InBounds(g, Advance(x, sx, j), Advance(y, sy, j)) && !Blocked(g, Advance(x, sx, j), Advance(y, sy, j))
    decreases Measure(g, x, y, sx, sy)
  {
    if !Blocked(g, x, y) {
      MeasureDecreases(g, x, y, sx, sy);
      MarchStopsAtFirstWall(g, x + sx, y + sy, sx, sy);
      var k := MarchSteps(g, x, y, sx, sy);
      AdvanceShift(x, sx, k - 1);
      AdvanceShift(y, sy, k - 1);
      forall j | 0 <= j < k
        ensures InBounds(g, Advance(x, sx, j), Advance(y, sy, j)) && !Blocked(g, Advance(x, sx, j), Advance(y, sy, j))
      {
        if j > 0 {
          AdvanceShift(x, sx, j - 1);
          AdvanceShift(y, sy, j - 1);
        }
      }
    }
  }

  /** A unit direction divided by a rate of at least one is a short, moving step. */
  lemma UnitStep(c: real, s: real, rate: real)
    requires -1.0 <= c <= 1.0 && -1.0 <= s <= 1.0 && c * c + s * s == 1.0 && rate >= 1.0
    ensures ShortStep(c / rate, s / rate) && Moving(c / rate, s / rate)
  {
    assert c / rate * rate == c && s / rate * rate == s;
  }
}
