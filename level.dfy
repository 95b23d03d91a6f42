/**
 * The level grid: a static occupancy map. A world point (x, y) lies in the cell
 * g[floor(x)][floor(y)], so the x coordinate selects the row and y the column.
 */
module Level {

  /** g[i][j] is true when the cell in row i, column j is a wall. */
  type Grid = seq<seq<bool>>

  predicate Rectangular(g: Grid) {
    |g| > 0 && forall i :: 0 <= i < |g| ==> |g[i]| == |g[0]|
  }

  /** A level the engine can run on: rectangular, and every cell of its outer ring is a wall. */
  predicate WellFormed(g: Grid) {
    Rectangular(g) && |g[0]| > 0 &&
    (forall j :: 0 <= j < |g[0]| ==> g[0][j] && g[|g| - 1][j]) &&
    (forall i :: 0 <= i < |g| ==> g[i][0] && g[i][|g[0]| - 1])
  }

  /** The floored coordinates of (x, y) index an existing cell. */
  predicate InBounds(g: Grid, x: real, y: real) {
    0 <= x.Floor < |g| && 0 <= y.Floor < |g[x.Floor]|
  }

  /** The point lies in a cell off the outer ring. */
  predicate Interior(g: Grid, x: real, y: real) {
    Rectangular(g) && 1 <= x.Floor < |g| - 1 && 1 <= y.Floor < |g[0]| - 1
  }

  /** A displacement of at most one cell along each axis. */
  predicate ShortStep(dx: real, dy: real) {
    -1.0 <= dx <= 1.0 && -1.0 <= dy <= 1.0
  }

  /** hasCollision: whether the cell under (x, y) is a wall. On a well-formed
      level a free cell is never on the outer ring. */
  function Blocked(g: Grid, x: real, y: real): (r: bool)
    requires InBounds(g, x, y)
    ensures WellFormed(g) && !r ==> Interior(g, x, y)
  {
    RingIsWall(g, x, y);
    g[x.Floor][y.Floor]
  }

  lemma RingIsWall(g: Grid, x: real, y: real)
    requires InBounds(g, x, y)
    ensures WellFormed(g) && !g[x.Floor][y.Floor] ==> Interior(g, x, y)
  {
    if WellFormed(g) {
      var i, j := x.Floor, y.Floor;
      assert |g[i]| == |g[0]|;
      assert g[0][j] && g[|g| - 1][j];
      assert g[i][0] && g[i][|g[0]| - 1];
    }
  }

  /** From a cell off the ring, a displacement of at most one cell per axis cannot leave the grid. */
  lemma StepFromInterior(g: Grid, x: real, y: real, dx: real, dy: real)
    requires Interior(g, x, y) && ShortStep(dx, dy)
    ensures InBounds(g, x + dx, y + dy)
    ensures x.Floor - 1 <= (x + dx).Floor <= x.Floor + 1
    ensures y.Floor - 1 <= (y + dy).Floor <= y.Floor + 1
  {
  }

  /** The 10 x 10 level the program ships with (1 = wall). */
  const SampleLevel: Grid := [
    [true,  true,  true,  true,  true,  true,  true,  true,  true,  true ],
    [true,  false, false, false, false, false, false, false, false, true ],
    [true,  false, false, false, false, false, false, false, false, true ],
    [true,  false, false, true,  true,  false, true,  false, false, true ],
    [true,  false, false, true,  false, false, true,  false, false, true ],
    [true,  false, false, true,  false, false, true,  false, false, true ],
    [true,  false, false, true,  false, true,  true,  false, false, true ],
    [true,  false, false, false, false, false, false, false, false, true ],
    [true,  false, false, false, false, false, false, false, false, true ],
    [true,  true,  true,  true,  true,  true,  true,  true,  true,  true ]
  ]

  /** The shipped level meets the engine's requirements, and the shipped start
      point (2, 2) is a free cell off the ring. */
  lemma SampleLevelIsWellFormed()
    ensures WellFormed(SampleLevel) && Interior(SampleLevel, 2.0, 2.0)
    ensures InBounds(SampleLevel, 2.0, 2.0) && !Blocked(SampleLevel, 2.0, 2.0)
  {
  }
}
