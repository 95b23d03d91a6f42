/**
 * The raycasting engine: camera state with collision-gated movement, change
 * detection, and the per-column ray cast that fills the half-wall-height buffer.
 */
module Raycaster {
  import opened Wrappers
  import opened Level
  import opened March
  import Camera

  /** The engine's view of Math: cos and sin of an angle given in degrees (the
      conversion to radians is folded in) and the square root. */
  datatype Trig = Trig(cos: real -> real, sin: real -> real, sqrt: real -> real)

  /** The facts about cos, sin and sqrt that the engine relies on. */
  ghost predicate TrigValid(t: Trig) {
    (forall a {:trigger t.cos(a)} {:trigger t.sin(a)} :: UnitDirection(t.cos(a), t.sin(a))) &&
    (forall v {:trigger t.sqrt(v)} :: 0.0 <= v ==> SquareRoot(t.sqrt(v), v))
  }

  /** (c, s) is a point of the unit circle. */
  predicate UnitDirection(c: real, s: real) {
    -1.0 <= c <= 1.0 && -1.0 <= s <= 1.0 && c * c + s * s == 1.0
  }

  /** r is the non-negative square root of v. */
  predicate SquareRoot(r: real, v: real) {
    0.0 <= r && r * r == v
  }

  /** A ray or move direction scaled down by a rate of at least one is a short, moving step. */
  lemma DirectionStep(t: Trig, a: real, rate: real)
    requires TrigValid(t) && rate >= 1.0
    ensures ShortStep(t.cos(a) / rate, t.sin(a) / rate) && Moving(t.cos(a) / rate, t.sin(a) / rate)
  {
    assert UnitDirection(t.cos(a), t.sin(a));
    UnitStep(t.cos(a), t.sin(a), rate);
  }

  /** A half-wall height as JavaScript computes it: an integer, or a non-finite
      number when the distance is zero (Infinity, or NaN if the half height is
      also zero). */
  datatype Height = Finite(n: int) | NonFinite

  type NonNegative = r: real | 0.0 <= r

  /** The square root of a square is the non-negative number squared. */
  lemma SqrtOfSquare(t: Trig, v: real)
    requires TrigValid(t) && v >= 0.0
    ensures t.sqrt(v * v) == v
  {
    var r := t.sqrt(v * v);
    assert SquareRoot(r, v * v);
    var e := r - v;
    assert e * (r + v) == r * r - v * v;
    assert e * (r + v) == 0.0;
    assert e <= 0.0 && e >= 0.0;
  }

  /** A value known to be the square of a non-negative number has that number as its root. */
  lemma RootOfSquare(t: Trig, v: real, len: real)
    requires TrigValid(t) && len >= 0.0 && v == len * len
    ensures t.sqrt(v) == len
  {
    SqrtOfSquare(t, len);
  }

  lemma SquaredLength(len: real, c: real, s: real)
    requires c * c + s * s == 1.0
    ensures (len * c) * (len * c) + (len * s) * (len * s) == len * len
  {
    assert (len * c) * (len * c) == (len * len) * (c * c);
    assert (len * s) * (len * s) == (len * len) * (s * s);
    assert (len * len) * (c * c) + (len * len) * (s * s) == (len * len) * (c * c + s * s);
  }

  lemma ScaledStep(k: real, c: real, r: real)
    requires r > 0.0
    ensures k * (c / r) == k / r * c
  {
    var q, u := c / r, k / r;
    assert q * r == c && u * r == k;
    assert (k * q) * r == k * c;
    assert (u * c) * r == k * c;
    var e := k * q - u * c;
    assert e * r == (k * q) * r - (u * c) * r;
    assert e <= 0.0 && e >= 0.0;
  }

  /** The squared Euclidean distance between (x1, y1) and (x2, y2). */
  function SquaredDistance(x1: real, x2: real, y1: real, y2: real): real {
    (x2 - x1) * (x2 - x1) + (y2 - y1) * (y2 - y1)
  }

  /** The straight-line distance is never negative, and zero from a point to itself. */
  lemma DistanceFacts(t: Trig, x1: real, x2: real, y1: real, y2: real)
    ensures TrigValid(t) ==> t.sqrt(SquaredDistance(x1, x2, y1, y2)) >= 0.0
    ensures TrigValid(t) && x1 == x2 && y1 == y2 ==> t.sqrt(SquaredDistance(x1, x2, y1, y2)) == 0.0
  {
    if TrigValid(t) {
      var v := SquaredDistance(x1, x2, y1, y2);
      assert (x2 - x1) * (x2 - x1) >= 0.0 && (y2 - y1) * (y2 - y1) >= 0.0;
      assert SquareRoot(t.sqrt(v), v);
      if x1 == x2 && y1 == y2 {
        SqrtOfSquare(t, 0.0);
        assert v == 0.0 * 0.0;
      }
    }
  }

  /** k steps of (c, s) / rate, for a unit direction (c, s), cover a squared
      straight-line distance of (k / rate) squared. */
  lemma SquaredMarchLength(x0: real, y0: real, c: real, s: real, rate: real, k: nat)
    requires UnitDirection(c, s) && rate >= 1.0
    ensures SquaredDistance(x0, Advance(x0, c / rate, k), y0, Advance(y0, s / rate, k))
            == (k as real / rate) * (k as real / rate)
  {
    AdvanceIsLinear(x0, c / rate, k);
    AdvanceIsLinear(y0, s / rate, k);
    ScaledStep(k as real, c, rate);
    ScaledStep(k as real, s, rate);
    SquaredLength(k as real / rate, c, s);
  }

  /** k steps of the march along a ray cover a straight-line distance of k / rate. */
  lemma MarchLength(t: Trig, x0: real, y0: real, angle: real, rate: real, k: nat)
    requires TrigValid(t) && rate >= 1.0
    ensures t.sqrt(SquaredDistance(x0, Advance(x0, t.cos(angle) / rate, k), y0, Advance(y0, t.sin(angle) / rate, k)))
            == k as real / rate
  {
    assert UnitDirection(t.cos(angle), t.sin(angle));
    SquaredMarchLength(x0, y0, t.cos(angle), t.sin(angle), rate, k);
    var len := k as real / rate;
    assert len * rate == k as real;
    RootOfSquare(t, SquaredDistance(x0, Advance(x0, t.cos(angle) / rate, k), y0, Advance(y0, t.sin(angle) / rate, k)), len);
  }

  /** Spreading a view angle over w columns: w columns span the whole angle and
      half of them span half of it. */
  lemma ColumnSpan(w: nat, v: real)
    ensures w > 0 ==> w as real * (v / w as real) == v
    ensures w > 0 ==> (w / 2) as real * (v / w as real) == v / 2.0 || w % 2 == 1
  {
    if w > 0 {
      var q := v / w as real;
      assert q * w as real == v;
      if w % 2 == 0 {
        assert (w / 2) as real * 2.0 == w as real;
        assert (w / 2) as real * q * 2.0 == v;
      }
    }
  }

  class Engine {
    const width: nat
    const height: nat
    const halfHeight: NonNegative
    const level: Grid
    var cameraAngle: real
    var cameraX: real
    var cameraY: real
    var prevCameraAngle: Option<real>
    var prevCameraX: Option<real>
    var prevCameraY: Option<real>
    const viewAngle: real
    const halfViewAngle: real
    const rate: real
    const rayStep: real
    const velocity: real
    const rotation: real
    const trig: Trig
    const halfWallHeights: array<Height>
    /** Every buffer handed to the renderer, oldest first. */
    ghost var drawn: seq<seq<Height>>

    /** The engine's invariant: the level is well formed, the camera stands in a
        cell off the outer ring, the derived constants agree with the
        configuration, and a step (of a move or of the march) is at most one cell. */
    ghost predicate Valid()
      reads this
    {
      WellFormed(level) && Interior(level, cameraX, cameraY) &&
      halfHeight == height as real / 2.0 &&
      halfViewAngle == viewAngle / 2.0 &&
      rayStep == (if width == 0 then 0.0 else viewAngle / width as real) &&
      rate >= 1.0 && velocity >= 1.0 && TrigValid(trig) &&
      halfWallHeights.Length == width
    }

    /** The camera state held in the fields, as a value. */
    function Pose(): Camera.Pose
      reads this
    {
      Camera.Pose(cameraAngle, cameraX, cameraY, prevCameraAngle, prevCameraX, prevCameraY)
    }

    /** The shouldRender getter (with y compared against its own snapshot). */
    function ShouldRender(): (r: bool)
      reads this
      ensures r <==> Camera.Snapshot(Pose()) != Pose()
    {
      Camera.ShouldRender(Pose())
    }

    constructor (width: nat, height: nat, level: Grid, cameraAngle: real, cameraX: real, cameraY: real,
                 viewAngle: real, rate: real, velocity: real, rotation: real, trig: Trig)
      requires WellFormed(level) && Interior(level, cameraX, cameraY)
      requires rate >= 1.0 && velocity >= 1.0 && TrigValid(trig)
      ensures Valid() && fresh(halfWallHeights)
      ensures this.width == width && this.height == height && this.level == level
      ensures this.viewAngle == viewAngle && this.rate == rate && this.velocity == velocity
      ensures this.rotation == rotation && this.trig == trig
      ensures Pose() == Camera.Initial(cameraAngle, cameraX, cameraY)
      ensures forall i :: 0 <= i < width ==> halfWallHeights[i] == Finite(0)
      ensures drawn == []
    {
      this.width := width;
      this.height := height;
      this.halfHeight := height as real / 2.0;
      this.level := level;
      this.cameraAngle := cameraAngle;
      this.cameraX := cameraX;
      this.cameraY := cameraY;
      this.prevCameraAngle := None;
      this.prevCameraX := None;
      this.prevCameraY := None;
      this.viewAngle := viewAngle;
      this.halfViewAngle := viewAngle / 2.0;
      this.rate := rate;
      this.rayStep := if width == 0 then 0.0 else viewAngle / width as real;
      this.velocity := velocity;
      this.rotation := rotation;
      this.trig := trig;
      this.halfWallHeights := new Height[width](_ => Finite(0));
      this.drawn := [];
    }

    /** calculateCoordinatesDelta: the displacement of one move along the heading,
        at most one cell per axis and never zero. */
    function CoordinatesDelta(): (d: (real, real))
      reads this
      requires Valid()
      ensures ShortStep(d.0, d.1) && Moving(d.0, d.1)
    {
      DirectionStep(trig, cameraAngle, velocity);
      (trig.cos(cameraAngle) / velocity, trig.sin(cameraAngle) / velocity)
    }

    /** handleControls: dispatch one key code; any other key changes nothing. */
    method HandleControls(button: string)
      requires Valid()
      modifies this
      ensures Valid() && drawn == old(drawn)
      ensures match Camera.KeyCommand(button)
        case None => Pose() == old(Pose())
        case Some(c) => Pose() == Camera.Apply(old(Pose()), level, c, old(CoordinatesDelta()), rotation)
    {
      match Camera.KeyCommand(button)
      case None =>
      case Some(Forward) => MoveForward();
      case Some(Back) => MoveBack();
      case Some(Left) => RotateLeft();
      case Some(Right) => RotateRight();
    }

    method MoveForward()
      requires Valid()
      modifies this
      ensures Valid() && drawn == old(drawn)
      ensures Pose() == Camera.MoveForward(old(Pose()), level, old(CoordinatesDelta()))
    {
      var (deltaX, deltaY) := CoordinatesDelta();
      var nextX := cameraX + deltaX;
      var nextY := cameraY + deltaY;
      StepFromInterior(level, cameraX, cameraY, deltaX, deltaY);
      if !Blocked(level, nextX, nextY) {
        prevCameraX := Some(cameraX);
        prevCameraY := Some(cameraY);
        cameraX := nextX;
        cameraY := nextY;
      }
    }

    method MoveBack()
      requires Valid()
      modifies this
      ensures Valid() && drawn == old(drawn)
      ensures Pose() == Camera.MoveBack(old(Pose()), level, old(CoordinatesDelta()))
    {
      var (deltaX, deltaY) := CoordinatesDelta();
      var nextX := cameraX - deltaX;
      var nextY := cameraY - deltaY;
      StepFromInterior(level, cameraX, cameraY, -deltaX, -deltaY);
      if !Blocked(level, nextX, nextY) {
        prevCameraX := Some(cameraX);
        prevCameraY := Some(cameraY);
        cameraX := nextX;
        cameraY := nextY;
      }
    }

    method RotateLeft()
      requires Valid()
      modifies this
      ensures Valid() && drawn == old(drawn)
      ensures Pose() == Camera.RotateLeft(old(Pose()), rotation)
    {
      prevCameraAngle := Some(cameraAngle);
      cameraAngle := cameraAngle - rotation;
    }

    method RotateRight()
      requires Valid()
      modifies this
      ensures Valid() && drawn == old(drawn)
      ensures Pose() == Camera.RotateRight(old(Pose()), rotation)
    {
      prevCameraAngle := Some(cameraAngle);
      cameraAngle := cameraAngle + rotation;
    }

    /** The per-step displacement of the march along a ray at the given angle. */
    function MarchStep(angle: real): (s: (real, real))
      reads this
      requires Valid()
      ensures ShortStep(s.0, s.1) && Moving(s.0, s.1)
    {
      DirectionStep(trig, angle, rate);
      (trig.cos(angle) / rate, trig.sin(angle) / rate)
    }

    /** calculateDistance: the Euclidean distance between the two points times the
        cosine of the ray's angle from the heading (fisheye correction). */
    function CalculateDistance(x1: real, x2: real, y1: real, y2: real, angle: real): (r: real)
      ensures TrigValid(trig) && x1 == x2 && y1 == y2 ==> r == 0.0
      ensures TrigValid(trig) && trig.cos(angle) >= 0.0 ==> r >= 0.0
    {
      DistanceFacts(trig, x1, x2, y1, y2);
      trig.sqrt(SquaredDistance(x1, x2, y1, y2)) * trig.cos(angle)
    }

    /** What castRay returns for a ray at the given angle: the corrected distance
        from the camera to the first step point that lies in a wall. */
    function RayDistance(angle: real): (r: real)
      reads this
      requires Valid()
      ensures Blocked(level, cameraX, cameraY) ==> r == 0.0
      ensures trig.cos(angle - cameraAngle) >= 0.0 ==> r >= 0.0
    {
      var s := MarchStep(angle);
      var k := MarchSteps(level, cameraX, cameraY, s.0, s.1);
      CalculateDistance(cameraX, Advance(cameraX, s.0, k), cameraY, Advance(cameraY, s.1, k), angle - cameraAngle)
    }

    /** The angle of the ray cast for screen column i. */
    function ColumnAngle(i: int): (r: real)
      reads this
      ensures i == 0 ==> r == cameraAngle - halfViewAngle
      ensures Valid() && width > 0 && i == width ==> r == cameraAngle + halfViewAngle
      ensures Valid() && width > 0 && 2 * i == width ==> r == cameraAngle
    {
      ColumnSpan(width, viewAngle);
      cameraAngle - halfViewAngle + i as real * rayStep
    }

    /** The half-wall height castRays stores for screen column i. */
    function ColumnHeight(i: int): (r: Height)
      reads this
      requires Valid()
      ensures Blocked(level, cameraX, cameraY) ==> r.NonFinite?
    {
      CalculateHalfWallHeight(RayDistance(ColumnAngle(i)))
    }

    /** calculateHalfWallHeight: floor(halfHeight / distance). A wall farther away
        gets a non-negative height no larger than halfHeight / distance and the
        largest such integer; a zero distance gives a non-finite value. */
    function CalculateHalfWallHeight(distance: real): (r: Height)
      ensures r.NonFinite? <==> distance == 0.0
      ensures r.Finite? ==> r.n as real <= halfHeight / distance < r.n as real + 1.0
      ensures distance > 0.0 && r.Finite? ==> r.n >= 0
    {
      if distance == 0.0 then NonFinite else Finite((halfHeight / distance).Floor)
    }

    /** A farther wall is never drawn taller than a nearer one. */
    lemma HalfWallHeightMonotone(d1: real, d2: real)
      requires 0.0 < d1 <= d2
      ensures CalculateHalfWallHeight(d2).n <= CalculateHalfWallHeight(d1).n
    {
      var a, b := halfHeight / d2, halfHeight / d1;
      assert a * d2 == halfHeight && b * d1 == halfHeight && a >= 0.0;
      assert a * d1 <= a * d2;
      CancelPositive(a, b, d1);
    }

    /** castRay: march from the camera until the point stands in a wall, then
        measure the corrected distance to it. */
    method CastRay(angle: real) returns (distance: real)
      requires Valid()
      ensures distance == RayDistance(angle)
    {
      ghost var s := MarchStep(angle);
      var x := cameraX;
      var y := cameraY;
      var collided := Blocked(level, x, y);
      ghost var k: nat := 0;
      while !collided
        invariant InBounds(level, x, y) && collided == Blocked(level, x, y)
        invariant x == Advance(cameraX, s.0, k) && y == Advance(cameraY, s.1, k)
        invariant MarchSteps(level, cameraX, cameraY, s.0, s.1) == k + MarchSteps(level, x, y, s.0, s.1)
        decreases Measure(level, x, y, s.0, s.1)
      {
        MeasureDecreases(level, x, y, s.0, s.1);
        x := x + trig.cos(angle) / rate;
        y := y + trig.sin(angle) / rate;
        k := k + 1;
        collided := Blocked(level, x, y);
      }
      distance := CalculateDistance(cameraX, x, cameraY, y, angle - cameraAngle);
    }

    /** castRays: overwrite every entry of the buffer, entry i with the height of
        the ray for column i; the buffer keeps its length. */
    method CastRays()
      requires Valid()
      modifies halfWallHeights
      ensures forall i :: 0 <= i < width ==> halfWallHeights[i] == old(ColumnHeight(i))
    {
      var left := cameraAngle - halfViewAngle;
      for rayIndex := 0 to width
        invariant Valid() && Pose() == old(Pose())
        invariant forall i :: 0 <= i < rayIndex ==> halfWallHeights[i] == old(ColumnHeight(i))
      {
        var rayAngle := left + rayIndex as real * rayStep;
        assert rayAngle == old(ColumnAngle(rayIndex));
        var distance := CastRay(rayAngle);
        halfWallHeights[rayIndex] := CalculateHalfWallHeight(distance);
        assert halfWallHeights[rayIndex] == old(ColumnHeight(rayIndex));
      }
    }

    /** One frame of render: when a render is due, recompute the buffer from the
        current pose, hand it to the renderer, and snapshot the pose; otherwise do
        nothing. Either way no render is due afterwards. */
    method Render()
      requires Valid()
      modifies this, halfWallHeights
      ensures Valid() && !ShouldRender()
      ensures old(ShouldRender()) ==>
        Pose() == Camera.Snapshot(old(Pose())) &&
        (forall i :: 0 <= i < width ==> halfWallHeights[i] == old(ColumnHeight(i))) &&
        drawn == old(drawn) + [halfWallHeights[..]]
      ensures !old(ShouldRender()) ==>
        Pose() == old(Pose()) && drawn == old(drawn) && halfWallHeights[..] == old(halfWallHeights[..])
    {
      if ShouldRender() {
        CastRays();
        drawn := drawn + [halfWallHeights[..]];
        prevCameraAngle := Some(cameraAngle);
        prevCameraX := Some(cameraX);
        prevCameraY := Some(cameraY);
      }
    }

    /** The raw length of a ray is its number of steps divided by the rate, so
        castRay's result is that length times the fisheye factor; in particular a
        camera standing in a wall gets distance zero. */
    lemma RayDistanceIsMarchLength(angle: real)
      requires Valid()
      ensures var s := MarchStep(angle);
        var k := MarchSteps(level, cameraX, cameraY, s.0, s.1);
        RayDistance(angle) == k as real / rate * trig.cos(angle - cameraAngle)
    ensures Blocked(level, cameraX, cameraY) ==> RayDistance(angle) == 0.0
    {
      var s := MarchStep(angle);
      var k := MarchSteps(level, cameraX, cameraY, s.0, s.1);
      MarchLength(trig, cameraX, cameraY, angle, rate, k);
    }
  }
}
