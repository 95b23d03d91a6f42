/**
 * Camera state as a value: the current pose and, for each coordinate, the value
 * it had before the last command that changed it or at the last render,
 * whichever came later. The engine's fields hold exactly this; the functions
 * here say what each command and each render does to it.
 */
module Camera {
  import opened Wrappers
  import opened Level

  /** Heading in degrees (never normalised), position in cells, and the snapshot
      field of each coordinate; each snapshot field is None until first set. */
  datatype Pose = Pose(angle: real, x: real, y: real,
                       prevAngle: Option<real>, prevX: Option<real>, prevY: Option<real>)

  /** The pose the engine is constructed with: nothing has been snapshotted yet. */
  function Initial(angle: real, x: real, y: real): (r: Pose)
    ensures r.angle == angle && r.x == x && r.y == y
    ensures r.prevAngle.None? && r.prevX.None? && r.prevY.None?
  {
    Pose(angle, x, y, None, None, None)
  }

  /** The collision gate shared by both moves: either the camera goes to
      (nx, ny) and the previous position is recorded, or nothing changes. */
  function Moved(p: Pose, g: Grid, nx: real, ny: real): (r: Pose)
    requires WellFormed(g) && Interior(g, p.x, p.y) && InBounds(g, nx, ny)
    ensures Interior(g, r.x, r.y)
  {
    if Blocked(g, nx, ny) then p
    else p.(x := nx, y := ny, prevX := Some(p.x), prevY := Some(p.y))
  }

  /** moveForward with the displacement d = (deltaX, deltaY) of the current heading. */
  function MoveForward(p: Pose, g: Grid, d: (real, real)): (r: Pose)
    requires WellFormed(g) && Interior(g, p.x, p.y) && ShortStep(d.0, d.1)
    ensures Interior(g, r.x, r.y)
  {
    StepFromInterior(g, p.x, p.y, d.0, d.1);
    Moved(p, g, p.x + d.0, p.y + d.1)
  }

  /** moveBack: the same gate with the displacement subtracted. */
  function MoveBack(p: Pose, g: Grid, d: (real, real)): (r: Pose)
    requires WellFormed(g) && Interior(g, p.x, p.y) && ShortStep(d.0, d.1)
    ensures Interior(g, r.x, r.y)
  {
    StepFromInterior(g, p.x, p.y, -d.0, -d.1);
    Moved(p, g, p.x - d.0, p.y - d.1)
  }

  /** rotateLeft: the heading drops by the rotation step and the old heading is
      recorded; the position and its snapshot are left alone. */
  function RotateLeft(p: Pose, rotation: real): (r: Pose)
    ensures r.angle + rotation == p.angle && r.prevAngle == Some(p.angle)
    ensures r.(angle := p.angle, prevAngle := p.prevAngle) == p
  {
    p.(angle := p.angle - rotation, prevAngle := Some(p.angle))
  }

  /** rotateRight: the heading grows by the rotation step and the old heading is
      recorded; the position and its snapshot are left alone. */
  function RotateRight(p: Pose, rotation: real): (r: Pose)
    ensures r.angle - rotation == p.angle && r.prevAngle == Some(p.angle)
    ensures r.(angle := p.angle, prevAngle := p.prevAngle) == p
  {
    p.(angle := p.angle + rotation, prevAngle := Some(p.angle))
  }

  /** What render does to the pose after drawing: the snapshot catches up with the
      pose, which itself is kept. */
  function Snapshot(p: Pose): (r: Pose)
    ensures r.prevAngle == Some(r.angle) && r.prevX == Some(r.x) && r.prevY == Some(r.y)
    ensures r.(prevAngle := p.prevAngle, prevX := p.prevX, prevY := p.prevY) == p
  {
    p.(prevAngle := Some(p.angle), prevX := Some(p.x), prevY := Some(p.y))
  }

  /** shouldRender, with each coordinate compared against its own snapshot: a
      render is due exactly when taking the snapshot would change the pose. */
  function ShouldRender(p: Pose): (r: bool)
    ensures r <==> Snapshot(p) != p
  {
    Some(p.angle) != p.prevAngle || Some(p.x) != p.prevX || Some(p.y) != p.prevY
  }

  /** shouldRender as the source writes it: the last clause compares y with itself,
      which is never true for a real number. It never asks for a render the
      corrected test would not, and when it stays silent it misses exactly the
      moves that changed y alone. */
  function ShouldRenderAsWritten(p: Pose): (r: bool)
    ensures r ==> ShouldRender(p)
    ensures !r ==> (ShouldRender(p) <==> p.prevY != Some(p.y))
  {
    Some(p.angle) != p.prevAngle || Some(p.x) != p.prevX || p.y != p.y
  }

  /** The four discrete input commands. */
  datatype Command = Forward | Back | Left | Right

  /** handleControls' key dispatch; every other key code is ignored. */
  function KeyCommand(button: string): (c: Option<Command>)
    ensures c == Some(Forward) <==> button == "KeyW"
    ensures c == Some(Back) <==> button == "KeyS"
    ensures c == Some(Left) <==> button == "KeyA"
    ensures c == Some(Right) <==> button == "KeyD"
  {
    if button == "KeyW" then Some(Forward)
    else if button == "KeyS" then Some(Back)
    else if button == "KeyA" then Some(Left)
    else if button == "KeyD" then Some(Right)
    else None
  }

  /** The effect of one command, given the displacement for the current heading. */
  function Apply(p: Pose, g: Grid, c: Command, d: (real, real), rotation: real): (r: Pose)
    requires WellFormed(g) && Interior(g, p.x, p.y) && ShortStep(d.0, d.1)
    ensures Interior(g, r.x, r.y)
  {
    match c
    case Forward => MoveForward(p, g, d)
    case Back => MoveBack(p, g, d)
    case Left => RotateLeft(p, rotation)
    case Right => RotateRight(p, rotation)
  }

  /** moveForward is all-or-nothing: a wall at the candidate cell leaves the whole
      pose as it was; otherwise the position advances by d and the old position
      becomes the snapshot. The heading and its snapshot are never touched. */
  lemma ForwardIsAllOrNothing(p: Pose, g: Grid, d: (real, real))
    requires WellFormed(g) && Interior(g, p.x, p.y) && ShortStep(d.0, d.1)
    ensures InBounds(g, p.x + d.0, p.y + d.1)
    ensures Blocked(g, p.x + d.0, p.y + d.1) ==> MoveForward(p, g, d) == p
    ensures !Blocked(g, p.x + d.0, p.y + d.1) ==>
      var r := MoveForward(p, g, d);
      r.x == p.x + d.0 && r.y == p.y + d.1 && r.prevX == Some(p.x) && r.prevY == Some(p.y)
    ensures MoveForward(p, g, d).angle == p.angle && MoveForward(p, g, d).prevAngle == p.prevAngle
  {
  }

  /** moveBack is all-or-nothing in the same way, with d subtracted. */
  lemma BackIsAllOrNothing(p: Pose, g: Grid, d: (real, real))
    requires WellFormed(g) && Interior(g, p.x, p.y) && ShortStep(d.0, d.1)
    ensures InBounds(g, p.x - d.0, p.y - d.1)
    ensures Blocked(g, p.x - d.0, p.y - d.1) ==> MoveBack(p, g, d) == p
    ensures !Blocked(g, p.x - d.0, p.y - d.1) ==>
      var r := MoveBack(p, g, d);
      r.x == p.x - d.0 && r.y == p.y - d.1 && r.prevX == Some(p.x) && r.prevY == Some(p.y)
    ensures MoveBack(p, g, d).angle == p.angle && MoveBack(p, g, d).prevAngle == p.prevAngle
  {
  }

  /** A successful step forward from a free cell is undone by a step back with the
      same displacement (the heading, and so the displacement, is unchanged). */
  lemma ForwardThenBackReturns(p: Pose, g: Grid, d: (real, real))
    requires WellFormed(g) && Interior(g, p.x, p.y) && ShortStep(d.0, d.1)
    requires InBounds(g, p.x + d.0, p.y + d.1) && !Blocked(g, p.x + d.0, p.y + d.1)
    requires !Blocked(g, p.x, p.y)
    ensures var q := MoveBack(MoveForward(p, g, d), g, d);
      q.x == p.x && q.y == p.y && q.angle == p.angle &&
      q.prevX == Some(p.x + d.0) && q.prevY == Some(p.y + d.1)
  {
  }

  /** Turning left then right (or right then left) by the same step restores the
      heading exactly; each turn records the heading it started from, and neither
      touches the position or its snapshot. */
  lemma RotationRoundTrip(p: Pose, rotation: real)
    ensures RotateRight(RotateLeft(p, rotation), rotation).angle == p.angle
    ensures RotateLeft(RotateRight(p, rotation), rotation).angle == p.angle
    ensures RotateLeft(p, rotation).prevAngle == Some(p.angle)
    ensures RotateRight(p, rotation).prevAngle == Some(p.angle)
    ensures RotateRight(RotateLeft(p, rotation), rotation).prevAngle == Some(p.angle - rotation)
    ensures var l, r := RotateLeft(p, rotation), RotateRight(p, rotation);
      l.x == r.x == p.x && l.y == r.y == p.y && l.prevX == r.prevX == p.prevX && l.prevY == r.prevY == p.prevY
  {
  }

  /** Right after the snapshot no render is due, and the snapshot keeps the pose. */
  lemma SnapshotSilences(p: Pose)
    ensures !ShouldRender(Snapshot(p)) && !ShouldRenderAsWritten(Snapshot(p))
    ensures Snapshot(p).angle == p.angle && Snapshot(p).x == p.x && Snapshot(p).y == p.y
  {
  }

  /** A turn and its inverse after a render restore the rendered view, yet a
      render is due: each turn overwrites the heading's snapshot field, which
      ends up holding the intermediate heading. */
  lemma TurnBackRenders(p: Pose, rotation: real)
    requires !ShouldRender(p) && rotation != 0.0
    ensures var q := RotateRight(RotateLeft(p, rotation), rotation);
      q.angle == p.angle && q.x == p.x && q.y == p.y && ShouldRender(q) && q.prevAngle != p.prevAngle
  {
  }

  /** The first frame is always drawn, because the snapshot starts out unset. */
  lemma InitialPoseRenders(angle: real, x: real, y: real)
    ensures ShouldRender(Initial(angle, x, y)) && ShouldRenderAsWritten(Initial(angle, x, y))
  {
  }

  /** After a render, one command makes the next render due exactly when it
      changed the heading or the position. */
  lemma CommandAfterRenderIsDetected(p: Pose, g: Grid, c: Command, d: (real, real), rotation: real)
    requires WellFormed(g) && Interior(g, p.x, p.y) && ShortStep(d.0, d.1)
    requires !ShouldRender(p)
    ensures var q := Apply(p, g, c, d, rotation);
      ShouldRender(q) <==> (q.angle != p.angle || q.x != p.x || q.y != p.y)
  {
  }

  /** The source's check never looks at y: two poses that differ only in y and its
      snapshot are judged alike. */
  lemma AsWrittenIgnoresY(p: Pose, y: real, prevY: Option<real>)
    ensures ShouldRenderAsWritten(p.(y := y, prevY := prevY)) == ShouldRenderAsWritten(p)
  {
  }

  /** The defect made concrete: after a render, a successful forward move whose
      displacement is purely along y (heading exactly 90 degrees in exact
      arithmetic) is not noticed by the source's check, but is by the corrected one. */
  lemma AsWrittenMissesYOnlyMove(p: Pose, g: Grid, d: (real, real))
    requires WellFormed(g) && Interior(g, p.x, p.y) && ShortStep(d.0, d.1)
    requires !ShouldRender(p) && d.0 == 0.0 && d.1 != 0.0
    requires InBounds(g, p.x, p.y + d.1) && !Blocked(g, p.x, p.y + d.1)
    ensures !ShouldRenderAsWritten(MoveForward(p, g, d))
    ensures ShouldRender(MoveForward(p, g, d))
  {
  }
}
