/** The player-controlled airship of the 3D demo: yaw and pitch steering, the
    spherical-coordinate step, and the wall, ceiling and floor bounces.
    `Tick` is the specification of one call of `Airship.update`; the class
    `Airship` is the object the source mutates in place. */
module Flight {
  import opened Geometry

  const ANGLE_Z_SPEED: real := 0.1
  const ANGLE_Y_LIMIT: real := PI / 10.0
  const ANGLE_Y_SPEED: real := 0.02
  const DELTA_SPEED: real := 0.1
  const MOVEMENT_LIMIT: real := 25.0
  const Z_FLOOR: real := -2.0
  const Z_CEILING: real := 5.0
  /** How far a wall bounce pushes the offending axis back inward. */
  const WALL_NUDGE: real := 2.0
  /** How far a ceiling or floor bounce pushes `z` back inward. */
  const HEIGHT_NUDGE: real := 0.2

  /** The fields the key and mouse handlers write. */
  datatype Controls = Controls(control: bool, angleZMultiplier: int, angleYMultiplier: int, direction: int)

  /** The fields `update` writes: the two angles, the aim taken from them,
      the step length and the position `translateVector`. */
  datatype ShipState = ShipState(angleZ: real, angleY: real, theta: real, phi: real, delta: real, pos: Vec3)

  const INITIAL_STATE: ShipState := ShipState(0.0, 0.0, 0.0, 0.0, 0.0, Vec3(0.0, 0.0, 0.0))
  const INITIAL_CONTROLS: Controls := Controls(false, 0, 0, 0)

  /** The soft pitch clamp: the pitch moves freely strictly inside the limits,
      moves beyond a limit only back toward the inside, and is frozen at a limit. */
  function Pitch(angleY: real, angleYMultiplier: int): (r: real)
    ensures -ANGLE_Y_LIMIT < angleY < ANGLE_Y_LIMIT ==> r == angleY + ANGLE_Y_SPEED * angleYMultiplier as real
    ensures angleY > ANGLE_Y_LIMIT ==> (r != angleY <==> angleYMultiplier < 0)
    ensures angleY < -ANGLE_Y_LIMIT ==> (r != angleY <==> angleYMultiplier > 0)
    ensures angleY == ANGLE_Y_LIMIT || angleY == -ANGLE_Y_LIMIT ==> r == angleY
    ensures r == angleY || r == angleY + ANGLE_Y_SPEED * angleYMultiplier as real
  {
    if (angleY < ANGLE_Y_LIMIT && angleY > -ANGLE_Y_LIMIT)
       || (angleY > ANGLE_Y_LIMIT && angleYMultiplier < 0)
       || (angleY < -ANGLE_Y_LIMIT && angleYMultiplier > 0)
    then angleY + ANGLE_Y_SPEED * angleYMultiplier as real
    else angleY
  }

  /** The first half of `update`: yaw accumulates, the pitch is soft-clamped,
      the aim is taken from the new angles and the step length from the direction. */
  function Steer(s: ShipState, c: Controls): (r: ShipState)
    ensures r.angleZ == s.angleZ + ANGLE_Z_SPEED * c.angleZMultiplier as real
    ensures r.angleY == Pitch(s.angleY, c.angleYMultiplier)
    ensures r.theta == r.angleY && r.phi == r.angleZ
    ensures r.delta == c.direction as real * DELTA_SPEED
    ensures r.pos == s.pos
  {
    var angleZ := s.angleZ + ANGLE_Z_SPEED * c.angleZMultiplier as real;
    var angleY := Pitch(s.angleY, c.angleYMultiplier);
    ShipState(angleZ, angleY, angleY, angleZ, c.direction as real * DELTA_SPEED, s.pos)
  }

  /** The step of length `delta` in spherical coordinates, azimuth `phi` and
      elevation `theta`, that `updateCoords` adds. */
  function Displacement(s: ShipState, t: Trig): (r: Vec3)
    ensures s.delta == 0.0 ==> r == Vec3(0.0, 0.0, 0.0)
    ensures t.sin(s.theta) == 0.0 ==> r.z == 0.0
  {
    Spherical(s.delta, t.sin(s.theta), t.cos(s.theta), t.sin(s.phi), t.cos(s.phi))
  }

  /** `updateCoords(X, Y, Z)`: the flagged components take their part of the
      step; the others, and every other field, keep their value. */
  function Coords(s: ShipState, t: Trig, X: bool, Y: bool, Z: bool): (p: Vec3)
    ensures p.x == if X then s.pos.x + Displacement(s, t).x else s.pos.x
    ensures p.y == if Y then s.pos.y + Displacement(s, t).y else s.pos.y
    ensures p.z == if Z then s.pos.z + Displacement(s, t).z else s.pos.z
  {
    var d := Displacement(s, t);
    Vec3(if X then s.pos.x + d.x else s.pos.x,
         if Y then s.pos.y + d.y else s.pos.y,
         if Z then s.pos.z + d.z else s.pos.z)
  }

  predicate InsideWalls(p: Vec3) {
    -MOVEMENT_LIMIT < p.x < MOVEMENT_LIMIT && -MOVEMENT_LIMIT < p.y < MOVEMENT_LIMIT
  }

  predicate BetweenFloorAndCeiling(p: Vec3) {
    Z_FLOOR < p.z < Z_CEILING
  }

  /** Where a wall bounce leaves one horizontal coordinate. */
  function Nudge(v: real): real {
    if v > MOVEMENT_LIMIT then v - WALL_NUDGE
    else if v < -MOVEMENT_LIMIT then v + WALL_NUDGE
    else v
  }

  /** 1 when the coordinate is strictly beyond a wall, else 0. */
  function Beyond(v: real): int {
    if v > MOVEMENT_LIMIT || v < -MOVEMENT_LIMIT then 1 else 0
  }

  /** The four border checks of `update`, run one after the other on the
      updated values; per axis, they amount to one nudge and one half turn. */
  function WallBounce(s: ShipState): (r: ShipState)
    ensures r.pos == Vec3(Nudge(s.pos.x), Nudge(s.pos.y), s.pos.z)
    ensures r.angleZ == s.angleZ + PI * (Beyond(s.pos.x) + Beyond(s.pos.y)) as real
    ensures r.angleY == s.angleY && r.theta == s.theta && r.phi == s.phi && r.delta == s.delta
  {
    var s1 := if s.pos.x > MOVEMENT_LIMIT
      then s.(angleZ := s.angleZ + PI, pos := s.pos.(x := s.pos.x - WALL_NUDGE)) else s;
    var s2 := if s1.pos.x < -MOVEMENT_LIMIT
      then s1.(angleZ := s1.angleZ + PI, pos := s1.pos.(x := s1.pos.x + WALL_NUDGE)) else s1;
    var s3 := if s2.pos.y > MOVEMENT_LIMIT
      then s2.(angleZ := s2.angleZ + PI, pos := s2.pos.(y := s2.pos.y - WALL_NUDGE)) else s2;
    var s4 := if s3.pos.y < -MOVEMENT_LIMIT
      then s3.(angleZ := s3.angleZ + PI, pos := s3.pos.(y := s3.pos.y + WALL_NUDGE)) else s3;
    s4
  }

  /** The horizontal part of `update`: move in x and y while inside the walls,
      otherwise bounce without moving. */
  function Horizontal(s: ShipState, t: Trig): (r: ShipState)
    ensures InsideWalls(s.pos) ==> r == s.(pos := s.pos.(x := s.pos.x + Displacement(s, t).x,
                                                          y := s.pos.y + Displacement(s, t).y))
    ensures !InsideWalls(s.pos) ==> r == WallBounce(s)
    ensures r.pos.z == s.pos.z && r.angleY == s.angleY
    ensures r.theta == s.theta && r.phi == s.phi && r.delta == s.delta
  {
    if InsideWalls(s.pos) then s.(pos := Coords(s, t, true, true, false)) else WallBounce(s)
  }

  /** The vertical part of `update`: move in z strictly between floor and
      ceiling; above the ceiling negate the pitch, below the floor add twice its
      magnitude; either bounce turns half round and pushes z back by 0.2. */
  function Vertical(s: ShipState, t: Trig): (r: ShipState)
    ensures BetweenFloorAndCeiling(s.pos) ==> r == s.(pos := s.pos.(z := s.pos.z + Displacement(s, t).z))
    ensures s.pos.z > Z_CEILING ==>
      r == s.(angleY := -s.angleY, angleZ := s.angleZ + PI, pos := s.pos.(z := s.pos.z - HEIGHT_NUDGE))
    ensures s.pos.z < Z_FLOOR ==>
      r == s.(angleY := s.angleY + 2.0 * Abs(s.angleY), angleZ := s.angleZ + PI, pos := s.pos.(z := s.pos.z + HEIGHT_NUDGE))
    ensures s.pos.z == Z_CEILING || s.pos.z == Z_FLOOR ==> r == s
  {
    if BetweenFloorAndCeiling(s.pos) then s.(pos := Coords(s, t, false, false, true))
    else
      var s1 := if s.pos.z > Z_CEILING then CeilingBounce(s) else s;
      if s1.pos.z < Z_FLOOR then FloorBounce(s1) else s1
  }

  /** The ceiling check of `update`: `angleY -= angleY * 2` negates the pitch,
      the yaw turns half round and z goes down by 0.2; nothing else changes. */
  function CeilingBounce(s: ShipState): (r: ShipState)
    ensures r.angleY == -s.angleY && Abs(r.angleY) == Abs(s.angleY)
    ensures r.angleZ == s.angleZ + PI
    ensures r.pos == Vec3(s.pos.x, s.pos.y, s.pos.z - HEIGHT_NUDGE)
    ensures r.theta == s.theta && r.phi == s.phi && r.delta == s.delta
  {
    s.(angleY := s.angleY - s.angleY * 2.0, angleZ := s.angleZ + PI, pos := s.pos.(z := s.pos.z - HEIGHT_NUDGE))
  }

  /** The floor check of `update`: `angleY += abs(angleY) * 2` leaves the pitch
      non-negative (a downward pitch is mirrored, an upward one tripled), the
      yaw turns half round and z goes up by 0.2; nothing else changes. */
  function FloorBounce(s: ShipState): (r: ShipState)
    ensures r.angleY >= 0.0
    ensures s.angleY <= 0.0 ==> r.angleY == -s.angleY
    ensures s.angleY > 0.0 ==> r.angleY == 3.0 * s.angleY
    ensures r.angleZ == s.angleZ + PI
    ensures r.pos == Vec3(s.pos.x, s.pos.y, s.pos.z + HEIGHT_NUDGE)
    ensures r.theta == s.theta && r.phi == s.phi && r.delta == s.delta
  {
    s.(angleY := s.angleY + Abs(s.angleY) * 2.0, angleZ := s.angleZ + PI, pos := s.pos.(z := s.pos.z + HEIGHT_NUDGE))
  }

  /** One call of `Airship.update`. The yaw input is added to the yaw first,
      then one half turn per bounce; the aim and step length come from the
      angles before any bounce. */
  function Tick(s: ShipState, c: Controls, t: Trig): (r: ShipState)
    ensures r.angleZ == s.angleZ + ANGLE_Z_SPEED * c.angleZMultiplier as real + PI * HalfTurns(s.pos) as real
    ensures r.phi == s.angleZ + ANGLE_Z_SPEED * c.angleZMultiplier as real
    ensures r.theta == Pitch(s.angleY, c.angleYMultiplier)
    ensures r.delta == c.direction as real * DELTA_SPEED
  {
    var h := Horizontal(Steer(s, c), t);
    assert h.pos.z == s.pos.z;
    Vertical(h, t)
  }

  /** The ship after one tick per element of `inputs`, oldest first: the last
      input is applied last, to the ship the earlier inputs left. */
  function Run(s: ShipState, inputs: seq<Controls>, t: Trig): (r: ShipState)
    ensures inputs == [] ==> r == s
    ensures inputs != [] ==> r == Tick(Run(s, inputs[..|inputs| - 1], t), inputs[|inputs| - 1], t)
    decreases |inputs|
  {
    if inputs == [] then s
    else
      var rest := Run(Tick(s, inputs[0], t), inputs[1..], t);
      assert inputs[1..] != [] ==> inputs[1..][..|inputs[1..]| - 1] == inputs[..|inputs| - 1][1..];
      rest
  }

  /** How many half turns the bounces of one tick add to the yaw. */
  function HalfTurns(p: Vec3): int {
    (if InsideWalls(p) then 0 else Beyond(p.x) + Beyond(p.y))
    + (if p.z > Z_CEILING || p.z < Z_FLOOR then 1 else 0)
  }

  /** Strictly inside the walls and between floor and ceiling, a tick moves the
      ship by exactly one step and bounces nothing. */
  lemma TickInsideMoves(s: ShipState, c: Controls, t: Trig)
    requires InsideWalls(s.pos) && BetweenFloorAndCeiling(s.pos)
    ensures Tick(s, c, t).pos == s.pos.Plus(Displacement(Steer(s, c), t))
    ensures Tick(s, c, t).angleZ == Steer(s, c).angleZ && Tick(s, c, t).angleY == Steer(s, c).angleY
  {
  }

  /** With the Pythagorean identity, the step has length |delta|: the spherical
      coordinates of `updateCoords` move the ship exactly as far as its speed. */
  lemma DisplacementLength(s: ShipState, t: Trig)
    requires Pythagorean(t)
    ensures var d := Displacement(s, t); d.x * d.x + d.y * d.y + d.z * d.z == s.delta * s.delta
  {
    SphericalLength(s.delta, t.sin(s.theta), t.cos(s.theta), t.sin(s.phi), t.cos(s.phi));
  }

  /** With bounded sine and cosine, each component of a step is at most |delta|. */
  lemma DisplacementBounded(s: ShipState, t: Trig)
    requires Bounded(t)
    ensures Abs(Displacement(s, t).x) <= Abs(s.delta)
    ensures Abs(Displacement(s, t).y) <= Abs(s.delta)
    ensures Abs(Displacement(s, t).z) <= Abs(s.delta)
  {
    SphericalBounded(s.delta, t.sin(s.theta), t.cos(s.theta), t.sin(s.phi), t.cos(s.phi));
  }

  /** The box the ship can never leave: the walls, floor and ceiling widened by
      one step of length `DELTA_SPEED`. */
  predicate InArena(p: Vec3) {
    && -MOVEMENT_LIMIT - DELTA_SPEED < p.x < MOVEMENT_LIMIT + DELTA_SPEED
    && -MOVEMENT_LIMIT - DELTA_SPEED < p.y < MOVEMENT_LIMIT + DELTA_SPEED
    && Z_FLOOR - DELTA_SPEED < p.z < Z_CEILING + DELTA_SPEED
  }

  /** With a direction in {-1, 0, 1} and bounded trigonometry, a tick keeps the
      ship inside the arena: the bounces pull it back before it can escape. */
  lemma TickStaysInArena(s: ShipState, c: Controls, t: Trig)
    requires Bounded(t) && -1 <= c.direction <= 1
    requires InArena(s.pos)
    ensures InArena(Tick(s, c, t).pos)
  {
    var s1 := Steer(s, c);
    assert Abs(s1.delta) <= DELTA_SPEED;
    DisplacementBounded(s1, t);
    var s2 := Horizontal(s1, t);
    assert s2.theta == s1.theta && s2.delta == s1.delta;
    DisplacementBounded(s2, t);
  }

  /** Over any run with directions in {-1, 0, 1}, the ship stays in the arena. */
  lemma {:induction false} RunStaysInArena(s: ShipState, inputs: seq<Controls>, t: Trig)
    requires Bounded(t) && forall i :: 0 <= i < |inputs| ==> -1 <= inputs[i].direction <= 1
    requires InArena(s.pos)
    ensures InArena(Run(s, inputs, t).pos)
    decreases |inputs|
  {
    if inputs != [] {
      TickStaysInArena(s, inputs[0], t);
      RunStaysInArena(Tick(s, inputs[0], t), inputs[1..], t);
    }
  }

  /** A ship exactly on the x wall is neither inside nor beyond it: no tick
      ever moves its x again, whatever the input. */
  lemma {:induction false} StuckOnWall(s: ShipState, inputs: seq<Controls>, t: Trig)
    requires s.pos.x == MOVEMENT_LIMIT
    ensures Run(s, inputs, t).pos.x == MOVEMENT_LIMIT
    decreases |inputs|
  {
    if inputs != [] {
      var n := Tick(s, inputs[0], t);
      assert n.pos.x == MOVEMENT_LIMIT;
      StuckOnWall(n, inputs[1..], t);
    }
  }

  /** A ship exactly at the ceiling is neither below nor above it: no tick ever
      moves its z again, whatever the input. */
  lemma {:induction false} StuckOnCeiling(s: ShipState, inputs: seq<Controls>, t: Trig)
    requires s.pos.z == Z_CEILING
    ensures Run(s, inputs, t).pos.z == Z_CEILING
    decreases |inputs|
  {
    if inputs != [] {
      var n := Tick(s, inputs[0], t);
      assert n.pos.z == Z_CEILING;
      StuckOnCeiling(n, inputs[1..], t);
    }
  }

  /** Half a unit from the x wall, two ticks at full speed move the ship at
      most 0.2 toward it: it does not reach the wall, so nothing bounces. */
  lemma TwoTicksFromNearWall(s: ShipState, c1: Controls, c2: Controls, t: Trig)
    requires Bounded(t) && -1 <= c1.direction <= 1 && -1 <= c2.direction <= 1
    requires s.pos.x == MOVEMENT_LIMIT - 0.5 && Abs(s.pos.y) <= MOVEMENT_LIMIT - 0.5
    ensures InsideWalls(Tick(s, c1, t).pos)
    ensures Run(s, [c1, c2], t).pos.x <= MOVEMENT_LIMIT - 0.3
  {
    var s1 := Steer(s, c1);
    DisplacementBounded(s1, t);
    var n := Tick(s, c1, t);
    assert Abs(n.pos.x - s.pos.x) <= DELTA_SPEED && Abs(n.pos.y - s.pos.y) <= DELTA_SPEED by {
      var h := Horizontal(s1, t);
      assert h.theta == s1.theta && h.delta == s1.delta;
    }
    DisplacementBounded(Steer(n, c2), t);
    assert Run(s, [c1, c2], t) == Run(n, [c2], t);
    assert Run(n, [c2], t) == Tick(n, c2, t);
  }

  /** The soft clamp alone never lets the pitch pass the limit by more than
      one step, for inputs in {-1, 0, 1}. */
  lemma PitchStaysNearLimit(angleY: real, m: int)
    requires -1 <= m <= 1
    requires Abs(angleY) <= ANGLE_Y_LIMIT + ANGLE_Y_SPEED
    ensures Abs(Pitch(angleY, m)) <= ANGLE_Y_LIMIT + ANGLE_Y_SPEED
  {
  }

  /** At or beyond a limit, the clamp never moves the pitch further out. */
  lemma PitchNeverPushedOut(angleY: real, m: int)
    requires -1 <= m <= 1
    requires Abs(angleY) >= ANGLE_Y_LIMIT
    ensures Abs(Pitch(angleY, m)) <= Abs(angleY)
  {
  }

  /** The clamp is soft: just inside the limit one more step overshoots it. */
  lemma PitchOvershoots()
    ensures Pitch(0.31, 1) > ANGLE_Y_LIMIT
  {
  }

  /** The ceiling bounce keeps the pitch magnitude; the floor bounce leaves a
      non-negative pitch, equal to |angleY| for a downward pitch but three
      times a positive one. */
  lemma VerticalBouncePitch(s: ShipState, t: Trig)
    ensures s.pos.z > Z_CEILING ==> Abs(Vertical(s, t).angleY) == Abs(s.angleY)
    ensures s.pos.z < Z_FLOOR && s.angleY <= 0.0 ==> Vertical(s, t).angleY == Abs(s.angleY)
    ensures s.pos.z < Z_FLOOR && s.angleY > 0.0 ==> Vertical(s, t).angleY == 3.0 * s.angleY
  {
  }

  /** The player's airship, `a0`. */
  class Airship {
    var control: bool
    var angleZ: real
    var angleZMultiplier: int
    var angleY: real
    var angleYMultiplier: int
    var delta: real
    var direction: int
    /** The position; the numpy array is updated in place, never replaced. */
    const translateVector: array<real>
    var phi: real
    var theta: real

    ghost predicate Valid() {
      translateVector.Length == 3
    }

    function Position(): Vec3
      reads translateVector
      requires Valid()
    {
      Vec3(translateVector[0], translateVector[1], translateVector[2])
    }

    function State(): ShipState
      reads this, translateVector
      requires Valid()
    {
      ShipState(angleZ, angleY, theta, phi, delta, Position())
    }

    function Inputs(): Controls
      reads this
    {
      Controls(control, angleZMultiplier, angleYMultiplier, direction)
    }

    constructor ()
      ensures Valid() && fresh(translateVector)
      ensures State() == INITIAL_STATE && Inputs() == INITIAL_CONTROLS
    {
      control := false;
      angleZ, angleZMultiplier := 0.0, 0;
      angleY, angleYMultiplier := 0.0, 0;
      delta, direction := 0.0, 0;
      translateVector := new real[3](_ => 0.0);
      phi, theta := 0.0, 0.0;
    }

    /** `updateCoords(X, Y, Z)`: only the flagged components of the position change. */
    method UpdateCoords(t: Trig, X: bool := false, Y: bool := false, Z: bool := false)
      requires Valid()
      modifies translateVector
      ensures Position() == Coords(old(State()), t, X, Y, Z)
    {
      if X {
        translateVector[0] := translateVector[0] + delta * t.cos(theta) * t.sin(phi) * -1.0;
      }
      if Y {
        translateVector[1] := translateVector[1] + delta * t.cos(theta) * t.cos(phi);
      }
      if Z {
        translateVector[2] := translateVector[2] + delta * t.sin(theta);
      }
    }

    /** `update`: one tick of steering, movement and bouncing. The three
        phases of the source's method body are the three methods below. */
    method Update(t: Trig)
      requires Valid()
      modifies this, translateVector
      ensures State() == Tick(old(State()), old(Inputs()), t)
      ensures Inputs() == old(Inputs())
    {
      UpdateAngles();
      UpdatePlane(t);
      UpdateHeight(t);
    }

    /** Yaw, soft-clamped pitch, aim and step length. */
    method UpdateAngles()
      requires Valid()
      modifies this
      ensures State() == Steer(old(State()), old(Inputs()))
      ensures Inputs() == old(Inputs())
    {
      angleZ := angleZ + ANGLE_Z_SPEED * angleZMultiplier as real;
      if (angleY < ANGLE_Y_LIMIT && angleY > -ANGLE_Y_LIMIT)
         || (angleY > ANGLE_Y_LIMIT && angleYMultiplier < 0)
         || (angleY < -ANGLE_Y_LIMIT && angleYMultiplier > 0)
      {
        angleY := angleY + ANGLE_Y_SPEED * angleYMultiplier as real;
      } else {
        angleY := angleY;
      }
      theta := angleY;
      phi := angleZ;
      delta := direction as real * DELTA_SPEED;
    }

    /** Move in x and y inside the walls, otherwise bounce off them. */
    method UpdatePlane(t: Trig)
      requires Valid()
      modifies this, translateVector
      ensures State() == Horizontal(old(State()), t)
      ensures Inputs() == old(Inputs())
    {
      if translateVector[0] < MOVEMENT_LIMIT && translateVector[1] < MOVEMENT_LIMIT
         && translateVector[0] > -MOVEMENT_LIMIT && translateVector[1] > -MOVEMENT_LIMIT
      {
        UpdateCoords(t, true, true);
      } else {
        if translateVector[0] > MOVEMENT_LIMIT {
          angleZ := angleZ + PI;
          translateVector[0] := translateVector[0] - WALL_NUDGE;
        }
        if translateVector[0] < -MOVEMENT_LIMIT {
          angleZ := angleZ + PI;
          translateVector[0] := translateVector[0] + WALL_NUDGE;
        }
        if translateVector[1] > MOVEMENT_LIMIT {
          angleZ := angleZ + PI;
          translateVector[1] := translateVector[1] - WALL_NUDGE;
        }
        if translateVector[1] < -MOVEMENT_LIMIT {
          angleZ := angleZ + PI;
          translateVector[1] := translateVector[1] + WALL_NUDGE;
        }
      }
    }

    /** Move in z between floor and ceiling, otherwise bounce off them. */
    method UpdateHeight(t: Trig)
      requires Valid()
      modifies this, translateVector
      ensures State() == Vertical(old(State()), t)
      ensures Inputs() == old(Inputs())
    {
      if translateVector[2] < Z_CEILING && translateVector[2] > Z_FLOOR {
        UpdateCoords(t, false, false, true);
      } else {
        if translateVector[2] > Z_CEILING {
          angleY := angleY - angleY * 2.0;
          angleZ := angleZ + PI;
          translateVector[2] := translateVector[2] - HEIGHT_NUDGE;
        }
        if translateVector[2] < Z_FLOOR {
          angleY := angleY + Abs(angleY) * 2.0;
          angleZ := angleZ + PI;
          translateVector[2] := translateVector[2] + HEIGHT_NUDGE;
        }
      }
    }
  }
}
