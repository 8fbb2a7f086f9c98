/** The 2D demo's airships: nine pyglet shapes that bob up and down together. */
module Airships {
  import opened Geometry
  import Random

  /** What `update` adds to `y_oscillation` per frame, and the bob amplitude. */
  const OSCILLATION_STEP: real := 0.1
  const BOB_AMPLITUDE: real := 0.9
  /** The mean `y_speed`, before its random spread. */
  const BASE_Y_SPEED: real := 1.2

  /** A pyglet rectangle or triangle, reduced to its anchor point. */
  class Shape {
    const x: real
    var y: real

    constructor (x: real, y: real)
      ensures this.x == x && this.y == y
    {
      this.x, this.y := x, y;
    }
  }

  /** `0.9 * sin(y_oscillation * y_speed)`: how far the ship moves in a frame
      whose oscillation is `osc`; with sine in [-1, 1], at most 0.9 either way. */
  function Bob(t: Trig, osc: real, speed: real): (d: real)
    ensures Bounded(t) ==> Abs(d) <= BOB_AMPLITUDE
  {
    BOB_AMPLITUDE * t.sin(osc * speed)
  }

  /** The loop of `update`: each shape of `shapes`, all different, moves up by `d`. */
  method MoveAll(shapes: seq<Shape>, d: real)
    requires Distinct(shapes)
    modifies set s | s in shapes
    ensures forall i :: 0 <= i < |shapes| ==> shapes[i].y == old(shapes[i].y) + d
  {
    for i := 0 to |shapes|
      invariant forall j :: 0 <= j < i ==> shapes[j].y == old(shapes[j].y) + d
      invariant forall j :: i <= j < |shapes| ==> shapes[j].y == old(shapes[j].y)
    {
      shapes[i].y := shapes[i].y + d;
    }
  }

  /** A whole number of hundredths in [-0.09, 0.09]. */
  predicate Hundredths(v: real) {
    -0.09 <= v <= 0.09 && (v * 100.0).Floor as real == v * 100.0
  }

  /** `randint(-9, 9) / 100`, the spread both random attributes start with. */
  method Jitter() returns (v: real)
    ensures Hundredths(v)
  {
    var n := Random.RandInt(-9, 9);
    v := n as real / 100.0;
    assert v * 100.0 == n as real;
  }

  /** The airship class of the 2D demo. */
  class Airship {
    const r1: Shape
    const t1: Shape
    const t2: Shape
    const t3: Shape
    const t4: Shape
    const t5: Shape
    const t6: Shape
    const t7: Shape
    const t8: Shape
    var yOscillation: real
    const ySpeed: real

    /** `shapesList()`: the back, the two frame sides and the six wing pieces, in that order. */
    function ShapesList(): (r: seq<Shape>)
      ensures |r| == 9 && r[0] == r1 && r[8] == t8
    {
      [r1, t1, t2, t3, t4, t5, t6, t7, t8]
    }

    /** The nine shapes are nine different objects. */
    predicate Valid() {
      Distinct(ShapesList())
    }

    /** The shapes around (x, y): the back 15 below, the frame sides 30 below
        and the wings at y; the oscillation starts within 0.09 of 0 and the
        speed within 0.09 of 1.2, both in hundredths. */
    constructor (x: int, y: int)
      ensures Valid()
      ensures r1.x == (x - 8) as real && t1.x == (x - 1) as real && t2.x == (x + 1) as real
      ensures t3.x == (x - 25) as real && t4.x == (x + 25) as real
      ensures t5.x == (x + 15) as real && t6.x == (x + 15) as real
      ensures t7.x == (x - 15) as real && t8.x == (x - 15) as real
      ensures r1.y == (y - 15) as real && t1.y == (y - 30) as real && t2.y == (y - 30) as real
      ensures t3.y == t4.y == t5.y == t6.y == t7.y == t8.y == y as real
      ensures Hundredths(yOscillation)
      ensures Hundredths(ySpeed - BASE_Y_SPEED) && 1.11 <= ySpeed <= 1.29
    {
      var s1 := new Shape((x - 8) as real, (y - 15) as real);
      ghost var s := [s1];
      var s2 := new Shape((x - 1) as real, (y - 30) as real);
      DistinctSnoc(s, s2); s := s + [s2];
      var s3 := new Shape((x + 1) as real, (y - 30) as real);
      DistinctSnoc(s, s3); s := s + [s3];
      var s4 := new Shape((x - 25) as real, y as real);
      DistinctSnoc(s, s4); s := s + [s4];
      var s5 := new Shape((x + 25) as real, y as real);
      DistinctSnoc(s, s5); s := s + [s5];
      var s6 := new Shape((x + 15) as real, y as real);
      DistinctSnoc(s, s6); s := s + [s6];
      var s7 := new Shape((x + 15) as real, y as real);
      DistinctSnoc(s, s7); s := s + [s7];
      var s8 := new Shape((x - 15) as real, y as real);
      DistinctSnoc(s, s8); s := s + [s8];
      var s9 := new Shape((x - 15) as real, y as real);
      DistinctSnoc(s, s9); s := s + [s9];
      r1, t1, t2, t3, t4, t5, t6, t7, t8 := s1, s2, s3, s4, s5, s6, s7, s8, s9;
      var a := Jitter();
      var b := Jitter();
      yOscillation := 0.0 + a;
      ySpeed := BASE_Y_SPEED + b;
      new;
      assert ShapesList() == s;
    }

    /** `update()`: the oscillation advances by 0.1, then every shape moves
        by the same bob, so the distance between any two shapes is kept. */
    method Update(t: Trig)
      requires Valid()
      modifies this, set s | s in ShapesList()
      ensures yOscillation == old(yOscillation) + OSCILLATION_STEP
      ensures forall i :: 0 <= i < 9 ==> ShapesList()[i].y == old(ShapesList()[i].y) + Bob(t, yOscillation, ySpeed)
      ensures forall i, j :: 0 <= i < 9 && 0 <= j < 9 ==>
        ShapesList()[i].y - ShapesList()[j].y == old(ShapesList()[i].y - ShapesList()[j].y)
    {
      yOscillation := yOscillation + OSCILLATION_STEP;
      MoveAll(ShapesList(), Bob(t, yOscillation, ySpeed));
    }
  }
}
