/** The 2D demo's parallax star field: three layers of stars that fall at
    their own speed and reappear above the window once they leave it. */
module StarField {
  import opened Geometry
  import Random

  /** The window the stars live in. */
  const WIDTH: int := 1280
  const HEIGHT: int := 720

  /** Size of each layer, its falling speed and the scale of its stars. */
  const FRONT_N: nat := 30
  const FRONT_SPEED: real := 4.5
  const FRONT_SCALE: real := 0.8
  const MID_N: nat := 50
  const MID_SPEED: real := 2.5
  const MID_SCALE: real := 0.4
  const BACK_N: nat := 100
  const BACK_SPEED: real := 1.5
  const BACK_SCALE: real := 0.2

  /** A height a star is put back at: the window height plus a whole number
      drawn from [0, WIDTH). */
  predicate Respawned(y: real) {
    y.Floor as real == y && HEIGHT as real <= y < (HEIGHT + WIDTH) as real
  }

  /** What one `update(m)` does to a star's height: while it is above the
      bottom edge it falls by `m`, otherwise it respawns. */
  predicate Fell(before: real, after: real, m: real) {
    if before > 0.0 then after == before - m else Respawned(after)
  }

  /** One `update(m)` with the respawn draw `r` made explicit. */
  function Fall(y: real, m: real, r: int): (y': real)
    requires 0 <= r < WIDTH
    ensures Fell(y, y', m)
  {
    if y > 0.0 then y - m else (HEIGHT + r) as real
  }

  /** `update` applied once per draw in `rs`. Whatever is drawn, a star in the
      band of a positive speed stays in it. */
  function Falls(y: real, m: real, rs: seq<int>): (y': real)
    requires forall i :: 0 <= i < |rs| ==> 0 <= rs[i] < WIDTH
    ensures m > 0.0 && InBand(y, m) ==> InBand(y', m)
    decreases |rs|
  {
    if rs == [] then y else Falls(Fall(y, m, rs[0]), m, rs[1..])
  }

  /** The heights a star falling by `m` can have: above one step below the
      bottom edge and below the highest respawn point. */
  predicate InBand(y: real, m: real) {
    -m < y < (HEIGHT + WIDTH) as real
  }

  /** A new star is in the band of every positive speed. */
  lemma SpawnedInBand(y: real, m: real)
    requires 0.0 <= y < (2 * HEIGHT) as real && m > 0.0
    ensures InBand(y, m)
  {
  }

  /** One update keeps a star in its band. */
  lemma FellStaysInBand(before: real, after: real, m: real)
    requires m > 0.0 && InBand(before, m) && Fell(before, after, m)
    ensures InBand(after, m)
  {
  }

  /** A star above the bottom edge that does not respawn falls by `m` per
      update: after `|rs|` updates that all stay above the edge it is
      `|rs| * m` lower. */
  lemma {:induction false} FallsSteadily(y: real, m: real, rs: seq<int>)
    requires forall i :: 0 <= i < |rs| ==> 0 <= rs[i] < WIDTH
    requires m >= 0.0 && y - (|rs| - 1) as real * m > 0.0
    ensures Falls(y, m, rs) == y - |rs| as real * m
    decreases |rs|
  {
    if rs != [] {
      assert y > 0.0 by {
        assert (|rs| - 1) as real * m >= 0.0;
      }
      FallsSteadily(y - m, m, rs[1..]);
    }
  }

  /** No object is in both `a` and `b`. */
  predicate Disjoint<T(==)>(a: seq<T>, b: seq<T>) {
    forall i, j :: 0 <= i < |a| && 0 <= j < |b| ==> a[i] != b[j]
  }

  /** A pyglet star shape; only its position and its two radii, in the order
      pyglet's `Star(x, y, outer_radius, inner_radius, …)` takes them, are
      modelled. */
  class StarShape {
    const x: int
    var y: real
    const outerRadius: real
    const innerRadius: real

    /** Where a star is created: x in [0, WIDTH), y a whole number in [0, 2 * HEIGHT). */
    predicate Spawned()
      reads this
    {
      0 <= x < WIDTH && y.Floor as real == y && 0.0 <= y < (2 * HEIGHT) as real
    }

    constructor (scale: real)
      ensures Spawned()
      ensures outerRadius == 2.0 + scale && innerRadius == 4.0 + scale
    {
      var rx := Random.RandRange(0, WIDTH);
      var ry := Random.RandRange(0, HEIGHT * 2);
      x, y := rx, ry as real;
      outerRadius, innerRadius := 2.0 + scale, 4.0 + scale;
    }

    /** `update(multiplier)`; `x` is a constant, so it never moves sideways. */
    method Update(multiplier: real)
      modifies this
      ensures Fell(old(y), y, multiplier)
    {
      if y > 0.0 {
        y := y - 1.0 * multiplier;
      } else {
        var r := Random.RandRange(0, WIDTH);
        y := (HEIGHT + r) as real;
      }
    }
  }

  /** The list comprehension building one layer: `n` new stars of one scale. */
  method MakeLayer(n: nat, scale: real) returns (layer: seq<StarShape>)
    ensures |layer| == n && Distinct(layer)
    ensures forall i :: 0 <= i < n ==> fresh(layer[i])
    ensures forall i :: 0 <= i < n ==> layer[i].Spawned()
    ensures forall i :: 0 <= i < n ==> layer[i].outerRadius == 2.0 + scale && layer[i].innerRadius == 4.0 + scale
  {
    layer := [];
    while |layer| < n
      invariant |layer| <= n && Distinct(layer)
      invariant forall i :: 0 <= i < |layer| ==> fresh(layer[i])
      invariant forall i :: 0 <= i < |layer| ==> layer[i].Spawned()
      invariant forall i :: 0 <= i < |layer| ==> layer[i].outerRadius == 2.0 + scale && layer[i].innerRadius == 4.0 + scale
      decreases n - |layer|
    {
      var star := new StarShape(scale);
      layer := layer + [star];
    }
  }

  /** One loop of `updateStars`: every star of the layer is updated exactly
      once with speed `m`. */
  method UpdateLayer(layer: seq<StarShape>, m: real)
    requires Distinct(layer)
    modifies set s | s in layer
    ensures forall i :: 0 <= i < |layer| ==> Fell(old(layer[i].y), layer[i].y, m)
  {
    for i := 0 to |layer|
      invariant forall j :: 0 <= j < i ==> Fell(old(layer[j].y), layer[j].y, m)
      invariant forall j :: i <= j < |layer| ==> layer[j].y == old(layer[j].y)
    {
      layer[i].Update(m);
    }
  }

  /** The three global layers of stars. */
  class Sky {
    const front: seq<StarShape>
    const mid: seq<StarShape>
    const back: seq<StarShape>

    /** Every layer has its size and no star belongs to two places. */
    predicate Valid() {
      && |front| == FRONT_N && |mid| == MID_N && |back| == BACK_N
      && Distinct(front) && Distinct(mid) && Distinct(back)
      && Disjoint(front, mid) && Disjoint(front, back) && Disjoint(mid, back)
    }

    ghost function Stars(): set<StarShape> {
      (set s | s in front) + (set s | s in mid) + (set s | s in back)
    }

    /** Each star is in the band of its own layer's speed. */
    ghost predicate InBands()
      reads Stars()
    {
      && (forall i :: 0 <= i < |front| ==> InBand(front[i].y, FRONT_SPEED))
      && (forall i :: 0 <= i < |mid| ==> InBand(mid[i].y, MID_SPEED))
      && (forall i :: 0 <= i < |back| ==> InBand(back[i].y, BACK_SPEED))
    }

    constructor ()
      ensures Valid() && InBands()
      ensures forall i :: 0 <= i < |front| ==>
        fresh(front[i]) && front[i].Spawned() && front[i].outerRadius == 2.0 + FRONT_SCALE && front[i].innerRadius == 4.0 + FRONT_SCALE
      ensures forall i :: 0 <= i < |mid| ==>
        fresh(mid[i]) && mid[i].Spawned() && mid[i].outerRadius == 2.0 + MID_SCALE && mid[i].innerRadius == 4.0 + MID_SCALE
      ensures forall i :: 0 <= i < |back| ==>
        fresh(back[i]) && back[i].Spawned() && back[i].outerRadius == 2.0 + BACK_SCALE && back[i].innerRadius == 4.0 + BACK_SCALE
    {
      var f := MakeLayer(FRONT_N, FRONT_SCALE);
      var m := MakeLayer(MID_N, MID_SCALE);
      var b := MakeLayer(BACK_N, BACK_SCALE);
      front, mid, back := f, m, b;
      new;
      forall i | 0 <= i < |front| ensures InBand(front[i].y, FRONT_SPEED) {
        SpawnedInBand(front[i].y, FRONT_SPEED);
      }
      forall i | 0 <= i < |mid| ensures InBand(mid[i].y, MID_SPEED) {
        SpawnedInBand(mid[i].y, MID_SPEED);
      }
      forall i | 0 <= i < |back| ensures InBand(back[i].y, BACK_SPEED) {
        SpawnedInBand(back[i].y, BACK_SPEED);
      }
    }

    /** `updateStars()`: each star is updated once with its layer's speed,
        which keeps every star in its band. */
    method UpdateStars()
      requires Valid()
      modifies Stars()
      ensures forall i :: 0 <= i < |front| ==> Fell(old(front[i].y), front[i].y, FRONT_SPEED)
      ensures forall i :: 0 <= i < |mid| ==> Fell(old(mid[i].y), mid[i].y, MID_SPEED)
      ensures forall i :: 0 <= i < |back| ==> Fell(old(back[i].y), back[i].y, BACK_SPEED)
      ensures old(InBands()) ==> InBands()
    {
      UpdateLayer(front, FRONT_SPEED);
      UpdateLayer(mid, MID_SPEED);
      UpdateLayer(back, BACK_SPEED);
      if old(InBands()) {
        forall i | 0 <= i < |front| ensures InBand(front[i].y, FRONT_SPEED) {
          FellStaysInBand(old(front[i].y), front[i].y, FRONT_SPEED);
        }
        forall i | 0 <= i < |mid| ensures InBand(mid[i].y, MID_SPEED) {
          FellStaysInBand(old(mid[i].y), mid[i].y, MID_SPEED);
        }
        forall i | 0 <= i < |back| ensures InBand(back[i].y, BACK_SPEED) {
          FellStaysInBand(old(back[i].y), back[i].y, BACK_SPEED);
        }
      }
    }
  }
}
