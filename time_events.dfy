/** The per-tick time events of the 3D demo: rotation and oscillation
    accumulators advanced at fixed rates, two oscillators, and three moving
    rocks whose x is re-rolled when their counter wraps modulo 65. */
module Ticking {
  import opened Geometry
  import Random

  const R1_SPEED: real := 0.02
  const R2_SPEED: real := 0.005
  const OSCILLATION_SPEED: real := 0.04
  const OSCILLATION_A: real := 0.1
  const RING_OSCILLATION_SPEED: real := 0.06
  const RING_A: real := 0.1
  const MOVING_ROCK_ROTATION_SPEED: real := 0.2
  const MOVING_ROCK_TR1_SPEED: real := 0.1
  const MOVING_ROCK_TR2_SPEED: real := 0.12
  const MOVING_ROCK_TR3_SPEED: real := 0.15
  const PLANET_ROT_SPEED: real := 0.005
  const SATELITE_ROT_SPEED: real := 0.02
  /** A re-rolled rock x is drawn from [ROCK_X_LOW, ROCK_X_HIGH). */
  const ROCK_X_LOW: int := -30
  const ROCK_X_HIGH: int := 30

  /** Every deterministic field of `timeEvents`. */
  datatype Clock = Clock(
    r1Rotation: real, r2Rotation: real,
    oscillation: real, dt: real,
    ringOscillation: real, rDt: real,
    movingRockRotation: real,
    movingRockTr1: real, movingRockTr2: real, movingRockTr3: real,
    planetRot: real, sateliteRot: real)

  const START: Clock := Clock(0.0, 0.0, 0.0, 0.0, 0.0, 0.0, 0.0, 0.0, 0.0, 0.0, 0.0, 0.0)

  /** The deterministic part of one call of the tick `update(dt)`. */
  function Advance(k: Clock, t: Trig): (r: Clock)
    ensures r.r1Rotation > k.r1Rotation && r.r2Rotation > k.r2Rotation
    ensures r.dt > k.dt && r.rDt > k.rDt
    ensures r.movingRockTr1 > k.movingRockTr1 && r.movingRockTr2 > k.movingRockTr2 && r.movingRockTr3 > k.movingRockTr3
    ensures r.movingRockRotation < k.movingRockRotation
    ensures r.planetRot > k.planetRot && r.sateliteRot > k.sateliteRot
    ensures r.oscillation == OSCILLATION_A * t.sin(r.dt)
    ensures r.ringOscillation == RING_A * t.cos(r.rDt)
  {
    var dt := k.dt + OSCILLATION_SPEED;
    var rDt := k.rDt + RING_OSCILLATION_SPEED;
    Clock(
      k.r1Rotation + R1_SPEED, k.r2Rotation + R2_SPEED,
      OSCILLATION_A * t.sin(dt), dt,
      RING_A * t.cos(rDt), rDt,
      k.movingRockRotation - MOVING_ROCK_ROTATION_SPEED,
      k.movingRockTr1 + MOVING_ROCK_TR1_SPEED, k.movingRockTr2 + MOVING_ROCK_TR2_SPEED, k.movingRockTr3 + MOVING_ROCK_TR3_SPEED,
      k.planetRot + PLANET_ROT_SPEED, k.sateliteRot + SATELITE_ROT_SPEED)
  }

  /** The clock after `n` ticks: every accumulator has moved by `n` times its
      rate, and after at least one tick each oscillator is its amplitude times
      sin (cos) of its own new time. */
  function AdvanceN(k: Clock, n: nat, t: Trig): (r: Clock)
    ensures n == 0 ==> r == k
    ensures r.r1Rotation == k.r1Rotation + n as real * R1_SPEED && r.r2Rotation == k.r2Rotation + n as real * R2_SPEED
    ensures r.dt == k.dt + n as real * OSCILLATION_SPEED && r.rDt == k.rDt + n as real * RING_OSCILLATION_SPEED
    ensures r.movingRockRotation == k.movingRockRotation - n as real * MOVING_ROCK_ROTATION_SPEED
    ensures r.movingRockTr1 == k.movingRockTr1 + n as real * MOVING_ROCK_TR1_SPEED
    ensures r.movingRockTr2 == k.movingRockTr2 + n as real * MOVING_ROCK_TR2_SPEED
    ensures r.movingRockTr3 == k.movingRockTr3 + n as real * MOVING_ROCK_TR3_SPEED
    ensures r.planetRot == k.planetRot + n as real * PLANET_ROT_SPEED && r.sateliteRot == k.sateliteRot + n as real * SATELITE_ROT_SPEED
    ensures n > 0 ==> r.oscillation == OSCILLATION_A * t.sin(r.dt) && r.ringOscillation == RING_A * t.cos(r.rDt)
    decreases n
  {
    if n == 0 then k else Advance(AdvanceN(k, n - 1, t), t)
  }

  /** With sine and cosine in [-1, 1], both oscillations stay within their amplitude 0.1. */
  lemma OscillationsBounded(k: Clock, t: Trig)
    requires Bounded(t)
    ensures Abs(Advance(k, t).oscillation) <= OSCILLATION_A
    ensures Abs(Advance(k, t).ringOscillation) <= RING_A
  {
    var r := Advance(k, t);
    ScaledByUnit(OSCILLATION_A, t.sin(r.dt));
    ScaledByUnit(RING_A, t.cos(r.rDt));
  }

  /** `counter % 65` on Python floats, a moving rock's place along its path of
      length 65: the remainder takes the sign of the modulus, so it lies in [0, 65). */
  function PathPosition(counter: real): (r: real)
    ensures 0.0 <= r < 65.0
    ensures (counter - r) / 65.0 == (counter / 65.0).Floor as real
  {
    counter - 65.0 * (counter / 65.0).Floor as real
  }

  /** The source's test `int(movingRockTrK % 65) == 0`: it holds exactly when
      the counter is less than 1 past a multiple of 65. */
  function RerollDue(counter: real): (due: bool)
    ensures due <==> PathPosition(counter) < 1.0
  {
    Trunc(PathPosition(counter)) == 0
  }

  /** A moving rock's x after a tick: any value in [-30, 30) when its counter
      wrapped, otherwise the old one. */
  ghost predicate Rerolled(before: int, after: int, counter: real) {
    if RerollDue(counter) then ROCK_X_LOW <= after < ROCK_X_HIGH else after == before
  }

  /** One of the three checks `if int(movingRockTrK % 65) == 0: rockKX =
      np.random.randint(-30, 30)`, returning the rock's new x. */
  method MaybeReroll(counter: real, x: int) returns (r: int)
    ensures Rerolled(x, r, counter)
  {
    r := x;
    if Trunc(PathPosition(counter)) == 0 {
      r := Random.RandRange(ROCK_X_LOW, ROCK_X_HIGH);
    }
  }

  /** The global `time`. */
  class TimeEvents {
    var r1Rotation: real
    var r2Rotation: real
    var oscillation: real
    var dt: real
    var ringOscillation: real
    var rDt: real
    var movingRockRotation: real
    var movingRockTr1: real
    var movingRockTr2: real
    var movingRockTr3: real
    var rock1X: int
    var rock2X: int
    var rock3X: int
    var planetRot: real
    var sateliteRot: real

    function Accumulators(): Clock
      reads this
    {
      Clock(r1Rotation, r2Rotation, oscillation, dt, ringOscillation, rDt, movingRockRotation,
            movingRockTr1, movingRockTr2, movingRockTr3, planetRot, sateliteRot)
    }

    /** Every accumulator starts at zero; the three rocks start in three
        disjoint lanes [-30, -10), [-10, 10) and [10, 30). */
    constructor ()
      ensures Accumulators() == START
      ensures -30 <= rock1X < -10 && -10 <= rock2X < 10 && 10 <= rock3X < 30
    {
      var x1 := Random.RandRange(-30, -10);
      var x2 := Random.RandRange(-10, 10);
      var x3 := Random.RandRange(10, 30);
      r1Rotation, r2Rotation := 0.0, 0.0;
      oscillation, dt := 0.0, 0.0;
      ringOscillation, rDt := 0.0, 0.0;
      movingRockRotation := 0.0;
      movingRockTr1, movingRockTr2, movingRockTr3 := 0.0, 0.0, 0.0;
      rock1X, rock2X, rock3X := x1, x2, x3;
      planetRot := 0.0;
      sateliteRot := 0.0;
    }

    /** The first block of the tick: the two rotations and the two oscillators. */
    method Oscillate(t: Trig)
      modifies this
      ensures Accumulators() == old(Accumulators()).(
        r1Rotation := old(r1Rotation) + R1_SPEED, r2Rotation := old(r2Rotation) + R2_SPEED,
        dt := old(dt) + OSCILLATION_SPEED, oscillation := OSCILLATION_A * t.sin(old(dt) + OSCILLATION_SPEED),
        rDt := old(rDt) + RING_OSCILLATION_SPEED, ringOscillation := RING_A * t.cos(old(rDt) + RING_OSCILLATION_SPEED))
      ensures rock1X == old(rock1X) && rock2X == old(rock2X) && rock3X == old(rock3X)
    {
      r1Rotation := r1Rotation + R1_SPEED;
      r2Rotation := r2Rotation + R2_SPEED;

      dt := dt + OSCILLATION_SPEED;
      oscillation := OSCILLATION_A * t.sin(dt);

      rDt := rDt + RING_OSCILLATION_SPEED;
      ringOscillation := RING_A * t.cos(rDt);
    }

    /** The three moving rocks advance along their paths. */
    method MoveRocks()
      modifies this
      ensures Accumulators() == old(Accumulators()).(
        movingRockTr1 := old(movingRockTr1) + MOVING_ROCK_TR1_SPEED,
        movingRockTr2 := old(movingRockTr2) + MOVING_ROCK_TR2_SPEED,
        movingRockTr3 := old(movingRockTr3) + MOVING_ROCK_TR3_SPEED)
      ensures rock1X == old(rock1X) && rock2X == old(rock2X) && rock3X == old(rock3X)
    {
      movingRockTr1 := movingRockTr1 + MOVING_ROCK_TR1_SPEED;
      movingRockTr2 := movingRockTr2 + MOVING_ROCK_TR2_SPEED;
      movingRockTr3 := movingRockTr3 + MOVING_ROCK_TR3_SPEED;
    }

    /** The three wrap-around checks, which only touch the rocks' x. */
    method RerollRocks()
      modifies this
      ensures Accumulators() == old(Accumulators())
      ensures Rerolled(old(rock1X), rock1X, movingRockTr1)
      ensures Rerolled(old(rock2X), rock2X, movingRockTr2)
      ensures Rerolled(old(rock3X), rock3X, movingRockTr3)
    {
      var x1 := MaybeReroll(movingRockTr1, rock1X);
      var x2 := MaybeReroll(movingRockTr2, rock2X);
      var x3 := MaybeReroll(movingRockTr3, rock3X);
      rock1X, rock2X, rock3X := x1, x2, x3;
    }

    /** The last block of the tick: the rock, planet and satellite spins. */
    method Spin()
      modifies this
      ensures Accumulators() == old(Accumulators()).(
        movingRockRotation := old(movingRockRotation) - MOVING_ROCK_ROTATION_SPEED,
        planetRot := old(planetRot) + PLANET_ROT_SPEED,
        sateliteRot := old(sateliteRot) + SATELITE_ROT_SPEED)
      ensures rock1X == old(rock1X) && rock2X == old(rock2X) && rock3X == old(rock3X)
    {
      movingRockRotation := movingRockRotation - MOVING_ROCK_ROTATION_SPEED;

      planetRot := planetRot + PLANET_ROT_SPEED;

      sateliteRot := sateliteRot + SATELITE_ROT_SPEED;
    }

    /** The tick `update(dt)`; its elapsed-time argument is never read. */
    method Update(t: Trig)
      modifies this
      ensures Accumulators() == Advance(old(Accumulators()), t)
      ensures Rerolled(old(rock1X), rock1X, movingRockTr1)
      ensures Rerolled(old(rock2X), rock2X, movingRockTr2)
      ensures Rerolled(old(rock3X), rock3X, movingRockTr3)
    {
      Oscillate(t);
      MoveRocks();
      RerollRocks();
      Spin();
    }
  }
}
