# Steering, bounce and timing logic of two pyglet demos

This project is a Dafny model of the state logic in two small pyglet programs, with proofs about it.

- **The 3D demo (`t2/tarea2.py`)**:
  - The player's airship `a0`. It accumulates yaw, soft-clamps pitch, moves in spherical coordinates, and bounces off invisible walls, a ceiling and a floor.
  - The key and mouse handlers that drive the airship's input fields.
  - The follow camera with its two projections.
  - The global `time` object, whose tick advances rotation and oscillation accumulators and re-rolls the x of three moving rocks.
- **The 2D demo (`t1/tarea_1.py`)**:
  - A parallax star field of three layers that fall at their own speeds.
  - Airships made of nine shapes that bob up and down together.

Python floats are modelled as `real`. `np.sin` and `np.cos` are left uninterpreted: they are passed around as the fields of a `Geometry.Trig` value. A lemma that needs them in [-1, 1] (`Geometry.Bounded`) or needs sin² + cos² = 1 (`Geometry.Pythagorean`) says so in its `requires`.

Random draws are nondeterministic choices inside the range each library call documents (module `Random`):
- `numpy.random.randint(a, b)` and `random.randrange(a, b)` draw from [a, b).
- `random.randint(a, b)` draws from [a, b].

Objects the source mutates in place are Dafny classes with `modifies` clauses. Each method is proved against a pure function of the old state where one exists:
- `Flight.Airship.Update` against `Flight.Tick`.
- `Ticking.TimeEvents.Update` against `Ticking.Advance`.

Modules, one per file:
- `Geometry`: vectors, trig, truncation, distinct lists.
- `Random`
- `Flight`
- `FlightInput`
- `SceneCamera`
- `Ticking`
- `StarField`
- `Airships`

## Behaviour of the code worth knowing

- **Pitch limit.** The docstring of `Airship` in `t2/tarea2.py` (lines 252-253) calls `angleYLimit` the maximum rotation angle of the ship about the y axis. The clamp is tested before the step, so the pitch can pass the limit by one step (`Flight.PitchOvershoots`). After that it can only move back in (`Flight.PitchNeverPushedOut`, `Flight.PitchStaysNearLimit`). A floor bounce also triples a positive pitch (`Flight.VerticalBouncePitch`).
- **Near a wall.** A tick moves x by at most 0.1, so two ticks from x = 24.5 cannot reach the wall at 25 (`Flight.TwoTicksFromNearWall`).
- **Star respawn.** The comment on a star's respawn speaks of a random x position. The code re-rolls `y`, drawing from the window *width* on top of the window height, and never touches `x`.
- **Exactly at a limit.** A coordinate exactly on a limit (x = ±25, z = -2 or 5) is neither inside nor beyond it. No later tick moves that coordinate again (`Flight.StuckOnWall`, `Flight.StuckOnCeiling`).

## Model

| member | source | states |
|---|---|---|
| Geometry.Spherical | t2/tarea2.py:365-371 | a step of length 0 goes nowhere, and one with sin theta = 0 has no vertical part |
| Random.RandRange | t2/tarea2.py:435-437 | `numpy.random.randint(low, high)`, also `random.randrange` in `t1/tarea_1.py`: an integer in [low, high) |
| Random.RandInt | t1/tarea_1.py:159-160 | `random.randint(a, b)`: an integer in [a, b], both ends included |
| Geometry.Trunc | t2/tarea2.py:466-471 | `int()` of a float truncates toward zero: the result is within 1 of its argument, non-negative and at most it for a non-negative argument, non-positive and at least it for a non-positive one |
| Flight.Pitch | t2/tarea2.py:312-315 | the soft clamp: strictly inside ±limit the pitch moves by exactly speed × input; above the limit it changes iff the input is negative; below -limit it changes iff the input is positive; exactly at ±limit it is unchanged |
| Flight.Steer | t2/tarea2.py:309-320 | yaw gains speed × yaw input; pitch is `Pitch`; theta and phi are the new pitch and yaw, taken before any bounce; delta = direction × 0.1; the position is untouched |
| Flight.Coords | t2/tarea2.py:354-371 | `updateCoords(X, Y, Z)` adds the spherical step only to the components whose flag is set; the others keep their value |
| Flight.WallBounce | t2/tarea2.py:326-337 | after the four sequential border checks, each axis strictly beyond ±25 is nudged 2 inward and adds π to yaw (2π when both are out); an axis exactly at ±25 is not nudged; z, pitch, aim and step are unchanged |
| Flight.Horizontal | t2/tarea2.py:323-337 | strictly inside the walls only x and y move, by their part of the step; otherwise the ship bounces without moving; z, pitch, aim and step are unchanged |
| Flight.Vertical | t2/tarea2.py:339-352 | strictly between floor and ceiling only z moves, by delta·sin(theta); above the ceiling pitch := -pitch, yaw += π, z -= 0.2; below the floor pitch += 2·\|pitch\|, yaw += π, z += 0.2; exactly at floor or ceiling nothing changes |
| Flight.Tick | t2/tarea2.py:308-352 | after one tick the yaw is the old yaw plus speed × input plus π per bounce; phi, theta and delta are those computed before any bounce |
| Flight.Run | t2/tarea2.py:308-352 | a run of ticks with no input leaves the ship as it is; otherwise the last input is applied last, to the ship the earlier inputs left |
| Flight.Displacement | t2/tarea2.py:365-371 | a step of length 0 goes nowhere, and a level step (sin theta = 0) keeps the height |
| Flight.CeilingBounce | t2/tarea2.py:343-347 | `angleY -= angleY * 2` negates the pitch, keeping its magnitude; yaw += π; z -= 0.2; x, y, aim and step are unchanged |
| Flight.FloorBounce | t2/tarea2.py:348-352 | `angleY += abs(angleY) * 2` leaves a non-negative pitch: \|pitch\| for a non-positive pitch, 3 × pitch for a positive one; yaw += π; z += 0.2; x, y, aim and step are unchanged |
| Flight.TickInsideMoves | t2/tarea2.py:323-341 | strictly inside walls, floor and ceiling, a tick moves the ship by exactly one spherical step and bounces nothing |
| Flight.DisplacementLength | t2/tarea2.py:365-371 | with sin² + cos² = 1 the step of `updateCoords` has length \|delta\| |
| Flight.DisplacementBounded | t2/tarea2.py:365-371 | with sine and cosine in [-1, 1] each component of the step is at most \|delta\| |
| Flight.TickStaysInArena | t2/tarea2.py:308-352 | with direction in {-1, 0, 1}, a tick keeps the ship within the walls, floor and ceiling widened by one step |
| Flight.RunStaysInArena | t2/tarea2.py:308-352 | the same over any sequence of ticks |
| Flight.StuckOnWall | t2/tarea2.py:324-337 | a ship with x exactly 25 keeps x = 25 through any sequence of ticks |
| Flight.StuckOnCeiling | t2/tarea2.py:340-352 | a ship with z exactly 5 keeps z = 5 through any sequence of ticks |
| Flight.TwoTicksFromNearWall | t2/tarea2.py:323-337 | from x = 24.5 the first tick stays inside the walls and two ticks leave x ≤ 24.7, so neither bounces |
| Flight.PitchStaysNearLimit | t2/tarea2.py:312-315 | with inputs in {-1, 0, 1}, a pitch within one step of the limit stays within one step of it |
| Flight.PitchNeverPushedOut | t2/tarea2.py:312-315 | at or beyond the limit the clamp never increases the pitch's magnitude |
| Flight.PitchOvershoots | t2/tarea2.py:312-315 | a pitch just inside the limit (0.31) passes it after one upward step |
| Flight.VerticalBouncePitch | t2/tarea2.py:343-352 | the ceiling bounce keeps \|pitch\|; the floor bounce gives \|pitch\| for a non-positive pitch and 3 × pitch for a positive one |
| Flight.Airship.constructor | t2/tarea2.py:285-305 | every angle, input and step is zero, control is off, and the position is a new zero 3-array |
| Flight.Airship.UpdateCoords | t2/tarea2.py:354-371 | the position array becomes `Coords` of the old state; no other field changes |
| Flight.Airship.Update | t2/tarea2.py:308-352 | the new state is `Tick` of the old state and inputs; the inputs are unchanged |
| Flight.Airship.UpdateAngles | t2/tarea2.py:309-320 | the new state is `Steer` of the old state and inputs |
| Flight.Airship.UpdatePlane | t2/tarea2.py:323-337 | the new state is `Horizontal` of the old one |
| Flight.Airship.UpdateHeight | t2/tarea2.py:339-352 | the new state is `Vertical` of the old one |
| FlightInput.Press | t2/tarea2.py:158-181 | A adds 1 and D subtracts 1 from the yaw input; R and unknown keys leave the inputs alone |
| FlightInput.Release | t2/tarea2.py:197-218 | releasing A or D zeroes the yaw input; R and unknown keys leave the inputs alone |
| FlightInput.Motion | t2/tarea2.py:231-236 | with control on, dy > 3 sets the pitch input to 1 and dy < -3 sets it to -1; otherwise nothing changes |
| FlightInput.Handle | t2/tarea2.py:158-236 | only A and D change the yaw input, only W and S the direction, only LCtrl `control`; a mouse movement changes nothing but the pitch input |
| FlightInput.Feed | t2/tarea2.py:158-236 | no events leave the inputs as they are; otherwise the last event is handled last, on the inputs the earlier ones left |
| FlightInput.NothingHeldIsInitial | t2/tarea2.py:286-295 | inputs consistent with no tracked key held are the initial ones: all zero, control off |
| FlightInput.InitiallyConsistent | t2/tarea2.py:286-295 | the initial inputs are consistent with no key held |
| FlightInput.HandleKeepsConsistent | t2/tarea2.py:158-236 | each handler keeps the inputs consistent with the keys held, for any event but the press of a tracked key already down; consistent means all inputs in {-1, 0, 1}, yaw input +1 (-1) only with A (D) held, direction +1 (-1) only with W (S) held, a non-zero pitch input only with Q, E or LCtrl held, and control exactly when LCtrl is held |
| FlightInput.EventsKeepConsistent | t2/tarea2.py:147-236 | the same over any event sequence in which each of the eight tested keys is pressed only while up; untracked keys may be pressed at any time |
| FlightInput.DoublePressEscapes | t2/tarea2.py:161-163 | without that restriction two presses of A give a yaw input of 2 |
| FlightInput.OnKeyPress | t2/tarea2.py:158-181 | the airship's inputs become `Press` of the old ones; R resets the pitch to 0; nothing else changes |
| FlightInput.OnKeyRelease | t2/tarea2.py:197-218 | the airship's inputs become `Release` of the old ones; its state is unchanged |
| FlightInput.OnMouseMotion | t2/tarea2.py:231-236 | the airship's inputs become `Motion` of the old ones; its state is unchanged |
| SceneCamera.PyIndex | t2/tarea2.py:126 | Python list indexing: defined exactly for -\|s\| ≤ i < \|s\|; a non-negative index counts from the front, a negative one from the end |
| SceneCamera.PyIndexFromEnd | t2/tarea2.py:126 | index i - \|s\| names the same element as index i |
| SceneCamera.ProjectionChoices | t2/tarea2.py:18-24 | index 0 is the perspective and 1 the orthographic projection; exactly the indices -2..1 are valid |
| SceneCamera.Follow | t2/tarea2.py:135-136 | the followed vector lies exactly `f` away from its base vector |
| SceneCamera.FollowKeepsSightLine | t2/tarea2.py:135-136 | `at - eye` is the same for every followed position |
| SceneCamera.Camera.constructor | t2/tarea2.py:102-117 | keeps the base vectors, lists both projections and starts with index 1, the orthographic one; `at`, `eye` and `up` are not yet set |
| SceneCamera.Camera.SetProjection | t2/tarea2.py:119-126 | succeeds iff the index is valid for the list, and the projection is then the indexed one; on failure it is unchanged; the vectors are untouched |
| SceneCamera.Camera.Update | t2/tarea2.py:128-137 | at = at0 + f, eye = eye0 + f, up = up0; the base vectors (constants) and the projection are unchanged |
| Ticking.Advance | t2/tarea2.py:449-477 | every rotation, time and rock counter increases, `movingRockRotation` decreases, and the oscillations are 0.1·sin(dt) and 0.1·cos(rDt) of the new times (the exact rates over n ticks are `Ticking.AdvanceN`) |
| Ticking.OscillationsBounded | t2/tarea2.py:456-460 | with sine and cosine in [-1, 1] both oscillations have magnitude at most 0.1 |
| Ticking.AdvanceN | t2/tarea2.py:449-477 | after n ticks each accumulator has moved by n × its rate (down for the rock rotation), and after at least one tick the oscillations are 0.1·sin and 0.1·cos of the new times |
| Ticking.PathPosition | t2/tarea2.py:466-471 | a float `% 65` lies in [0, 65) and differs from its argument by a whole multiple of 65 |
| Ticking.RerollDue | t2/tarea2.py:466-471 | `int(counter % 65) == 0` holds exactly when the position along the path is below 1 |
| Ticking.MaybeReroll | t2/tarea2.py:466-471 | a rock's x is redrawn from [-30, 30) exactly when the test holds, and is unchanged otherwise |
| Ticking.TimeEvents.constructor | t2/tarea2.py:413-443 | every accumulator starts at 0; the rocks start in the lanes [-30, -10), [-10, 10) and [10, 30) |
| Ticking.TimeEvents.Oscillate | t2/tarea2.py:453-460 | the two rotations and the two oscillators advance; nothing else changes |
| Ticking.TimeEvents.MoveRocks | t2/tarea2.py:462-464 | the three rock counters grow by 0.1, 0.12 and 0.15; nothing else changes |
| Ticking.TimeEvents.RerollRocks | t2/tarea2.py:466-471 | each rock's x is re-rolled or kept as `MaybeReroll` says; the accumulators are unchanged |
| Ticking.TimeEvents.Spin | t2/tarea2.py:473-477 | the rock rotation drops by 0.2, the planet and satellite rotations grow by 0.005 and 0.02; nothing else changes |
| Ticking.TimeEvents.Update | t2/tarea2.py:449-477 | the accumulators become `Advance` of the old ones, and each rock is re-rolled exactly when its new counter wraps |
| StarField.Fall | t1/tarea_1.py:77-81 | one update: above the bottom edge the star falls by exactly the multiplier, otherwise it lands at a whole height in [720, 2000) |
| StarField.SpawnedInBand | t1/tarea_1.py:67 | a new star is within the band (-speed, 2000) of every positive speed |
| StarField.FellStaysInBand | t1/tarea_1.py:77-81 | one update keeps a star in its band |
| StarField.Falls | t1/tarea_1.py:69-81 | any number of updates keep a star in its band, whatever is drawn |
| StarField.FallsSteadily | t1/tarea_1.py:78-79 | while a star stays above the edge, n updates lower it by exactly n × speed |
| StarField.StarShape.constructor | t1/tarea_1.py:57-67 | a new star has x in [0, 1280), a whole y in [0, 1440), outer radius 2 + scale and inner radius 4 + scale, in the order pyglet's `Star` takes them |
| StarField.StarShape.Update | t1/tarea_1.py:69-81 | y falls by the multiplier while above 0, otherwise it respawns at 720 + r with 0 ≤ r < 1280; x is a constant |
| StarField.MakeLayer | t1/tarea_1.py:86-94 | a layer is n new, pairwise different stars of the given scale |
| StarField.UpdateLayer | t1/tarea_1.py:102-107 | each star of a layer is updated exactly once with the layer's speed |
| StarField.Sky.constructor | t1/tarea_1.py:86-94 | layers of 30, 50 and 100 freshly allocated stars with the radii of scales 0.8, 0.4 and 0.2; no star is shared; every star is in its band |
| StarField.Sky.UpdateStars | t1/tarea_1.py:97-107 | front, middle and back stars are each updated once with speeds 4.5, 2.5 and 1.5; every star stays in its band |
| Airships.Bob | t1/tarea_1.py:176 | with sine in [-1, 1] a ship moves at most 0.9 per frame |
| Airships.MoveAll | t1/tarea_1.py:175-176 | every shape of a list of different shapes moves up by the same amount |
| Airships.Jitter | t1/tarea_1.py:159-160 | `randint(-9, 9) / 100` is a whole number of hundredths in [-0.09, 0.09] |
| Airships.Shape.constructor | t1/tarea_1.py:148-156 | a shape is created at the anchor it is given |
| Airships.Airship.ShapesList | t1/tarea_1.py:163-170 | nine shapes in fixed order, the back rectangle first and the last wing triangle last |
| Airships.Airship.constructor | t1/tarea_1.py:147-160 | the nine shapes are different objects at their offsets from (x, y); `y_oscillation` is in [-0.09, 0.09] and `y_speed` in [1.11, 1.29], both in hundredths |
| Airships.Airship.Update | t1/tarea_1.py:173-176 | `y_oscillation` grows by exactly 0.1; every shape's y moves by the same 0.9·sin(y_oscillation·y_speed), so the distance between any two shapes is kept |

## Left out

- Window, batch and OpenGL context creation, `run()`, clock scheduling, shader and uniform calls, and `print`: these are I/O and GPU plumbing.
- `on_draw` in both demos: it calls the modelled update methods in a fixed order and draws the result.
  - The four global airships of the 2D demo are not modelled.
  - The per-frame `transform` assignments of the 3D demo are not modelled.
- The scene graph, transformations and GPU shapes (`lib/scene_graph.py`, `lib/transformations.py`, `lib/gpu_shape.py`) are not part of this model. So are the node assembly and the asset, OBJ and texture loading that use them.
  - A projection is kept as the arguments of the call that builds it, not as a matrix.
- Floating-point rounding, and the actual values of `sin`, `cos` and `pi`. `PI` is numpy's value written as an exact real.
- The random generator: draws are nondeterministic choices in their documented ranges.
- The second `update(dt, controller)` of the 3D demo: it only accumulates a running time.
- Colours, the stars' spike count, the rectangle's size, and all triangle vertices but the anchor. pyglet moving a whole shape when its `y` is set is a library detail not modelled here; only the anchor is modelled.
- Flight.Airship.Update, Ticking.TimeEvents.Update: each is written as calls to methods for the consecutive blocks of the source method's body, in the source's order.
- Ticking.TimeEvents.Update: its elapsed-time argument is never read by the source and is dropped. The speeds the source keeps as never-reassigned attributes are module constants.
- Airships.Airship.Update: evaluates `0.9 * sin(y_oscillation * y_speed)` once rather than once per shape. Neither operand changes inside the loop, so every shape gets the same value either way.
- SceneCamera.Camera.Update: vectors are values, so `up` sharing the numpy array of `up0` (aliasing) is not modelled. Reading `at`, `eye` or `up` before the first update, which raises in Python, is the value `None`.
- SceneCamera.Camera.SetProjection: the `IndexError` raised on a bad index is the result `false` with the projection unchanged. The exception's propagation is not modelled.
- The handlers' unused arguments (the key modifier, the mouse `x`, `y` and `dx`) are dropped. Keys other than the eight the handlers test are one value, `Other`, which may be pressed again while another untracked key is down.
- The stars and airships of the 2D demo use the fixed window size 1280 × 720 for `window.width` and `window.height`; the window is not resizable.
