/** The key and mouse handlers of the 3D demo, which write the airship's
    control fields. `Press`, `Release` and `Motion` are the transitions on
    `Controls`; the methods apply them to the airship object `a0`. */
module FlightInput {
  import opened Geometry
  import opened Flight

  /** The keys the handlers test; every other key is `Other`. */
  datatype Key = R | A | D | W | S | Q | E | LCtrl | Other

  /** The smallest vertical mouse movement, exclusive, that steers the pitch. */
  const MOUSE_THRESHOLD: int := 3

  /** `on_key_press`, without its reset of `angleY` on R. */
  function Press(c: Controls, k: Key): (r: Controls)
    ensures k == A ==> r == c.(angleZMultiplier := c.angleZMultiplier + 1)
    ensures k == D ==> r == c.(angleZMultiplier := c.angleZMultiplier - 1)
    ensures k in {R, Other} ==> r == c
  {
    match k
    case R => c
    case A => c.(angleZMultiplier := c.angleZMultiplier + 1)
    case D => c.(angleZMultiplier := c.angleZMultiplier - 1)
    case W => c.(direction := 1)
    case S => c.(direction := -1)
    case Q => c.(angleYMultiplier := 1)
    case E => c.(angleYMultiplier := -1)
    case LCtrl => c.(control := true)
    case Other => c
  }

  /** `on_key_release`: releasing LCtrl also stops the pitch. */
  function Release(c: Controls, k: Key): (r: Controls)
    ensures k in {A, D} ==> r == c.(angleZMultiplier := 0)
    ensures k in {R, Other} ==> r == c
  {
    match k
    case A | D => c.(angleZMultiplier := 0)
    case W | S => c.(direction := 0)
    case Q | E => c.(angleYMultiplier := 0)
    case LCtrl => c.(control := false, angleYMultiplier := 0)
    case R | Other => c
  }

  /** `on_mouse_motion`: with LCtrl held, a vertical movement of more than 3
      pixels sets the pitch input to its sign; nothing else changes. */
  function Motion(c: Controls, dy: int): (r: Controls)
    ensures !c.control || -MOUSE_THRESHOLD <= dy <= MOUSE_THRESHOLD ==> r == c
    ensures c.control && dy > MOUSE_THRESHOLD ==> r == c.(angleYMultiplier := 1)
    ensures c.control && dy < -MOUSE_THRESHOLD ==> r == c.(angleYMultiplier := -1)
  {
    var c1 := if dy > MOUSE_THRESHOLD && c.control then c.(angleYMultiplier := 1) else c;
    if dy < -MOUSE_THRESHOLD && c1.control then c1.(angleYMultiplier := -1) else c1
  }

  /** What the window system delivers. */
  datatype Event = KeyPress(key: Key) | KeyRelease(key: Key) | MouseMotion(dy: int)

  /** The handler the window system calls for `e`. Only A and D change the yaw
      input, only W and S the direction, only LCtrl `control`; the mouse
      changes nothing but the pitch input. */
  function Handle(c: Controls, e: Event): (r: Controls)
    ensures r.angleZMultiplier != c.angleZMultiplier ==> !e.MouseMotion? && e.key in {A, D}
    ensures r.direction != c.direction ==> !e.MouseMotion? && e.key in {W, S}
    ensures r.control != c.control ==> !e.MouseMotion? && e.key == LCtrl
    ensures e.MouseMotion? ==> r.(angleYMultiplier := c.angleYMultiplier) == c
  {
    match e
    case KeyPress(k) => Press(c, k)
    case KeyRelease(k) => Release(c, k)
    case MouseMotion(dy) => Motion(c, dy)
  }

  /** The keys held down after an event. */
  function Hold(held: set<Key>, e: Event): set<Key> {
    match e
    case KeyPress(k) => held + {k}
    case KeyRelease(k) => held - {k}
    case MouseMotion(_) => held
  }

  /** A tracked key is pressed only while it is up: the window system does not
      repeat a press without a release in between. `Other` stands for every
      untracked key, so it may be pressed while another untracked key is down. */
  predicate WellFormed(held: set<Key>, events: seq<Event>)
    decreases |events|
  {
    events != [] ==>
      && (events[0].KeyPress? && events[0].key != Other ==> events[0].key !in held)
      && WellFormed(Hold(held, events[0]), events[1..])
  }

  /** The controls after a sequence of events, oldest first: the last event
      is handled last, on the controls the earlier ones left. */
  function Feed(c: Controls, events: seq<Event>): (r: Controls)
    ensures events == [] ==> r == c
    ensures events != [] ==> r == Handle(Feed(c, events[..|events| - 1]), events[|events| - 1])
    decreases |events|
  {
    if events == [] then c
    else
      var rest := Feed(Handle(c, events[0]), events[1..]);
      assert events[1..] != [] ==> events[1..][..|events[1..]| - 1] == events[..|events| - 1][1..];
      rest
  }

  function HeldAfter(held: set<Key>, events: seq<Event>): set<Key>
    decreases |events|
  {
    if events == [] then held else HeldAfter(Hold(held, events[0]), events[1..])
  }

  /** How the controls relate to the keys held: every input is in {-1, 0, 1},
      a yaw input of +1 (-1) needs A (D) held, a direction of +1 (-1) needs W
      (S) held, a pitch input needs Q, E or LCtrl held, and `control` is
      LCtrl held. */
  predicate Consistent(c: Controls, held: set<Key>) {
    && -1 <= c.angleZMultiplier <= 1
    && (c.angleZMultiplier == 1 ==> A in held)
    && (c.angleZMultiplier == -1 ==> D in held)
    && -1 <= c.angleYMultiplier <= 1
    && (c.angleYMultiplier != 0 ==> Q in held || E in held || LCtrl in held)
    && -1 <= c.direction <= 1
    && (c.direction == 1 ==> W in held)
    && (c.direction == -1 ==> S in held)
    && (c.control <==> LCtrl in held)
  }

  /** At start no key is held and every input is zero. */
  lemma InitiallyConsistent()
    ensures Consistent(INITIAL_CONTROLS, {})
  {
  }

  /** With no tracked key held, consistent controls are the initial ones: the
      ship is steered only while keys are down. */
  lemma NothingHeldIsInitial(c: Controls, held: set<Key>)
    requires Consistent(c, held) && held <= {Other}
    ensures c == INITIAL_CONTROLS
  {
  }

  /** Each handler keeps the controls consistent with the keys held. */
  lemma HandleKeepsConsistent(c: Controls, held: set<Key>, e: Event)
    requires Consistent(c, held)
    requires e.KeyPress? && e.key != Other ==> e.key !in held
    ensures Consistent(Handle(c, e), Hold(held, e))
  {
  }

  /** Whatever the player does, the yaw input never leaves {-1, 0, 1} (pressing
      A twice needs a release of A in between, which resets it), nor do the
      pitch input and the direction; `control` is exactly "LCtrl is held". */
  lemma {:induction false} EventsKeepConsistent(c: Controls, held: set<Key>, events: seq<Event>)
    requires Consistent(c, held) && WellFormed(held, events)
    ensures Consistent(Feed(c, events), HeldAfter(held, events))
    decreases |events|
  {
    if events != [] {
      HandleKeepsConsistent(c, held, events[0]);
      EventsKeepConsistent(Handle(c, events[0]), Hold(held, events[0]), events[1..]);
    }
  }

  /** Without `WellFormed` the bound fails: two presses of A in a row give a
      yaw input of 2. */
  lemma DoublePressEscapes()
    ensures Feed(INITIAL_CONTROLS, [KeyPress(A), KeyPress(A)]).angleZMultiplier == 2
  {
  }

  /** `on_key_press`: R levels the pitch, the other keys set their input. */
  method OnKeyPress(a0: Airship, symbol: Key)
    requires a0.Valid()
    modifies a0
    ensures a0.Inputs() == Press(old(a0.Inputs()), symbol)
    ensures a0.State() == if symbol == R then old(a0.State()).(angleY := 0.0) else old(a0.State())
  {
    if symbol == R {
      a0.angleY := 0.0;
    }
    if symbol == A {
      a0.angleZMultiplier := a0.angleZMultiplier + 1;
    }
    if symbol == D {
      a0.angleZMultiplier := a0.angleZMultiplier - 1;
    }
    if symbol == W {
      a0.direction := 1;
    }
    if symbol == S {
      a0.direction := -1;
    }
    if symbol == Q {
      a0.angleYMultiplier := 1;
    }
    if symbol == E {
      a0.angleYMultiplier := -1;
    }
    if symbol == LCtrl {
      a0.control := true;
    }
  }

  /** `on_key_release`. */
  method OnKeyRelease(a0: Airship, symbol: Key)
    requires a0.Valid()
    modifies a0
    ensures a0.Inputs() == Release(old(a0.Inputs()), symbol)
    ensures a0.State() == old(a0.State())
  {
    if symbol == A {
      a0.angleZMultiplier := 0;
    }
    if symbol == D {
      a0.angleZMultiplier := 0;
    }
    if symbol == W {
      a0.direction := 0;
    }
    if symbol == S {
      a0.direction := 0;
    }
    if symbol == Q {
      a0.angleYMultiplier := 0;
    }
    if symbol == E {
      a0.angleYMultiplier := 0;
    }
    if symbol == LCtrl {
      a0.control := false;
      a0.angleYMultiplier := 0;
    }
  }

  /** `on_mouse_motion`; only the vertical movement `dy` is used. */
  method OnMouseMotion(a0: Airship, dy: int)
    requires a0.Valid()
    modifies a0
    ensures a0.Inputs() == Motion(old(a0.Inputs()), dy)
    ensures a0.State() == old(a0.State())
  {
    if dy > MOUSE_THRESHOLD {
      if a0.control {
        a0.angleYMultiplier := 1;
      }
    }
    if dy < -MOUSE_THRESHOLD {
      if a0.control {
        a0.angleYMultiplier := -1;
      }
    }
  }
}
