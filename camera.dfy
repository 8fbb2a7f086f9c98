/** The 3D demo's camera: base `at`/`eye`/`up` vectors, a follow step that
    translates the first two by the followed position, and a choice between
    the two projections by list index. */
module SceneCamera {
  import opened Geometry

  datatype Option<T> = None | Some(value: T)

  /** The window the perspective's aspect ratio is taken from. */
  const WIDTH: real := 1000.0
  const HEIGHT: real := 700.0

  /** A projection, kept as the arguments of the transformation that builds it. */
  datatype Projection =
    | Perspective(fovy: real, aspect: real, near: real, far: real)
    | Orthographic(left: real, right: real, bottom: real, top: real, near: real, far: real)

  const PERSPECTIVE_PROJECTION: int := 0
  const ORTOGRAPHIC_PROJECTION: int := 1

  /** The module-level list of projections, perspective first. */
  const PROJECTIONS: seq<Projection> := [
    Perspective(60.0, WIDTH / HEIGHT, 0.1, 100.0),
    Orthographic(-8.0, 8.0, -8.0, 8.0, 0.1, 100.0)
  ]

  /** Python's `s[i]` on a list: a negative index counts from the end, and an
      index outside [-|s|, |s|) raises, here `None`. */
  function PyIndex<T>(s: seq<T>, i: int): (r: Option<T>)
    ensures r.Some? <==> -|s| <= i < |s|
    ensures 0 <= i < |s| ==> r == Some(s[i])
    ensures -|s| <= i < 0 ==> r == Some(s[|s| + i])
  {
    if 0 <= i < |s| then Some(s[i])
    else if -|s| <= i < 0 then Some(s[|s| + i])
    else None
  }

  /** Indexing from the end names the same element as the index it stands for. */
  lemma PyIndexFromEnd<T>(s: seq<T>, i: int)
    requires 0 <= i < |s|
    ensures PyIndex(s, i - |s|) == PyIndex(s, i) == Some(s[i])
  {
  }

  /** The two valid positive indices pick the perspective and the orthographic
      projection, and every other index but -1 and -2 fails. */
  lemma ProjectionChoices(i: int)
    ensures PyIndex(PROJECTIONS, PERSPECTIVE_PROJECTION) == Some(PROJECTIONS[0])
    ensures PROJECTIONS[PERSPECTIVE_PROJECTION].Perspective?
    ensures PROJECTIONS[ORTOGRAPHIC_PROJECTION].Orthographic?
    ensures PyIndex(PROJECTIONS, i).Some? <==> -2 <= i <= 1
  {
  }

  /** The follow rule: the point `at` and the position `eye` of the camera
      for base vectors `at0`, `eye0` and a followed position `f`. */
  function Follow(base: Vec3, f: Vec3): (r: Vec3)
    ensures r.Minus(base) == f
  {
    base.Plus(f)
  }

  /** Following keeps the direction the camera looks along: `at - eye` is the
      same for every followed position. */
  lemma FollowKeepsSightLine(at0: Vec3, eye0: Vec3, f: Vec3)
    ensures Follow(at0, f).Minus(Follow(eye0, f)) == at0.Minus(eye0)
  {
    TranslationKeepsDifference(at0, eye0, f);
  }

  /** The global `camera`. */
  class Camera {
    const at0: Vec3
    const eye0: Vec3
    const up0: Vec3
    const availableProjections: seq<Projection>
    var projection: Projection
    /** Set only by `update`: before its first call these attributes do not exist. */
    var at: Option<Vec3>
    var eye: Option<Vec3>
    var up: Option<Vec3>

    /** Keeps the base vectors and starts with the projection at index 1, the
        orthographic one. */
    constructor (at: Vec3, eye: Vec3, up: Vec3)
      ensures at0 == at && eye0 == eye && up0 == up
      ensures availableProjections == PROJECTIONS
      ensures projection == PROJECTIONS[ORTOGRAPHIC_PROJECTION] && projection.Orthographic?
      ensures this.at == None && this.eye == None && this.up == None
    {
      at0, eye0, up0 := at, eye, up;
      availableProjections := PROJECTIONS;
      projection := PROJECTIONS[1];
      this.at, this.eye, this.up := None, None, None;
    }

    /** `set_projection(i)`: the projection at index `i` of the available
        list. An index that raises leaves the camera as it was, reported by
        `ok == false`. */
    method SetProjection(i: int) returns (ok: bool)
      modifies this
      ensures ok <==> -|availableProjections| <= i < |availableProjections|
      ensures ok ==> Some(projection) == PyIndex(availableProjections, i)
      ensures !ok ==> projection == old(projection)
      ensures at == old(at) && eye == old(eye) && up == old(up)
    {
      var p := PyIndex(availableProjections, i);
      if p.Some? {
        projection := p.value;
        ok := true;
      } else {
        ok := false;
      }
    }

    /** `update(f)`: `at` and `eye` follow `f` from their base vectors, `up` is the base `up`. */
    method Update(f: Vec3)
      modifies this
      ensures at == Some(Follow(at0, f)) && eye == Some(Follow(eye0, f)) && up == Some(up0)
      ensures projection == old(projection)
    {
      at := Some(at0.Plus(f));
      eye := Some(eye0.Plus(f));
      up := Some(up0);
    }
  }
}
