/** Values shared by both demos: 3-vectors, the trigonometric functions the
    source takes from numpy, Python's `int()` truncation of a float, and
    lists without repeated entries. */
module Geometry {

  /** numpy's `np.pi`, as a real (its rounding is not modelled). */
  const PI: real := 3.141592653589793

  function Abs(r: real): real {
    if r < 0.0 then -r else r
  }

  /** No two entries of `s` are the same (for objects: no aliasing). */
  predicate Distinct<T(==)>(s: seq<T>) {
    forall i, j :: 0 <= i < j < |s| ==> s[i] != s[j]
  }

  /** Appending an element that is not yet there keeps a sequence distinct. */
  lemma DistinctSnoc<T>(s: seq<T>, x: T)
    requires Distinct(s) && x !in s
    ensures Distinct(s + [x])
  {
  }

  /** A numpy 3-vector of floats, as reals. */
  datatype Vec3 = Vec3(x: real, y: real, z: real) {
    function Plus(v: Vec3): Vec3 {
      Vec3(x + v.x, y + v.y, z + v.z)
    }
    function Minus(v: Vec3): Vec3 {
      Vec3(x - v.x, y - v.y, z - v.z)
    }
  }

  /** Translating two points by the same offset keeps their difference. */
  lemma TranslationKeepsDifference(a: Vec3, b: Vec3, f: Vec3)
    ensures a.Plus(f).Minus(b.Plus(f)) == a.Minus(b)
  {
  }

  /** `np.sin` and `np.cos`, left uninterpreted: the model passes them around as
      values and assumes only what a lemma's `requires` states about them. */
  datatype Trig = Trig(sin: real -> real, cos: real -> real)

  /** Both functions stay within [-1, 1]. */
  ghost predicate Bounded(t: Trig) {
    && (forall a :: -1.0 <= t.sin(a) <= 1.0)
    && (forall a :: -1.0 <= t.cos(a) <= 1.0)
  }

  /** The identity sin(a)^2 + cos(a)^2 == 1. */
  ghost predicate Pythagorean(t: Trig) {
    forall a :: t.sin(a) * t.sin(a) + t.cos(a) * t.cos(a) == 1.0
  }

  /** A product with a factor in [-1, 1] is no larger in magnitude than the other factor. */
  lemma ScaledByUnit(a: real, u: real)
    requires -1.0 <= u <= 1.0
    ensures Abs(a * u) <= Abs(a)
  {
    if a >= 0.0 {
      assert a * u <= a * 1.0;
      assert a * u >= a * -1.0;
    } else {
      assert a * u >= a * 1.0;
      assert a * u <= a * -1.0;
    }
  }

  /** The same for two such factors, either sign. */
  lemma ScaledByUnits(a: real, u: real, v: real)
    requires -1.0 <= u <= 1.0 && -1.0 <= v <= 1.0
    ensures Abs(a * u * v) <= Abs(a)
    ensures Abs(a * u * v * -1.0) <= Abs(a)
  {
    ScaledByUnit(a, u);
    ScaledByUnit(a * u, v);
    AtMostChain(Abs(a * u * v), Abs(a * u), Abs(a));
    ScaledByUnit(a * u * v, -1.0);
    AtMostChain(Abs(a * u * v * -1.0), Abs(a * u * v), Abs(a));
  }

  /** Chains two comparisons; stated apart so that the solver sees the
      products above as opaque terms. */
  lemma AtMostChain(x: real, y: real, z: real)
    requires x <= y <= z
    ensures x <= z
  {
  }

  /** A step of length `delta` at azimuth phi and elevation theta, given the
      sines and cosines of the two angles: (-cos theta sin phi, cos theta cos phi,
      sin theta), scaled by `delta`. A step of length zero goes nowhere, and a
      level one (sin theta == 0) keeps the height. */
  function Spherical(delta: real, sinTheta: real, cosTheta: real, sinPhi: real, cosPhi: real): (v: Vec3)
    ensures delta == 0.0 ==> v == Vec3(0.0, 0.0, 0.0)
    ensures sinTheta == 0.0 ==> v.z == 0.0
  {
    Vec3(delta * cosTheta * sinPhi * -1.0, delta * cosTheta * cosPhi, delta * sinTheta)
  }

  /** With sines and cosines in [-1, 1], no component of the step exceeds |delta|. */
  lemma SphericalBounded(delta: real, sinTheta: real, cosTheta: real, sinPhi: real, cosPhi: real)
    requires -1.0 <= sinTheta <= 1.0 && -1.0 <= cosTheta <= 1.0
    requires -1.0 <= sinPhi <= 1.0 && -1.0 <= cosPhi <= 1.0
    ensures var v := Spherical(delta, sinTheta, cosTheta, sinPhi, cosPhi);
      Abs(v.x) <= Abs(delta) && Abs(v.y) <= Abs(delta) && Abs(v.z) <= Abs(delta)
  {
    ScaledByUnits(delta, cosTheta, sinPhi);
    ScaledByUnits(delta, cosTheta, cosPhi);
    ScaledByUnit(delta, sinTheta);
  }

  /** When both angles satisfy sin^2 + cos^2 == 1, the step has length |delta|. */
  lemma SphericalLength(delta: real, sinTheta: real, cosTheta: real, sinPhi: real, cosPhi: real)
    requires sinTheta * sinTheta + cosTheta * cosTheta == 1.0
    requires sinPhi * sinPhi + cosPhi * cosPhi == 1.0
    ensures var v := Spherical(delta, sinTheta, cosTheta, sinPhi, cosPhi);
      v.x * v.x + v.y * v.y + v.z * v.z == delta * delta
  {
    var v := Spherical(delta, sinTheta, cosTheta, sinPhi, cosPhi);
    calc {
      v.x * v.x + v.y * v.y + v.z * v.z;
      == delta * delta * (cosTheta * cosTheta * (sinPhi * sinPhi + cosPhi * cosPhi) + sinTheta * sinTheta);
      == delta * delta * (cosTheta * cosTheta + sinTheta * sinTheta);
      == delta * delta;
    }
  }

  /** Python's `int(r)` on a float: truncation toward zero. */
  function Trunc(r: real): (n: int)
    ensures Abs(r - n as real) < 1.0
    ensures 0.0 <= r ==> 0 <= n && n as real <= r
    ensures r <= 0.0 ==> n <= 0 && r <= n as real
  {
    if r >= 0.0 then r.Floor else -((-r).Floor)
  }
}
