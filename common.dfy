/** Values shared by every part of the interaction and animation engine:
    an optional value, 3D vectors, the JavaScript `Math` functions taken as
    uninterpreted total functions, linear interpolation and the rotation of a
    point about the vertical axis. */
module Common {

  datatype Option<+T> = None | Some(value: T)

  datatype Vec3 = Vec3(x: real, y: real, z: real)

  /** Component `c` (0, 1 or 2) of a vector: the layout of one entity's three
      consecutive slots in a flat position buffer. */
  function Component(v: Vec3, c: int): real
  {
    if c == 0 then v.x else if c == 1 then v.y else v.z
  }

  /** The three slots of point `j` of a packed xyz buffer. */
  function PointOf(a: array<real>, j: nat): Vec3
    requires 3 * j + 2 < a.Length
    reads a
  {
    Vec3(a[3 * j], a[3 * j + 1], a[3 * j + 2])
  }

  /** `a[3i] = v.x; a[3i+1] = v.y; a[3i+2] = v.z`, leaving every other slot alone. */
  method SetPoint(a: array<real>, i: nat, v: Vec3)
    requires 3 * i + 2 < a.Length
    modifies a
    ensures PointOf(a, i) == v
    ensures forall k :: 0 <= k < a.Length && (k < 3 * i || 3 * i + 2 < k) ==> a[k] == old(a[k])
  {
    var i3 := 3 * i;
    a[i3] := v.x;
    a[i3 + 1] := v.y;
    a[i3 + 2] := v.z;
  }

  /** The floating-point `Math` functions the engine calls.  Their values are not
      modelled; every property that relies on one states the fact it needs about
      the particular argument as a hypothesis. */
  datatype MathLib = MathLib(
    sin: real -> real,
    cos: real -> real,
    sqrt: real -> real,
    pow: (real, real) -> real,
    acos: real -> real)

  /** The double nearest to pi, as `Math.PI` holds it. */
  const Pi: real := 3.141592653589793

  /** A value `Math.random()` can return. */
  predicate Unit(u: real)
  {
    0.0 <= u < 1.0
  }

  /** Every draw of an injected random stream is a value `Math.random()` can return. */
  predicate AllUnit(draws: seq<real>)
  {
    forall k :: 0 <= k < |draws| ==> Unit(draws[k])
  }

  /** `c` and `s` are the cosine and sine of one angle. */
  predicate IsCosSin(c: real, s: real)
  {
    c * c + s * s == 1.0
  }

  /** `THREE.MathUtils.lerp(x, y, t) = (1 - t) * x + t * y`; `t` is not clamped. */
  function Lerp(x: real, y: real, t: real): real
  {
    (1.0 - t) * x + t * y
  }

  /** The interpolant covers the fraction `t` of the way from `x` to `y` and leaves
      the fraction `1 - t` of it. */
  lemma LerpGap(x: real, y: real, t: real)
    ensures Lerp(x, y, t) - x == t * (y - x)
    ensures y - Lerp(x, y, t) == (1.0 - t) * (y - x)
  {
    assert (1.0 - t) * x + t * y - x == t * y - t * x;
    assert t * y - t * x == t * (y - x);
    assert y - ((1.0 - t) * x + t * y) == (1.0 - t) * y - (1.0 - t) * x;
    assert (1.0 - t) * y - (1.0 - t) * x == (1.0 - t) * (y - x);
  }

  lemma MulNonNegative(a: real, b: real)
    requires 0.0 <= a && 0.0 <= b
    ensures 0.0 <= a * b
  {
  }

  /** For a factor in [0, 1] the interpolant lies between its end points. */
  lemma LerpBetween(x: real, y: real, t: real)
    requires 0.0 <= t <= 1.0
    ensures x <= y ==> x <= Lerp(x, y, t) <= y
    ensures y <= x ==> y <= Lerp(x, y, t) <= x
  {
    LerpGap(x, y, t);
    if x <= y {
      MulNonNegative(t, y - x);
      MulNonNegative(1.0 - t, y - x);
    } else {
      MulNonNegative(t, x - y);
      MulNonNegative(1.0 - t, x - y);
      assert t * (y - x) == -(t * (x - y));
      assert (1.0 - t) * (y - x) == -((1.0 - t) * (x - y));
    }
  }

  /** `Vector3.lerpVectors(a, b, t)`: `a + (b - a) * t` per component. */
  function LerpVec(a: Vec3, b: Vec3, t: real): Vec3
  {
    Vec3(a.x + (b.x - a.x) * t, a.y + (b.y - a.y) * t, a.z + (b.z - a.z) * t)
  }

  /** `lerpVectors` is `MathUtils.lerp` applied per component. */
  lemma LerpVecIsLerp(a: Vec3, b: Vec3, t: real)
    ensures LerpVec(a, b, t) == Vec3(Lerp(a.x, b.x, t), Lerp(a.y, b.y, t), Lerp(a.z, b.z, t))
  {
    LerpGap(a.x, b.x, t);
    LerpGap(a.y, b.y, t);
    LerpGap(a.z, b.z, t);
  }

  /** Rotation about the vertical axis by the angle whose cosine is `c` and sine is `s`:
      `x' = x cos - z sin`, `z' = x sin + z cos`, `y` untouched. */
  function RotateY(v: Vec3, c: real, s: real): Vec3
  {
    Vec3(v.x * c - v.z * s, v.y, v.x * s + v.z * c)
  }

  function PlanarNormSq(v: Vec3): real
  {
    v.x * v.x + v.z * v.z
  }

  /** A rotation about the vertical axis keeps the height and the distance from the axis. */
  lemma RotateYPreserves(v: Vec3, c: real, s: real)
    requires IsCosSin(c, s)
    ensures RotateY(v, c, s).y == v.y
    ensures PlanarNormSq(RotateY(v, c, s)) == PlanarNormSq(v)
  {
    var r := RotateY(v, c, s);
    calc {
      PlanarNormSq(r);
    ==
      (v.x * c - v.z * s) * (v.x * c - v.z * s) + (v.x * s + v.z * c) * (v.x * s + v.z * c);
    ==
      v.x * v.x * (c * c + s * s) + v.z * v.z * (c * c + s * s);
    ==
      PlanarNormSq(v);
    }
  }
}
