/** The spiral garland: 400 points laid once on a conical coil around the tree, then
    rewritten every frame into a separate position buffer, pushed outwards and
    scattered while the tree is exploded, breathing gently while it is formed, and
    turned with the tree. */
module Garland {
  import opened Common

  const Count: nat := 400
  /** Winds of the coil over its 400 points. */
  const Winds: nat := 8
  /** Expansion above which the garland floats out. */
  const FloatThreshold: real := 0.05

  // ---------------------------------------------------------------------------
  // The coil

  /** `t = i / count`, from 0 at the bottom towards 1 at the top. */
  function CoilParameter(i: nat): real
  {
    i as real / Count as real
  }

  function CoilHeight(i: nat): real
  {
    CoilParameter(i) * 8.5 - 4.2
  }

  function CoilRadius(i: nat): real
  {
    4.0 * (1.0 - CoilParameter(i)) + 0.2
  }

  function CoilAngle(i: nat): real
  {
    CoilParameter(i) * Pi * 16.0
  }

  /** Point `i` of the initial spiral. */
  function CoilPoint(i: nat, m: MathLib): Vec3
  {
    Vec3(CoilRadius(i) * m.cos(CoilAngle(i)), CoilHeight(i), CoilRadius(i) * m.sin(CoilAngle(i)))
  }

  /** The coil rises from -4.2 to below 4.3 and narrows from 4.2 to above 0.2, both
      strictly monotonically in the point index. */
  lemma CoilRisesAndNarrows(i: nat, j: nat)
    requires i < j < Count
    ensures -4.2 <= CoilHeight(i) < CoilHeight(j) < 4.3
    ensures 4.2 >= CoilRadius(i) > CoilRadius(j) > 0.2
  {
    assert CoilParameter(i) < CoilParameter(j) < 1.0;
  }

  /** Fifty points make one wind, so the 400 points wind the coil 8 times. */
  lemma CoilWinds(i: nat)
    ensures CoilAngle(i + Count / Winds) == CoilAngle(i) + 2.0 * Pi
    ensures CoilAngle(Count) == Winds as real * (2.0 * Pi)
  {
  }

  /** Point `i` lies at the coil's radius from the vertical axis when the cosine and
      sine of its angle are an angle's; the first point is `(4.2, -4.2, 0)` when
      `cos 0 = 1` and `sin 0 = 0`. */
  lemma CoilPointOnCircle(i: nat, m: MathLib)
    requires IsCosSin(m.cos(CoilAngle(i)), m.sin(CoilAngle(i)))
    ensures PlanarNormSq(CoilPoint(i, m)) == CoilRadius(i) * CoilRadius(i)
    ensures CoilPoint(i, m).y == CoilHeight(i)
    ensures i == 0 && m.cos(0.0) == 1.0 && m.sin(0.0) == 0.0 ==> CoilPoint(i, m) == Vec3(4.2, -4.2, 0.0)
  {
    var r, c, s := CoilRadius(i), m.cos(CoilAngle(i)), m.sin(CoilAngle(i));
    calc {
      PlanarNormSq(CoilPoint(i, m));
    ==
      (r * c) * (r * c) + (r * s) * (r * s);
    ==
      r * r * (c * c + s * s);
    }
  }

  /** The first `n` points of `a` are the coil's. */
  ghost predicate CoilWritten(a: array<real>, n: nat, m: MathLib)
    reads a
  {
    3 * n <= a.Length && forall j :: 0 <= j < n ==> PointOf(a, j) == CoilPoint(j, m)
  }

  /** The `initialData` memo: a fresh buffer of 400 packed points, point `i` at slots
      `3i .. 3i+2` being the coil's point `i`. */
  method InitialData(m: MathLib) returns (pos: array<real>)
    ensures fresh(pos) && pos.Length == 3 * Count
    ensures forall i :: 0 <= i < Count ==> PointOf(pos, i) == CoilPoint(i, m)
  {
    pos := new real[3 * Count];
    for i := 0 to Count
      invariant CoilWritten(pos, i, m)
    {
      var t := i as real / Count as real;
      var y := t * 8.5 - 4.2;
      var r := 4.0 * (1.0 - t) + 0.2;
      var theta := t * Pi * 16.0;
      SetCoilPoint(pos, i, m, Vec3(r * m.cos(theta), y, r * m.sin(theta)));
    }
  }

  /** Writes coil point `i` after the `i` before it. */
  method SetCoilPoint(a: array<real>, i: nat, m: MathLib, v: Vec3)
    requires CoilWritten(a, i, m) && 3 * i + 2 < a.Length && v == CoilPoint(i, m)
    modifies a
    ensures CoilWritten(a, i + 1, m)
  {
    ghost var before := a[..];
    SetPoint(a, i, v);
    forall j | 0 <= j < i
      ensures PointOf(a, j) == CoilPoint(j, m)
    {
      assert a[3 * j] == before[3 * j] && a[3 * j + 1] == before[3 * j + 1] && a[3 * j + 2] == before[3 * j + 2];
    }
  }

  // ---------------------------------------------------------------------------
  // One frame

  /** The per-point effect before the tree rotation, for point `i` at rest position
      `p` at clock time `time`.  Above the threshold the point is pushed out by
      `1 + 2.5 e`, lifted by `sin(time + i) e`, and then scattered by `2e` times a
      cosine of the new height and a sine of the new `x`; otherwise `x` and `z` are
      scaled by the breath `1 + 0.02 sin(2 time + y)`. */
  function Displace(p: Vec3, i: nat, expansion: real, time: real, m: MathLib): Vec3
  {
    if expansion > FloatThreshold then
      var x1 := p.x * (1.0 + expansion * 2.5);
      var y1 := p.y + m.sin(time + i as real) * expansion;
      var z1 := p.z * (1.0 + expansion * 2.5);
      var x2 := x1 + m.cos(time + y1) * expansion * 2.0;
      var z2 := z1 + m.sin(time + x2) * expansion * 2.0;
      Vec3(x2, y1, z2)
    else
      var breath := Breath(p.y, time, m);
      Vec3(p.x * breath, p.y, p.z * breath)
  }

  function Breath(y: real, time: real, m: MathLib): real
  {
    1.0 + m.sin(time * 2.0 + y) * 0.02
  }

  /** Point `i`'s displayed position this frame. */
  function FramePoint(p: Vec3, i: nat, expansion: real, time: real, rotation: real, m: MathLib): Vec3
  {
    RotateY(Displace(p, i, expansion, time, m), m.cos(rotation), m.sin(rotation))
  }

  /** The first `n` points of `positions` are this frame's image of `initial`'s. */
  ghost predicate FrameWritten(initial: array<real>, positions: array<real>, n: nat,
                               expansion: real, time: real, rotation: real, m: MathLib)
    reads initial, positions
  {
    3 * n <= initial.Length && 3 * n <= positions.Length
    && forall j :: 0 <= j < n ==>
         PointOf(positions, j) == FramePoint(PointOf(initial, j), j, expansion, time, rotation, m)
  }

  /** The garland's `useFrame`: without a geometry nothing happens; otherwise every
      point of `positions` is rewritten from the rest buffer, so the result does not
      depend on what the buffer held before. */
  method UpdateGarland(initial: array<real>, positions: array<real>, hasGeometry: bool,
                       expansion: real, time: real, rotation: real, m: MathLib)
    requires initial.Length == 3 * Count && positions.Length == 3 * Count && initial != positions
    modifies positions
    ensures !hasGeometry ==> unchanged(positions)
    ensures hasGeometry ==> forall i :: 0 <= i < Count ==>
              PointOf(positions, i) == FramePoint(PointOf(initial, i), i, expansion, time, rotation, m)
  {
    if !hasGeometry {
      return;
    }
    for i := 0 to Count
      invariant FrameWritten(initial, positions, i, expansion, time, rotation, m)
    {
      var ix := i * 3;
      var v := FramePointOf(Vec3(initial[ix], initial[ix + 1], initial[ix + 2]), i, expansion, time, rotation, m);
      SetFramePoint(initial, positions, i, expansion, time, rotation, m, v);
    }
  }

  /** The loop body's computation for one point: the effect, then the tree rotation. */
  method FramePointOf(p: Vec3, i: nat, expansion: real, time: real, rotation: real, m: MathLib) returns (v: Vec3)
    ensures v == FramePoint(p, i, expansion, time, rotation, m)
  {
    var d := DisplacePoint(p, i, expansion, time, m);
    v := RotatePoint(d, rotation, m);
  }

  /** The rotation block of the loop body. */
  method RotatePoint(d: Vec3, rotation: real, m: MathLib) returns (v: Vec3)
    ensures v == RotateY(d, m.cos(rotation), m.sin(rotation))
  {
    var x, y, z := d.x, d.y, d.z;
    var rot := rotation;
    var rx := x * m.cos(rot) - z * m.sin(rot);
    var rz := x * m.sin(rot) + z * m.cos(rot);
    v := Vec3(rx, y, rz);
  }

  /** The effect block of the loop body for one point. */
  method DisplacePoint(p: Vec3, i: nat, expansion: real, time: real, m: MathLib) returns (v: Vec3)
    ensures v == Displace(p, i, expansion, time, m)
  {
    ghost var d := Displace(p, i, expansion, time, m);
    var x, y, z := p.x, p.y, p.z;
    if expansion > 0.05 {
      x := x * (1.0 + expansion * 2.5);
      y := y + m.sin(time + i as real) * expansion;
      z := z * (1.0 + expansion * 2.5);
      x := x + m.cos(time + y) * expansion * 2.0;
      assert x == d.x && y == d.y;
      z := z + m.sin(time + x) * expansion * 2.0;
      assert z == d.z;
    } else {
      var breath := 1.0 + m.sin(time * 2.0 + y) * 0.02;
      x := x * breath;
      z := z * breath;
      assert x == d.x && y == d.y && z == d.z;
    }
    v := Vec3(x, y, z);
  }

  /** Writes point `i` of this frame after the `i` before it. */
  method SetFramePoint(initial: array<real>, positions: array<real>, i: nat,
                       expansion: real, time: real, rotation: real, m: MathLib, v: Vec3)
    requires initial != positions && 3 * i + 2 < initial.Length && 3 * i + 2 < positions.Length
    requires FrameWritten(initial, positions, i, expansion, time, rotation, m)
    requires v == FramePoint(PointOf(initial, i), i, expansion, time, rotation, m)
    modifies positions
    ensures FrameWritten(initial, positions, i + 1, expansion, time, rotation, m)
  {
    ghost var before := positions[..];
    SetPoint(positions, i, v);
    forall j | 0 <= j < i
      ensures PointOf(positions, j) == FramePoint(PointOf(initial, j), j, expansion, time, rotation, m)
    {
      assert positions[3 * j] == before[3 * j];
      assert positions[3 * j + 1] == before[3 * j + 1];
      assert positions[3 * j + 2] == before[3 * j + 2];
    }
  }

  // ---------------------------------------------------------------------------
  // What a frame does to a point

  /** Formed tree: the height is untouched and the distance from the axis is scaled
      by the breath, which stays within 2% of 1 when the sine is in [-1, 1]. */
  lemma FormedGarlandBreathes(p: Vec3, i: nat, expansion: real, time: real, rotation: real, m: MathLib)
    requires expansion <= FloatThreshold
    requires IsCosSin(m.cos(rotation), m.sin(rotation))
    requires -1.0 <= m.sin(time * 2.0 + p.y) <= 1.0
    ensures var q, b := FramePoint(p, i, expansion, time, rotation, m), Breath(p.y, time, m);
            q.y == p.y && 0.98 <= b <= 1.02 && PlanarNormSq(q) == b * b * PlanarNormSq(p)
  {
    var d := Displace(p, i, expansion, time, m);
    var b := Breath(p.y, time, m);
    RotateYPreserves(d, m.cos(rotation), m.sin(rotation));
    assert PlanarNormSq(d) == (p.x * b) * (p.x * b) + (p.z * b) * (p.z * b);
  }

  /** Exploded tree: the height moves by at most the expansion, and each of `x` and
      `z` lands within `2e` of its rest value pushed out by `1 + 2.5e`, when the sines
      and cosines involved are in [-1, 1]; the rotation then keeps the height and the
      distance from the axis. */
  lemma ExplodedGarlandDrifts(p: Vec3, i: nat, expansion: real, time: real, rotation: real, m: MathLib)
    requires expansion > FloatThreshold
    requires IsCosSin(m.cos(rotation), m.sin(rotation))
    requires var d := Displace(p, i, expansion, time, m);
             -1.0 <= m.sin(time + i as real) <= 1.0
             && -1.0 <= m.cos(time + d.y) <= 1.0 && -1.0 <= m.sin(time + d.x) <= 1.0
    ensures var d, q := Displace(p, i, expansion, time, m), FramePoint(p, i, expansion, time, rotation, m);
            var push := 1.0 + expansion * 2.5;
            p.y - expansion <= d.y <= p.y + expansion
            && p.x * push - 2.0 * expansion <= d.x <= p.x * push + 2.0 * expansion
            && p.z * push - 2.0 * expansion <= d.z <= p.z * push + 2.0 * expansion
            && q.y == d.y && PlanarNormSq(q) == PlanarNormSq(d)
  {
    ExplodedHeight(p, i, expansion, time, m);
    ExplodedSpread(p, i, expansion, time, m);
    RotateYPreserves(Displace(p, i, expansion, time, m), m.cos(rotation), m.sin(rotation));
  }

  lemma ExplodedHeight(p: Vec3, i: nat, expansion: real, time: real, m: MathLib)
    requires expansion > FloatThreshold
    requires -1.0 <= m.sin(time + i as real) <= 1.0
    ensures var d := Displace(p, i, expansion, time, m);
            p.y - expansion <= d.y <= p.y + expansion
  {
    Within(p.y, Displace(p, i, expansion, time, m).y, m.sin(time + i as real), expansion);
  }

  lemma Within(base: real, v: real, s: real, e: real)
    requires v == base + s * e && -1.0 <= s <= 1.0 && 0.0 <= e
    ensures base - e <= v <= base + e
  {
    BoundedScale(s, e);
  }

  lemma ExplodedSpread(p: Vec3, i: nat, expansion: real, time: real, m: MathLib)
    requires expansion > FloatThreshold
    requires var d := Displace(p, i, expansion, time, m);
             -1.0 <= m.cos(time + d.y) <= 1.0 && -1.0 <= m.sin(time + d.x) <= 1.0
    ensures var d, push := Displace(p, i, expansion, time, m), 1.0 + expansion * 2.5;
            p.x * push - 2.0 * expansion <= d.x <= p.x * push + 2.0 * expansion
            && p.z * push - 2.0 * expansion <= d.z <= p.z * push + 2.0 * expansion
  {
    var d := Displace(p, i, expansion, time, m);
    ExplodedSpreadX(p, i, expansion, time, m, d.y);
    ExplodedSpreadZ(p, i, expansion, time, m, d.x);
  }

  lemma ExplodedSpreadX(p: Vec3, i: nat, expansion: real, time: real, m: MathLib, y1: real)
    requires expansion > FloatThreshold
    requires y1 == Displace(p, i, expansion, time, m).y && -1.0 <= m.cos(time + y1) <= 1.0
    ensures var x1 := p.x * (1.0 + expansion * 2.5);
            x1 - 2.0 * expansion <= Displace(p, i, expansion, time, m).x <= x1 + 2.0 * expansion
  {
    var x1 := p.x * (1.0 + expansion * 2.5);
    var cx := m.cos(time + y1);
    assert Displace(p, i, expansion, time, m).x == x1 + cx * expansion * 2.0;
    DoubleDrift(x1, cx, expansion);
  }

  lemma ExplodedSpreadZ(p: Vec3, i: nat, expansion: real, time: real, m: MathLib, x2: real)
    requires expansion > FloatThreshold
    requires x2 == Displace(p, i, expansion, time, m).x && -1.0 <= m.sin(time + x2) <= 1.0
    ensures var z1 := p.z * (1.0 + expansion * 2.5);
            z1 - 2.0 * expansion <= Displace(p, i, expansion, time, m).z <= z1 + 2.0 * expansion
  {
    var z1 := p.z * (1.0 + expansion * 2.5);
    var sz := m.sin(time + x2);
    assert Displace(p, i, expansion, time, m).z == z1 + sz * expansion * 2.0;
    DoubleDrift(z1, sz, expansion);
  }

  /** `base + s * e * 2` is within `2e` of `base` for `s` in [-1, 1]. */
  lemma DoubleDrift(base: real, s: real, e: real)
    requires -1.0 <= s <= 1.0 && 0.0 <= e
    ensures base - 2.0 * e <= base + s * e * 2.0 <= base + 2.0 * e
  {
    BoundedScale(s, e);
  }

  lemma BoundedScale(s: real, k: real)
    requires -1.0 <= s <= 1.0 && 0.0 <= k
    ensures -k <= s * k <= k
  {
    MulNonNegative(1.0 - s, k);
    MulNonNegative(1.0 + s, k);
  }
}
