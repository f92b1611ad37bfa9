/** The photo ornaments: where `photoData` places each photo on the formed and on
    the exploded tree, and the CPU position pipeline that moves an ornament every
    frame (blend, animate, rotate with the tree). */
module Photos {
  import opened Common
  import Selection

  const TreeHeight: real := 7.5
  const BaseRadius: real := 3.2
  /** Random draws consumed per photo by `photoData`. */
  const DrawsPerPhoto: nat := 7
  /** Share of the way towards the exploded position the blend may go. */
  const BlendCap: real := 0.95
  /** Above this expansion the ornament floats; at or below it, it bobs. */
  const FloatThreshold: real := 0.05

  /** One element of `photoData`. */
  datatype PhotoEntry = PhotoEntry(url: string, initialPos: Vec3, explosionPos: Vec3, rotationOffset: real)

  /** Height band of a photo as a fraction of the tree, from its first draw. */
  function PhotoYNorm(u: real): real
  {
    0.2 + u * 0.6
  }

  /** Radius of the tree's cone at a photo's height fraction, plus a 0.5 margin. */
  function PhotoRMax(yNorm: real): real
  {
    BaseRadius * (1.0 - yNorm) + 0.5
  }

  /** The entry `photoData` builds for `url` from its seven draws `d`, in the order
      the source calls `Math.random()`. */
  function PhotoEntryOf(url: string, d: seq<real>, m: MathLib): PhotoEntry
    requires |d| == DrawsPerPhoto
  {
    var yNorm := PhotoYNorm(d[0]);
    var y := yNorm * TreeHeight - TreeHeight / 2.0;
    var r := PhotoRMax(yNorm) * (0.8 + d[1] * 0.2);
    var theta := d[2] * Pi * 2.0;
    var exR := 8.0 + d[3] * 5.0;
    var exTheta := d[4] * Pi * 2.0;
    var exPhi := m.acos(2.0 * d[5] - 1.0);
    PhotoEntry(
      url,
      Vec3(r * m.cos(theta), y, r * m.sin(theta)),
      Vec3(exR * m.sin(exPhi) * m.cos(exTheta), exR * m.sin(exPhi) * m.sin(exTheta), exR * m.cos(exPhi)),
      d[6] * Pi)
  }

  /** `urls.map(...)` drawing seven values per photo, in order. */
  function PhotoDataFrom(urls: seq<string>, draws: seq<real>, m: MathLib): (r: seq<PhotoEntry>)
    requires |draws| >= DrawsPerPhoto * |urls|
    ensures |r| == |urls|
    ensures forall i :: 0 <= i < |urls| ==>
              r[i] == PhotoEntryOf(urls[i], draws[DrawsPerPhoto * i .. DrawsPerPhoto * i + DrawsPerPhoto], m)
    decreases |urls|
  {
    if urls == [] then []
    else
      var rest := PhotoDataFrom(urls[1..], draws[DrawsPerPhoto..], m);
      assert forall i :: 1 <= i < |urls| ==>
               draws[DrawsPerPhoto..][DrawsPerPhoto * (i - 1) .. DrawsPerPhoto * (i - 1) + DrawsPerPhoto]
               == draws[DrawsPerPhoto * i .. DrawsPerPhoto * i + DrawsPerPhoto];
      [PhotoEntryOf(urls[0], draws[..DrawsPerPhoto], m)] + rest
  }

  /** `photoData`: one entry per distinct catalogue url, in catalogue order. */
  function PhotoData(draws: seq<real>, m: MathLib): seq<PhotoEntry>
    requires |draws| >= DrawsPerPhoto * |Selection.PhotoUrls|
  {
    PhotoDataFrom(Selection.PhotoOrder(), draws, m)
  }

  /** Every distinct catalogue url gets exactly one ornament, in order of first
      occurrence, so the hovered index of a photo is the index of its ornament.
      With the catalogue having no repeats (`Selection.PhotoOrderIsCatalogue`) these
      are the 20 catalogue photos in catalogue order. */
  lemma PhotoDataOnePerPhoto(draws: seq<real>, m: MathLib)
    requires |draws| >= DrawsPerPhoto * |Selection.PhotoUrls|
    ensures |PhotoData(draws, m)| == |Selection.PhotoOrder()|
    ensures forall i :: 0 <= i < |PhotoData(draws, m)| ==>
              PhotoData(draws, m)[i].url == Selection.PhotoOrder()[i]
              && Selection.FindIndex(Selection.PhotoOrder(), PhotoData(draws, m)[i].url) == i
  {
    Selection.DedupCharacterized(Selection.PhotoUrls);
    EntriesIndexed(Selection.PhotoOrder(), draws, m);
  }

  /** Over distinct urls, entry `i` carries url `i` and is found at index `i`. */
  lemma EntriesIndexed(urls: seq<string>, draws: seq<real>, m: MathLib)
    requires |draws| >= DrawsPerPhoto * |urls| && Selection.NoDuplicates(urls)
    ensures forall i :: 0 <= i < |urls| ==>
              PhotoDataFrom(urls, draws, m)[i].url == urls[i]
              && Selection.FindIndex(urls, PhotoDataFrom(urls, draws, m)[i].url) == i
  {
    forall i | 0 <= i < |urls|
      ensures Selection.FindIndex(urls, urls[i]) == i
    {
      var r := Selection.FindIndex(urls, urls[i]);
    }
  }

  lemma MulLe(p: real, q: real, c: real)
    requires 0.0 <= c && p <= q
    ensures p * c <= q * c
  {
  }

  lemma MulLt(p: real, q: real, c: real)
    requires 0.0 < c && p < q
    ensures p * c < q * c
  {
  }

  /** With every draw a `Math.random()` value: the photo sits in the middle 60% of the
      tree's height, `y` in [-2.25, 2.25); its distance from the axis is between 80%
      and 100% of the cone radius plus margin, which lies in (1.14, 3.06]; it lies on
      that circle when the cosine and sine of its angle are one angle's; and its spin
      offset is in [0, pi). */
  lemma PhotoPlacement(url: string, d: seq<real>, m: MathLib)
    requires |d| == DrawsPerPhoto && AllUnit(d)
    requires IsCosSin(m.cos(d[2] * Pi * 2.0), m.sin(d[2] * Pi * 2.0))
    ensures var p := PhotoEntryOf(url, d, m);
            var yNorm := PhotoYNorm(d[0]);
            var r := PhotoRMax(yNorm) * (0.8 + d[1] * 0.2);
            p.url == url
            && -2.25 <= p.initialPos.y < 2.25
            && 1.14 < PhotoRMax(yNorm) <= 3.06
            && 0.8 * PhotoRMax(yNorm) <= r < PhotoRMax(yNorm)
            && PlanarNormSq(p.initialPos) == r * r
            && 0.0 <= p.rotationOffset < Pi
  {
    assert Unit(d[0]) && Unit(d[1]) && Unit(d[6]);
    var yNorm := PhotoYNorm(d[0]);
    var rMax := PhotoRMax(yNorm);
    var f := 0.8 + d[1] * 0.2;
    var r := rMax * f;
    MulLe(0.8, f, rMax);
    assert 1.14 < rMax;
    MulLt(f, 1.0, rMax);
    var theta := d[2] * Pi * 2.0;
    var c, s := m.cos(theta), m.sin(theta);
    calc {
      PlanarNormSq(PhotoEntryOf(url, d, m).initialPos);
    ==
      (r * c) * (r * c) + (r * s) * (r * s);
    ==
      r * r * (c * c + s * s);
    ==
      r * r;
    }
  }

  /** The exploded position lies on the sphere of radius `exR` in [8, 13) when the
      cosines and sines of its two angles are genuine pairs. */
  lemma ExplosionOnSphere(url: string, d: seq<real>, m: MathLib)
    requires |d| == DrawsPerPhoto && AllUnit(d)
    requires IsCosSin(m.cos(d[4] * Pi * 2.0), m.sin(d[4] * Pi * 2.0))
    requires IsCosSin(m.cos(m.acos(2.0 * d[5] - 1.0)), m.sin(m.acos(2.0 * d[5] - 1.0)))
    ensures var e := PhotoEntryOf(url, d, m).explosionPos;
            var exR := 8.0 + d[3] * 5.0;
            8.0 <= exR < 13.0 && e.x * e.x + e.y * e.y + e.z * e.z == exR * exR
  {
    assert Unit(d[3]);
    var exR := 8.0 + d[3] * 5.0;
    var ct, st := m.cos(d[4] * Pi * 2.0), m.sin(d[4] * Pi * 2.0);
    var phi := m.acos(2.0 * d[5] - 1.0);
    var cp, sp := m.cos(phi), m.sin(phi);
    var e := PhotoEntryOf(url, d, m).explosionPos;
    assert e == Vec3(exR * sp * ct, exR * sp * st, exR * cp);
    calc {
      e.x * e.x + e.y * e.y + e.z * e.z;
    ==
      (exR * sp * ct) * (exR * sp * ct) + (exR * sp * st) * (exR * sp * st) + (exR * cp) * (exR * cp);
    ==
      exR * exR * (sp * sp * (ct * ct + st * st) + cp * cp);
    ==
      exR * exR * (sp * sp + cp * cp);
    ==
      exR * exR;
    }
  }

  // ---------------------------------------------------------------------------
  // The per-frame CPU position of one ornament

  /** The blend factor `expansion * 0.95`. */
  function BlendFactor(expansion: real): real
  {
    expansion * BlendCap
  }

  /** `lerpVectors(initialPos, explosionPos, expansion * 0.95)`. */
  function Blend(p: PhotoEntry, expansion: real): Vec3
  {
    LerpVec(p.initialPos, p.explosionPos, BlendFactor(expansion))
  }

  /** The animated position before the tree rotation: floating on all three axes when
      exploded, bobbing vertically when formed. */
  function Animated(p: PhotoEntry, expansion: real, time: real, m: MathLib): Vec3
  {
    var b := Blend(p, expansion);
    if expansion > FloatThreshold then
      Vec3(b.x + m.cos(time * 0.8) * expansion * 1.5,
           b.y + m.sin(time * 0.5) * expansion * 1.0,
           b.z + m.sin(time + 2.0) * expansion * 1.5)
    else
      b.(y := b.y + m.sin(time + p.initialPos.y) * 0.1)
  }

  /** The ornament's `position` for the frame: the animated point rotated about the
      vertical axis by the tree's rotation. */
  function OrnamentPosition(p: PhotoEntry, expansion: real, time: real, treeRotation: real, m: MathLib): Vec3
  {
    RotateY(Animated(p, expansion, time, m), m.cos(treeRotation), m.sin(treeRotation))
  }

  /** A fully formed tree blends to the initial position; for an expansion in [0, 1]
      the factor is in [0, 0.95] and each coordinate of the blend lies between the
      initial and the exploded one. */
  lemma BlendRange(p: PhotoEntry, expansion: real)
    ensures expansion == 0.0 ==> Blend(p, expansion) == p.initialPos
    ensures 0.0 <= expansion <= 1.0 ==>
              0.0 <= BlendFactor(expansion) <= 0.95
              && Between(p.initialPos.x, Blend(p, expansion).x, p.explosionPos.x)
              && Between(p.initialPos.y, Blend(p, expansion).y, p.explosionPos.y)
              && Between(p.initialPos.z, Blend(p, expansion).z, p.explosionPos.z)
  {
    var t := BlendFactor(expansion);
    LerpVecIsLerp(p.initialPos, p.explosionPos, t);
    if 0.0 <= expansion <= 1.0 {
      LerpBetween(p.initialPos.x, p.explosionPos.x, t);
      LerpBetween(p.initialPos.y, p.explosionPos.y, t);
      LerpBetween(p.initialPos.z, p.explosionPos.z, t);
    }
  }

  /** `v` lies between `a` and `b`, whichever is larger. */
  predicate Between(a: real, v: real, b: real)
  {
    (a <= v <= b) || (b <= v <= a)
  }

  /** A value a sine or cosine can take. */
  predicate InUnitBand(v: real)
  {
    -1.0 <= v <= 1.0
  }

  /** In the formed branch (expansion at most 0.05) only the height moves, by at most
      0.1 when the sine is; in the floating branch each axis moves by at most 1.5,
      1 and 1.5 times the expansion when the cosine and sines are in [-1, 1]. */
  lemma AnimationOffsets(p: PhotoEntry, expansion: real, time: real, m: MathLib)
    ensures var a, b := Animated(p, expansion, time, m), Blend(p, expansion);
            expansion <= 0.05 ==>
              a.x == b.x && a.z == b.z
              && (InUnitBand(m.sin(time + p.initialPos.y)) ==> -0.1 <= a.y - b.y <= 0.1)
    ensures var a, b := Animated(p, expansion, time, m), Blend(p, expansion);
            expansion > 0.05
            && InUnitBand(m.cos(time * 0.8)) && InUnitBand(m.sin(time * 0.5)) && InUnitBand(m.sin(time + 2.0))
            ==> -1.5 * expansion <= a.x - b.x <= 1.5 * expansion
                && -expansion <= a.y - b.y <= expansion
                && -1.5 * expansion <= a.z - b.z <= 1.5 * expansion
  {
    var a, b := Animated(p, expansion, time, m), Blend(p, expansion);
    if expansion > 0.05 {
      var c1, s1, s2 := m.cos(time * 0.8), m.sin(time * 0.5), m.sin(time + 2.0);
      assert a.x - b.x == c1 * (expansion * 1.5);
      assert a.y - b.y == s1 * expansion;
      assert a.z - b.z == s2 * (expansion * 1.5);
      if InUnitBand(c1) && InUnitBand(s1) && InUnitBand(s2) {
        BandScale(c1, expansion * 1.5);
        BandScale(s1, expansion);
        BandScale(s2, expansion * 1.5);
      }
    } else {
      var s := m.sin(time + p.initialPos.y);
      assert a.y - b.y == s * 0.1;
    }
  }

  lemma BandScale(v: real, k: real)
    requires InUnitBand(v) && 0.0 <= k
    ensures -k <= v * k <= k
  {
    MulNonNegative(1.0 - v, k);
    MulNonNegative(1.0 + v, k);
  }

  /** The tree rotation keeps the ornament's height and its distance from the axis. */
  lemma OrnamentRotationRigid(p: PhotoEntry, expansion: real, time: real, treeRotation: real, m: MathLib)
    requires IsCosSin(m.cos(treeRotation), m.sin(treeRotation))
    ensures var a, o := Animated(p, expansion, time, m), OrnamentPosition(p, expansion, time, treeRotation, m);
            o.y == a.y && PlanarNormSq(o) == PlanarNormSq(a)
  {
    RotateYPreserves(Animated(p, expansion, time, m), m.cos(treeRotation), m.sin(treeRotation));
  }

  /** A formed tree with no rotation bobs every ornament straight up and down from
      where `photoData` put it. */
  lemma FormedOrnamentBobs(p: PhotoEntry, time: real, m: MathLib)
    requires m.cos(0.0) == 1.0 && m.sin(0.0) == 0.0
    ensures OrnamentPosition(p, 0.0, time, 0.0, m)
            == p.initialPos.(y := p.initialPos.y + m.sin(time + p.initialPos.y) * 0.1)
  {
    BlendRange(p, 0.0);
  }

  // ---------------------------------------------------------------------------
  // Hover highlight

  /** `isHovered = hoveredPhotoIndex === i`. */
  predicate IsHovered(hovered: Option<int>, i: int)
  {
    hovered == Some(i)
  }

  /** The `uHighlight` uniform and the mesh scale of ornament `i`. */
  function Highlight(hovered: Option<int>, i: int): (r: (real, real))
  {
    if IsHovered(hovered, i) then (1.0, 1.1) else (0.0, 1.0)
  }

  /** At most one ornament is highlighted; none when nothing, or a url missing from
      `photoData` (index -1), is hovered; exactly the hovered one otherwise. */
  lemma HighlightExclusive(hovered: Option<int>, n: nat)
    ensures forall i, j :: 0 <= i < j < n ==> !(IsHovered(hovered, i) && IsHovered(hovered, j))
    ensures (hovered == None || hovered == Some(-1)) ==> forall i :: 0 <= i < n ==> Highlight(hovered, i) == (0.0, 1.0)
    ensures forall i :: 0 <= i < n ==> (Highlight(hovered, i).0 == 1.0 <==> hovered == Some(i))
  {
  }
}
