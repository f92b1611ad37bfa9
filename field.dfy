/** The procedural tree field: `generateData` fills six typed arrays with the
    formed position, the exploded position, the colour, the scale, the tumble axis
    and the speed of every sphere or box, drawing from the random stream. */
module Field {
  import opened Common

  const SphereCount: nat := 2500
  const BoxCount: nat := 400
  const TreeHeight: real := 7.5
  const BaseRadius: real := 3.2
  /** Draws one entity can consume: 13 for a green sphere, 12 otherwise. */
  const MaxDraws: nat := 13

  datatype Kind = Sphere | Box

  /** A colour category; a green carries the index of its shade in the palette. */
  datatype Palette = Green(shade: int) | Yellow | Red | White

  /** One instance's attributes. */
  datatype Particle = Particle(
    targetPos: Vec3, randomPos: Vec3, color: Vec3, scale: real, randomAxis: Vec3, speed: real)

  /** An sRGB colour given by its three bytes, as channel values in [0, 1]. */
  function Rgb(r: int, g: int, b: int): Vec3
  {
    Vec3(r as real / 255.0, g as real / 255.0, b as real / 255.0)
  }

  /** `#1f6b2e`, `#2f8f3e`, `#3fae4f`. */
  const GreenShades: seq<Vec3> := [Rgb(0x1f, 0x6b, 0x2e), Rgb(0x2f, 0x8f, 0x3e), Rgb(0x3f, 0xae, 0x4f)]
  /** `#ffd700`. */
  const ColorYellow: Vec3 := Rgb(0xff, 0xd7, 0x00)
  /** `#d93636`. */
  const ColorRed: Vec3 := Rgb(0xd9, 0x36, 0x36)
  /** `#ffffff`. */
  const ColorWhite: Vec3 := Rgb(0xff, 0xff, 0xff)

  /** `Math.floor(Math.random() * paletteGreen.length)`. */
  function ShadeIndex(u: real): int
  {
    (u * |GreenShades| as real).Floor
  }

  /** Sphere colour by the draw `rnd`: green below 0.65, yellow below 0.80, red
      below 0.92, white above; a green takes its shade from the next draw. */
  function SphereCategory(rnd: real, shadeDraw: real): Palette
  {
    if rnd < 0.65 then Green(ShadeIndex(shadeDraw))
    else if rnd < 0.80 then Yellow
    else if rnd < 0.92 then Red
    else White
  }

  /** Box colour by the draw `rnd`: yellow below 0.4, red below 0.75, white above. */
  function BoxCategory(rnd: real): Palette
  {
    if rnd < 0.4 then Yellow else if rnd < 0.75 then Red else White
  }

  function PaletteColor(p: Palette): Vec3
  {
    match p
    case Green(shade) => if 0 <= shade < |GreenShades| then GreenShades[shade] else GreenShades[0]
    case Yellow => ColorYellow
    case Red => ColorRed
    case White => ColorWhite
  }

  /** Scale of a sphere of category `p`, or of a box, from the draw `u`. */
  function ScaleOf(kind: Kind, p: Palette, u: real): real
  {
    if kind == Box then 0.2 + u * 0.15
    else match p
      case Green(_) => 0.1 + u * 0.15
      case Yellow => 0.15 + u * 0.12
      case Red => 0.14 + u * 0.12
      case White => 0.09 + u * 0.06
  }

  /** The draw deciding the colour is the tenth of the entity. */
  function CategoryAt(kind: Kind, draws: seq<real>, off: nat): Palette
    requires off + MaxDraws <= |draws|
  {
    if kind == Sphere then SphereCategory(draws[off + 9], draws[off + 10]) else BoxCategory(draws[off + 9])
  }

  /** Draws used by the entity starting at `off`. */
  function EntityDraws(kind: Kind, draws: seq<real>, off: nat): nat
    requires off + MaxDraws <= |draws|
  {
    if CategoryAt(kind, draws, off).Green? then 13 else 12
  }

  /** Where entity `i`'s draws start: every entity before it used 12 or 13. */
  function Offset(kind: Kind, draws: seq<real>, i: nat): (r: nat)
    requires MaxDraws * i <= |draws|
    ensures 12 * i <= r <= 13 * i
  {
    if i == 0 then 0
    else
      var o := Offset(kind, draws, i - 1);
      o + EntityDraws(kind, draws, o)
  }

  function FieldRMax(yNorm: real): real
  {
    BaseRadius * (1.0 - yNorm)
  }

  /** The entity built from the draws starting at `off`, in the order the source
      calls `Math.random()`: height, radius, angle; exploded radius, angle, polar
      angle; three axis components; the category; [the green shade;] the scale; the
      speed. */
  function ParticleAt(kind: Kind, draws: seq<real>, off: nat, m: MathLib): Particle
    requires off + MaxDraws <= |draws|
  {
    var yNorm := m.pow(draws[off], 0.9);
    var y := yNorm * TreeHeight - TreeHeight / 2.0;
    var r := FieldRMax(yNorm) * m.sqrt(draws[off + 1]);
    var theta := draws[off + 2] * Pi * 2.0;
    var spiral := yNorm * 15.0;
    var exR := 6.0 + draws[off + 3] * 8.0;
    var exTheta := draws[off + 4] * Pi * 2.0;
    var exPhi := m.acos(2.0 * draws[off + 5] - 1.0);
    var cat := CategoryAt(kind, draws, off);
    var k := if cat.Green? && kind == Sphere then 11 else 10;
    Particle(
      Vec3(r * m.cos(theta + spiral), y, r * m.sin(theta + spiral)),
      Vec3(exR * m.sin(exPhi) * m.cos(exTheta), exR * m.sin(exPhi) * m.sin(exTheta), exR * m.cos(exPhi)),
      PaletteColor(cat),
      ScaleOf(kind, cat, draws[off + k]),
      Vec3(draws[off + 6] - 0.5, draws[off + 7] - 0.5, draws[off + 8] - 0.5),
      0.5 + draws[off + k + 1])
  }

  /** Entity `i` of a run of `generateData`. */
  function Entity(kind: Kind, draws: seq<real>, i: nat, m: MathLib): Particle
    requires MaxDraws * (i + 1) <= |draws|
  {
    ParticleAt(kind, draws, Offset(kind, draws, i), m)
  }

  /** The first `n` entities of a run of `generateData`. */
  function Entities(kind: Kind, draws: seq<real>, n: nat, m: MathLib): seq<Particle>
    requires MaxDraws * n <= |draws|
  {
    seq(n, (i: int) requires 0 <= i < n => Entity(kind, draws, i, m))
  }

  /** Element `i` of the first `n` entities is entity `i`. */
  lemma EntitiesAt(kind: Kind, draws: seq<real>, n: nat, m: MathLib)
    requires MaxDraws * n <= |draws|
    ensures |Entities(kind, draws, n, m)| == n
    ensures forall i :: 0 <= i < n ==> Entities(kind, draws, n, m)[i] == Entity(kind, draws, i, m)
  {
  }

  /** The three-slot attributes of an entity: 0 target, 1 exploded position,
      2 colour, 3 tumble axis. */
  function Triple(p: Particle, which: int): Vec3
  {
    if which == 0 then p.targetPos
    else if which == 1 then p.randomPos
    else if which == 2 then p.color
    else p.randomAxis
  }

  /** The one-slot attributes: 0 scale, 1 speed. */
  function Single(p: Particle, which: int): real
  {
    if which == 0 then p.scale else p.speed
  }

  /** Slots `3j .. 3j+2` of `a` hold attribute `which` of entity `j`. */
  ghost predicate TriplesHold(a: array<real>, ps: seq<Particle>, which: int)
    reads a
  {
    3 * |ps| <= a.Length
    && forall j, c :: 0 <= j < |ps| && 0 <= c < 3 ==> a[3 * j + c] == Component(Triple(ps[j], which), c)
  }

  /** Slot `j` of `a` holds attribute `which` of entity `j`. */
  ghost predicate SlotsHold(a: array<real>, ps: seq<Particle>, which: int)
    reads a
  {
    |ps| <= a.Length && forall j :: 0 <= j < |ps| ==> a[j] == Single(ps[j], which)
  }

  /** `generateData(count, type)`: six fresh arrays, slots `3i .. 3i+2` (or slot `i`)
      holding entity `i`'s attributes. */
  method GenerateData(count: nat, kind: Kind, draws: seq<real>, m: MathLib)
    returns (targetPos: array<real>, randomPos: array<real>, colors: array<real>,
             scales: array<real>, randomAxis: array<real>, speeds: array<real>)
    requires MaxDraws * count <= |draws|
    ensures targetPos.Length == 3 * count && randomPos.Length == 3 * count && colors.Length == 3 * count
    ensures randomAxis.Length == 3 * count && scales.Length == count && speeds.Length == count
    ensures fresh(targetPos) && fresh(randomPos) && fresh(colors) && fresh(scales)
            && fresh(randomAxis) && fresh(speeds)
    ensures Separate(targetPos, randomPos, colors, scales, randomAxis, speeds)
    ensures forall i, c :: 0 <= i < count && 0 <= c < 3 ==>
              targetPos[3 * i + c] == Component(Entity(kind, draws, i, m).targetPos, c)
    ensures forall i, c :: 0 <= i < count && 0 <= c < 3 ==>
              randomPos[3 * i + c] == Component(Entity(kind, draws, i, m).randomPos, c)
    ensures forall i, c :: 0 <= i < count && 0 <= c < 3 ==>
              colors[3 * i + c] == Component(Entity(kind, draws, i, m).color, c)
    ensures forall i, c :: 0 <= i < count && 0 <= c < 3 ==>
              randomAxis[3 * i + c] == Component(Entity(kind, draws, i, m).randomAxis, c)
    ensures forall i :: 0 <= i < count ==> scales[i] == Entity(kind, draws, i, m).scale
    ensures forall i :: 0 <= i < count ==> speeds[i] == Entity(kind, draws, i, m).speed
  {
    targetPos := new real[3 * count];
    randomPos := new real[3 * count];
    colors := new real[3 * count];
    scales := new real[count];
    randomAxis := new real[3 * count];
    speeds := new real[count];
    var next: nat := 0;  // draws consumed so far
    for i := 0 to count
      invariant next == Offset(kind, draws, i)
      invariant Separate(targetPos, randomPos, colors, scales, randomAxis, speeds)
      invariant Written(targetPos, randomPos, colors, scales, randomAxis, speeds, Entities(kind, draws, i, m))
    {
      next := GenerateEntity(targetPos, randomPos, colors, scales, randomAxis, speeds, kind, draws, i, next, m);
    }
    EntitiesAt(kind, draws, count, m);
    BuffersHoldEntities(targetPos, randomPos, colors, scales, randomAxis, speeds, kind, draws, count, m);
  }

  /** One iteration of the loop: entity `i` drawn from the stream at `next` and
      written to its slots; returns where the next entity's draws start. */
  method GenerateEntity(targetPos: array<real>, randomPos: array<real>, colors: array<real>,
                        scales: array<real>, randomAxis: array<real>, speeds: array<real>,
                        kind: Kind, draws: seq<real>, i: nat, next: nat, m: MathLib)
    returns (after: nat)
    requires MaxDraws * (i + 1) <= |draws| && next == Offset(kind, draws, i)
    requires Separate(targetPos, randomPos, colors, scales, randomAxis, speeds)
    requires 3 * i + 2 < targetPos.Length && 3 * i + 2 < randomPos.Length
    requires 3 * i + 2 < colors.Length && 3 * i + 2 < randomAxis.Length
    requires i < scales.Length && i < speeds.Length
    requires Written(targetPos, randomPos, colors, scales, randomAxis, speeds, Entities(kind, draws, i, m))
    modifies targetPos, randomPos, colors, scales, randomAxis, speeds
    ensures after == Offset(kind, draws, i + 1)
    ensures Written(targetPos, randomPos, colors, scales, randomAxis, speeds, Entities(kind, draws, i + 1, m))
    ensures TripleKept(targetPos, old(targetPos[..]), i) && TripleKept(randomPos, old(randomPos[..]), i)
    ensures TripleKept(colors, old(colors[..]), i) && TripleKept(randomAxis, old(randomAxis[..]), i)
    ensures SlotKept(scales, old(scales[..]), i) && SlotKept(speeds, old(speeds[..]), i)
  {
    var e;
    e, after := EntityFromStream(kind, draws, next, m);
    ghost var built := Entities(kind, draws, i, m);
    WriteEntity(targetPos, randomPos, colors, scales, randomAxis, speeds, i, built, e);
    EntitiesSnoc(kind, draws, i, next, m, e);
  }

  /** The entities so far extended by the next one are the entities one further. */
  lemma EntitiesSnoc(kind: Kind, draws: seq<real>, i: nat, off: nat, m: MathLib, e: Particle)
    requires MaxDraws * (i + 1) <= |draws|
    requires off == Offset(kind, draws, i) && e == ParticleAt(kind, draws, off, m)
    ensures |Entities(kind, draws, i, m)| == i
    ensures Entities(kind, draws, i + 1, m) == Entities(kind, draws, i, m) + [e]
  {
    var longer, extended := Entities(kind, draws, i + 1, m), Entities(kind, draws, i, m) + [e];
    assert |longer| == |extended|;
    forall k | 0 <= k < i + 1
      ensures longer[k] == extended[k]
    {
    }
  }

  /** The six buffers hold the attributes of the entities `ps` in their first slots. */
  ghost predicate Written(targetPos: array<real>, randomPos: array<real>, colors: array<real>,
                          scales: array<real>, randomAxis: array<real>, speeds: array<real>, ps: seq<Particle>)
    reads targetPos, randomPos, colors, scales, randomAxis, speeds
  {
    TriplesHold(targetPos, ps, 0) && TriplesHold(randomPos, ps, 1)
    && TriplesHold(colors, ps, 2) && TriplesHold(randomAxis, ps, 3)
    && SlotsHold(scales, ps, 0) && SlotsHold(speeds, ps, 1)
  }

  /** Outside entity `i`'s slots `3i .. 3i+2`, `a` still holds `before`. */
  ghost predicate TripleKept(a: array<real>, before: seq<real>, i: nat)
    reads a
  {
    |before| == a.Length
    && forall k :: 0 <= k < a.Length && (k < 3 * i || 3 * i + 2 < k) ==> a[k] == before[k]
  }

  /** Outside entity `i`'s slot `i`, `a` still holds `before`. */
  ghost predicate SlotKept(a: array<real>, before: seq<real>, i: nat)
    reads a
  {
    |before| == a.Length && forall k :: 0 <= k < a.Length && k != i ==> a[k] == before[k]
  }

  /** Six distinct buffers. */
  predicate Separate(targetPos: array<real>, randomPos: array<real>, colors: array<real>,
                     scales: array<real>, randomAxis: array<real>, speeds: array<real>)
  {
    targetPos != randomPos && targetPos != colors && targetPos != scales && targetPos != randomAxis
    && targetPos != speeds && randomPos != colors && randomPos != scales && randomPos != randomAxis
    && randomPos != speeds && colors != scales && colors != randomAxis && colors != speeds
    && scales != randomAxis && scales != speeds && randomAxis != speeds
  }

  /** Writes entity `i`'s attributes into its slots of the six buffers. */
  method WriteEntity(targetPos: array<real>, randomPos: array<real>, colors: array<real>,
                     scales: array<real>, randomAxis: array<real>, speeds: array<real>,
                     i: nat, ghost built: seq<Particle>, e: Particle)
    requires |built| == i
    requires Separate(targetPos, randomPos, colors, scales, randomAxis, speeds)
    requires 3 * i + 2 < targetPos.Length && 3 * i + 2 < randomPos.Length
    requires 3 * i + 2 < colors.Length && 3 * i + 2 < randomAxis.Length
    requires i < scales.Length && i < speeds.Length
    requires Written(targetPos, randomPos, colors, scales, randomAxis, speeds, built)
    modifies targetPos, randomPos, colors, scales, randomAxis, speeds
    ensures Written(targetPos, randomPos, colors, scales, randomAxis, speeds, built + [e])
    ensures TripleKept(targetPos, old(targetPos[..]), i) && TripleKept(randomPos, old(randomPos[..]), i)
    ensures TripleKept(colors, old(colors[..]), i) && TripleKept(randomAxis, old(randomAxis[..]), i)
    ensures SlotKept(scales, old(scales[..]), i) && SlotKept(speeds, old(speeds[..]), i)
  {
    SetTriple(targetPos, i, built, 0, e);
    SetTriple(randomPos, i, built, 1, e);
    SetTriple(randomAxis, i, built, 3, e);
    SetTriple(colors, i, built, 2, e);
    SetSlot(scales, i, built, 0, e);
    SetSlot(speeds, i, built, 1, e);
  }

  /** Buffers holding the first `count` entities hold, slot by slot, entity `i`'s
      attributes at `3i .. 3i+2` and at `i`. */
  lemma BuffersHoldEntities(targetPos: array<real>, randomPos: array<real>, colors: array<real>,
                            scales: array<real>, randomAxis: array<real>, speeds: array<real>,
                            kind: Kind, draws: seq<real>, count: nat, m: MathLib)
    requires MaxDraws * count <= |draws|
    requires |Entities(kind, draws, count, m)| == count
    requires forall i :: 0 <= i < count ==> Entities(kind, draws, count, m)[i] == Entity(kind, draws, i, m)
    requires Written(targetPos, randomPos, colors, scales, randomAxis, speeds, Entities(kind, draws, count, m))
    ensures forall i, c :: 0 <= i < count && 0 <= c < 3 ==>
              targetPos[3 * i + c] == Component(Entity(kind, draws, i, m).targetPos, c)
    ensures forall i, c :: 0 <= i < count && 0 <= c < 3 ==>
              randomPos[3 * i + c] == Component(Entity(kind, draws, i, m).randomPos, c)
    ensures forall i, c :: 0 <= i < count && 0 <= c < 3 ==>
              colors[3 * i + c] == Component(Entity(kind, draws, i, m).color, c)
    ensures forall i, c :: 0 <= i < count && 0 <= c < 3 ==>
              randomAxis[3 * i + c] == Component(Entity(kind, draws, i, m).randomAxis, c)
    ensures forall i :: 0 <= i < count ==> scales[i] == Entity(kind, draws, i, m).scale
    ensures forall i :: 0 <= i < count ==> speeds[i] == Entity(kind, draws, i, m).speed
  {
    var built := Entities(kind, draws, count, m);
    forall i, c | 0 <= i < count && 0 <= c < 3
      ensures targetPos[3 * i + c] == Component(Entity(kind, draws, i, m).targetPos, c)
      ensures randomPos[3 * i + c] == Component(Entity(kind, draws, i, m).randomPos, c)
      ensures colors[3 * i + c] == Component(Entity(kind, draws, i, m).color, c)
      ensures randomAxis[3 * i + c] == Component(Entity(kind, draws, i, m).randomAxis, c)
    {
      assert built[i] == Entity(kind, draws, i, m);
      assert Component(Triple(built[i], 0), c) == targetPos[3 * i + c];
      assert Component(Triple(built[i], 1), c) == randomPos[3 * i + c];
      assert Component(Triple(built[i], 2), c) == colors[3 * i + c];
      assert Component(Triple(built[i], 3), c) == randomAxis[3 * i + c];
    }
    forall i | 0 <= i < count
      ensures scales[i] == Entity(kind, draws, i, m).scale && speeds[i] == Entity(kind, draws, i, m).speed
    {
      assert built[i] == Entity(kind, draws, i, m);
      assert Single(built[i], 0) == scales[i] && Single(built[i], 1) == speeds[i];
    }
  }

  /** `a[i3] = v.x; a[i3 + 1] = v.y; a[i3 + 2] = v.z` for the next entity `i`. */
  method SetTriple(a: array<real>, i: nat, ghost ps: seq<Particle>, which: int, p: Particle)
    requires TriplesHold(a, ps, which) && i == |ps| && 3 * i + 2 < a.Length
    modifies a
    ensures TriplesHold(a, ps + [p], which)
    ensures TripleKept(a, old(a[..]), i)
  {
    var v := Triple(p, which);
    var i3 := 3 * i;
    a[i3] := v.x;
    a[i3 + 1] := v.y;
    a[i3 + 2] := v.z;
  }

  /** `a[i] = x` for the next entity `i`. */
  method SetSlot(a: array<real>, i: nat, ghost ps: seq<Particle>, which: int, p: Particle)
    requires SlotsHold(a, ps, which) && i == |ps| && i < a.Length
    modifies a
    ensures SlotsHold(a, ps + [p], which)
    ensures SlotKept(a, old(a[..]), i)
  {
    a[i] := Single(p, which);
  }

  /** The body of one iteration, reading the stream from `off` as the source's
      successive `Math.random()` calls. */
  method EntityFromStream(kind: Kind, draws: seq<real>, off: nat, m: MathLib) returns (e: Particle, after: nat)
    requires off + MaxDraws <= |draws|
    ensures e == ParticleAt(kind, draws, off, m)
    ensures after == off + EntityDraws(kind, draws, off)
  {
    var yNorm := m.pow(draws[off], 0.9);
    var y := yNorm * TreeHeight - TreeHeight / 2.0;
    var rMax := BaseRadius * (1.0 - yNorm);
    var r := rMax * m.sqrt(draws[off + 1]);
    var theta := draws[off + 2] * Pi * 2.0;
    var spiral := yNorm * 15.0;
    var targetPos := Vec3(r * m.cos(theta + spiral), y, r * m.sin(theta + spiral));

    var exR := 6.0 + draws[off + 3] * 8.0;
    var exTheta := draws[off + 4] * Pi * 2.0;
    var exPhi := m.acos(2.0 * draws[off + 5] - 1.0);
    var randomPos := Vec3(exR * m.sin(exPhi) * m.cos(exTheta), exR * m.sin(exPhi) * m.sin(exTheta), exR * m.cos(exPhi));

    var randomAxis := Vec3(draws[off + 6] - 0.5, draws[off + 7] - 0.5, draws[off + 8] - 0.5);

    var rnd := draws[off + 9];
    var next := off + 10;
    var col: Vec3;
    var scale: real;
    if kind == Sphere {
      if rnd < 0.65 {
        col := GreenShades[ShadeIndexInRange(draws[next])];
        next := next + 1;
        scale := 0.1 + draws[next] * 0.15;
      } else if rnd < 0.80 {
        col := ColorYellow;
        scale := 0.15 + draws[next] * 0.12;
      } else if rnd < 0.92 {
        col := ColorRed;
        scale := 0.14 + draws[next] * 0.12;
      } else {
        col := ColorWhite;
        scale := 0.09 + draws[next] * 0.06;
      }
    } else {
      if rnd < 0.4 {
        col := ColorYellow;
      } else if rnd < 0.75 {
        col := ColorRed;
      } else {
        col := ColorWhite;
      }
      scale := 0.2 + draws[next] * 0.15;
    }
    var speed := 0.5 + draws[next + 1];
    e := Particle(targetPos, randomPos, col, scale, randomAxis, speed);
    after := next + 2;
  }

  /** The shade index of a draw in [0, 1); any other draw is clamped to shade 0. */
  function ShadeIndexInRange(u: real): (k: nat)
    ensures k < |GreenShades|
    ensures Unit(u) ==> k == ShadeIndex(u)
  {
    var k := ShadeIndex(u);
    if 0 <= k < |GreenShades| then k else 0
  }

  // ---------------------------------------------------------------------------
  // Properties of one entity

  /** The sphere palette bands: green on [0, 0.65), yellow on [0.65, 0.80), red on
      [0.80, 0.92) and white on [0.92, 1), so of widths 0.65, 0.15, 0.12 and 0.08;
      a green's shade is one of the three. */
  lemma SphereColourBands(rnd: real, shadeDraw: real)
    requires Unit(rnd) && Unit(shadeDraw)
    ensures SphereCategory(rnd, shadeDraw).Green? <==> rnd < 0.65
    ensures SphereCategory(rnd, shadeDraw) == Yellow <==> 0.65 <= rnd < 0.80
    ensures SphereCategory(rnd, shadeDraw) == Red <==> 0.80 <= rnd < 0.92
    ensures SphereCategory(rnd, shadeDraw) == White <==> 0.92 <= rnd
    ensures SphereCategory(rnd, shadeDraw).Green? ==> 0 <= SphereCategory(rnd, shadeDraw).shade < 3
  {
    ShadeInRange(shadeDraw);
  }

  lemma ShadeInRange(u: real)
    requires Unit(u)
    ensures 0 <= ShadeIndex(u) < |GreenShades|
  {
    var v := u * |GreenShades| as real;
    assert 0.0 <= v < 3.0;
    assert v.Floor as real <= v;
  }

  /** The box palette bands: yellow on [0, 0.4), red on [0.4, 0.75), white on
      [0.75, 1); a box is never green. */
  lemma BoxColourBands(rnd: real)
    requires Unit(rnd)
    ensures BoxCategory(rnd) == Yellow <==> rnd < 0.4
    ensures BoxCategory(rnd) == Red <==> 0.4 <= rnd < 0.75
    ensures BoxCategory(rnd) == White <==> 0.75 <= rnd
    ensures !BoxCategory(rnd).Green?
  {
  }

  /** Scale ranges: green [0.1, 0.25), yellow [0.15, 0.27), red [0.14, 0.26), white
      [0.09, 0.15) for spheres, [0.2, 0.35) for every box. */
  lemma ScaleBands(kind: Kind, p: Palette, u: real)
    requires Unit(u)
    ensures kind == Box ==> 0.2 <= ScaleOf(kind, p, u) < 0.35
    ensures kind == Sphere && p.Green? ==> 0.1 <= ScaleOf(kind, p, u) < 0.25
    ensures kind == Sphere && p == Yellow ==> 0.15 <= ScaleOf(kind, p, u) < 0.27
    ensures kind == Sphere && p == Red ==> 0.14 <= ScaleOf(kind, p, u) < 0.26
    ensures kind == Sphere && p == White ==> 0.09 <= ScaleOf(kind, p, u) < 0.15
  {
  }

  /** With every draw a `Math.random()` value, an entity's colour is its category's
      palette colour, its scale is in its category's range, its speed is in
      [0.5, 1.5) and each tumble-axis component is in [-0.5, 0.5). */
  lemma ParticleAttributes(kind: Kind, draws: seq<real>, off: nat, m: MathLib)
    requires off + MaxDraws <= |draws| && AllUnit(draws)
    ensures var p, cat := ParticleAt(kind, draws, off, m), CategoryAt(kind, draws, off);
            p.color == PaletteColor(cat)
            && (kind == Box ==> !cat.Green?)
            && (cat.Green? ==> 0 <= cat.shade < 3 && p.color == GreenShades[cat.shade])
            && 0.09 <= p.scale < 0.35
            && 0.5 <= p.speed < 1.5
            && -0.5 <= p.randomAxis.x < 0.5 && -0.5 <= p.randomAxis.y < 0.5 && -0.5 <= p.randomAxis.z < 0.5
  {
    assert Unit(draws[off + 6]) && Unit(draws[off + 7]) && Unit(draws[off + 8]);
    assert Unit(draws[off + 9]) && Unit(draws[off + 10]) && Unit(draws[off + 11]) && Unit(draws[off + 12]);
    var cat := CategoryAt(kind, draws, off);
    if kind == Sphere {
      SphereColourBands(draws[off + 9], draws[off + 10]);
    } else {
      BoxColourBands(draws[off + 9]);
    }
    var k := if cat.Green? && kind == Sphere then 11 else 10;
    ScaleBands(kind, cat, draws[off + k]);
  }

  /** An entity's formed position lies inside the tree's cone: its height is in
      [-3.75, 3.75], the cone radius `3.2 * (1 - yNorm)` at that height is in [0, 3.2],
      and its distance from the axis is at most that radius, given that the power
      lands in [0, 1], the square root in [0, 1] and the cosine and sine of its angle
      are one angle's. */
  lemma TargetInsideCone(kind: Kind, draws: seq<real>, off: nat, m: MathLib)
    requires off + MaxDraws <= |draws|
    requires 0.0 <= m.pow(draws[off], 0.9) <= 1.0
    requires 0.0 <= m.sqrt(draws[off + 1]) <= 1.0
    requires var yNorm := m.pow(draws[off], 0.9);
             var angle := draws[off + 2] * Pi * 2.0 + yNorm * 15.0;
             IsCosSin(m.cos(angle), m.sin(angle))
    ensures var p, yNorm := ParticleAt(kind, draws, off, m), m.pow(draws[off], 0.9);
            -3.75 <= p.targetPos.y <= 3.75
            && 0.0 <= FieldRMax(yNorm) <= 3.2
            && PlanarNormSq(p.targetPos) <= FieldRMax(yNorm) * FieldRMax(yNorm)
  {
    var yNorm := m.pow(draws[off], 0.9);
    var rMax := FieldRMax(yNorm);
    var q := m.sqrt(draws[off + 1]);
    var r := rMax * q;
    var angle := draws[off + 2] * Pi * 2.0 + yNorm * 15.0;
    var c, s := m.cos(angle), m.sin(angle);
    var p := ParticleAt(kind, draws, off, m);
    assert p.targetPos == Vec3(r * c, yNorm * TreeHeight - TreeHeight / 2.0, r * s);
    assert 0.0 <= rMax <= 3.2;
    calc {
      PlanarNormSq(p.targetPos);
    ==
      (r * c) * (r * c) + (r * s) * (r * s);
    ==
      r * r * (c * c + s * s);
    ==
      r * r;
    ==
      rMax * rMax * (q * q);
    }
    assert q * q <= 1.0 by { MulNonNegative(q, 1.0 - q); }
    MulNonNegative(rMax * rMax, 1.0 - q * q);
  }

  /** An entity's exploded position lies on the sphere of radius `exR` in [6, 14)
      when the cosines and sines of its two angles are genuine pairs. */
  lemma RandomPosOnSphere(kind: Kind, draws: seq<real>, off: nat, m: MathLib)
    requires off + MaxDraws <= |draws| && AllUnit(draws)
    requires IsCosSin(m.cos(draws[off + 4] * Pi * 2.0), m.sin(draws[off + 4] * Pi * 2.0))
    requires IsCosSin(m.cos(m.acos(2.0 * draws[off + 5] - 1.0)), m.sin(m.acos(2.0 * draws[off + 5] - 1.0)))
    ensures var e := ParticleAt(kind, draws, off, m).randomPos;
            var exR := 6.0 + draws[off + 3] * 8.0;
            6.0 <= exR < 14.0 && e.x * e.x + e.y * e.y + e.z * e.z == exR * exR
  {
    assert Unit(draws[off + 3]);
    var exR := 6.0 + draws[off + 3] * 8.0;
    var ct, st := m.cos(draws[off + 4] * Pi * 2.0), m.sin(draws[off + 4] * Pi * 2.0);
    var phi := m.acos(2.0 * draws[off + 5] - 1.0);
    var cp, sp := m.cos(phi), m.sin(phi);
    var e := ParticleAt(kind, draws, off, m).randomPos;
    assert e == Vec3(exR * sp * ct, exR * sp * st, exR * cp);
    calc {
      e.x * e.x + e.y * e.y + e.z * e.z;
    ==
      exR * exR * (sp * sp * (ct * ct + st * st) + cp * cp);
    ==
      exR * exR;
    }
  }

  /** A green sphere consumes 13 draws and every other entity 12, so entity `i`'s
      draws start between `12 i` and `13 i`, and a run of boxes reads the stream in
      blocks of exactly 12. */
  lemma {:induction false} BoxOffsets(draws: seq<real>, i: nat)
    requires MaxDraws * i <= |draws|
    ensures Offset(Box, draws, i) == 12 * i
  {
    if i > 0 {
      BoxOffsets(draws, i - 1);
    }
  }
}
