/** The background dust: 800 points scattered once through a wide slab mostly
    behind the tree, each with a cool blue-white colour and three spare random
    values, packed into three flat buffers. */
module Background {
  import opened Common

  const Count: nat := 800
  /** `Math.random()` calls per point: three for the position, one for the
      brightness, three for the spare randoms. */
  const DrawsPerMote: nat := 7

  /** One background point. */
  datatype Mote = Mote(position: Vec3, color: Vec3, random: Vec3)

  /** The point built from its seven draws, in the order they are made. */
  function MoteOf(d0: real, d1: real, d2: real, d3: real, d4: real, d5: real, d6: real): Mote
  {
    var brightness := 0.3 + d3 * 0.7;
    Mote(Vec3((d0 - 0.5) * 60.0, (d1 - 0.5) * 60.0, (d2 - 0.5) * 40.0 - 15.0),
         Vec3(brightness * 0.8, brightness * 0.9, brightness),
         Vec3(d4, d5, d6))
  }

  /** Point `i`, built from draws `7i .. 7i+6`. */
  function MoteAt(draws: seq<real>, i: nat): Mote
    requires DrawsPerMote * (i + 1) <= |draws|
  {
    var o := DrawsPerMote * i;
    MoteOf(draws[o], draws[o + 1], draws[o + 2], draws[o + 3], draws[o + 4], draws[o + 5], draws[o + 6])
  }

  /** The first `n` points are in the three buffers. */
  ghost predicate MotesWritten(positions: array<real>, colors: array<real>, randoms: array<real>,
                               draws: seq<real>, n: nat)
    reads positions, colors, randoms
  {
    DrawsPerMote * n <= |draws|
    && 3 * n <= positions.Length && 3 * n <= colors.Length && 3 * n <= randoms.Length
    && forall j :: 0 <= j < n ==>
         PointOf(positions, j) == MoteAt(draws, j).position
         && PointOf(colors, j) == MoteAt(draws, j).color
         && PointOf(randoms, j) == MoteAt(draws, j).random
  }

  /** The `useMemo` of `BackgroundParticles`: three fresh buffers of 800 packed
      triples, point `i` at slots `3i .. 3i+2` of each. */
  method GenerateBackground(draws: seq<real>) returns (positions: array<real>, colors: array<real>, randoms: array<real>)
    requires DrawsPerMote * Count <= |draws|
    ensures fresh(positions) && fresh(colors) && fresh(randoms)
    ensures positions.Length == 3 * Count && colors.Length == 3 * Count && randoms.Length == 3 * Count
    ensures forall i :: 0 <= i < Count ==>
              PointOf(positions, i) == MoteAt(draws, i).position
              && PointOf(colors, i) == MoteAt(draws, i).color
              && PointOf(randoms, i) == MoteAt(draws, i).random
  {
    positions := new real[3 * Count];
    colors := new real[3 * Count];
    randoms := new real[3 * Count];
    var next := 0;
    for i := 0 to Count
      invariant next == DrawsPerMote * i
      invariant MotesWritten(positions, colors, randoms, draws, i)
    {
      var x := (draws[next] - 0.5) * 60.0;
      var y := (draws[next + 1] - 0.5) * 60.0;
      var z := (draws[next + 2] - 0.5) * 40.0 - 15.0;
      var brightness := 0.3 + draws[next + 3] * 0.7;
      var color := Vec3(brightness * 0.8, brightness * 0.9, brightness);
      var random := Vec3(draws[next + 4], draws[next + 5], draws[next + 6]);
      WriteMote(positions, colors, randoms, draws, i, Mote(Vec3(x, y, z), color, random));
      next := next + DrawsPerMote;
    }
  }

  /** Writes point `i` after the `i` before it. */
  method WriteMote(positions: array<real>, colors: array<real>, randoms: array<real>,
                   draws: seq<real>, i: nat, mote: Mote)
    requires positions != colors && positions != randoms && colors != randoms
    requires MotesWritten(positions, colors, randoms, draws, i)
    requires DrawsPerMote * (i + 1) <= |draws| && mote == MoteAt(draws, i)
    requires 3 * i + 2 < positions.Length && 3 * i + 2 < colors.Length && 3 * i + 2 < randoms.Length
    modifies positions, colors, randoms
    ensures MotesWritten(positions, colors, randoms, draws, i + 1)
  {
    ghost var p0, c0, r0 := positions[..], colors[..], randoms[..];
    SetPoint(positions, i, mote.position);
    SetPoint(colors, i, mote.color);
    SetPoint(randoms, i, mote.random);
    forall j | 0 <= j < i
      ensures PointOf(positions, j) == MoteAt(draws, j).position
      ensures PointOf(colors, j) == MoteAt(draws, j).color
      ensures PointOf(randoms, j) == MoteAt(draws, j).random
    {
      assert positions[3 * j] == p0[3 * j] && positions[3 * j + 1] == p0[3 * j + 1] && positions[3 * j + 2] == p0[3 * j + 2];
      assert colors[3 * j] == c0[3 * j] && colors[3 * j + 1] == c0[3 * j + 1] && colors[3 * j + 2] == c0[3 * j + 2];
      assert randoms[3 * j] == r0[3 * j] && randoms[3 * j + 1] == r0[3 * j + 1] && randoms[3 * j + 2] == r0[3 * j + 2];
    }
  }

  /** With `Math.random()` values, a point lies in the slab `[-30, 30) x [-30, 30) x
      [-35, 5)`, centred 15 units behind the tree; its brightness is in [0.3, 1) and
      its colour is that brightness tinted blue, with red below green below blue;
      its spare randoms are the three draws, in [0, 1). */
  lemma MoteRanges(d0: real, d1: real, d2: real, d3: real, d4: real, d5: real, d6: real)
    requires Unit(d0) && Unit(d1) && Unit(d2) && Unit(d3) && Unit(d4) && Unit(d5) && Unit(d6)
    ensures var mo := MoteOf(d0, d1, d2, d3, d4, d5, d6);
            -30.0 <= mo.position.x < 30.0 && -30.0 <= mo.position.y < 30.0
            && -35.0 <= mo.position.z < 5.0
            && 0.3 <= mo.color.z < 1.0
            && mo.color.x == 0.8 * mo.color.z && mo.color.y == 0.9 * mo.color.z
            && 0.0 < mo.color.x < mo.color.y < mo.color.z
            && Unit(mo.random.x) && Unit(mo.random.y) && Unit(mo.random.z)
  {
  }

  /** Every point of a stream of `Math.random()` values is in those ranges, and
      later draws appended to the stream do not change it. */
  lemma AllMotesInRange(draws: seq<real>, i: nat)
    requires DrawsPerMote * (i + 1) <= |draws| && AllUnit(draws)
    ensures var mo := MoteAt(draws, i);
            -30.0 <= mo.position.x < 30.0 && -30.0 <= mo.position.y < 30.0
            && -35.0 <= mo.position.z < 5.0 && 0.3 <= mo.color.z < 1.0
            && mo.color.x == 0.8 * mo.color.z && mo.color.y == 0.9 * mo.color.z
    ensures forall more :: MoteAt(draws + more, i) == MoteAt(draws, i)
  {
    var o := DrawsPerMote * i;
    assert Unit(draws[o]) && Unit(draws[o + 1]) && Unit(draws[o + 2]) && Unit(draws[o + 3]);
    assert Unit(draws[o + 4]) && Unit(draws[o + 5]) && Unit(draws[o + 6]);
    MoteRanges(draws[o], draws[o + 1], draws[o + 2], draws[o + 3], draws[o + 4], draws[o + 5], draws[o + 6]);
  }
}
