/** The state interpolator: per rendered frame it moves the expansion towards the
    target the left hand asks for and lets the displayed rotation chase a
    free-running target angle. */
module Interpolation {
  import opened Common

  /** Lerp factor per second towards "exploded" and towards "formed". */
  const OpenRate: real := 2.5
  const CloseRate: real := 3.5
  /** Angular speed of the rotation target, in radians per second. */
  const RotationRate: real := 0.2
  /** Lerp factor per second with which the displayed rotation chases its target. */
  const RotationChaseRate: real := 4.0

  function ExpansionTarget(isOpen: bool): real
  {
    if isOpen then 1.0 else 0.0
  }

  function ExpansionRate(isOpen: bool): real
  {
    if isOpen then OpenRate else CloseRate
  }

  /** One frame of `currentExpansion = lerp(currentExpansion, target, delta * speed)`. */
  function ExpansionStep(e: real, isOpen: bool, delta: real): real
  {
    Lerp(e, ExpansionTarget(isOpen), delta * ExpansionRate(isOpen))
  }

  /** Each frame the remaining gap to the target is multiplied by `1 - delta * rate`;
      the target is 1 with rate 2.5 for an open hand and 0 with rate 3.5 otherwise, so
      reforming closes the gap faster than exploding. */
  lemma ExpansionGapShrinks(e: real, isOpen: bool, delta: real)
    ensures ExpansionTarget(isOpen) == (if isOpen then 1.0 else 0.0)
    ensures ExpansionRate(isOpen) == (if isOpen then 2.5 else 3.5)
    ensures ExpansionTarget(isOpen) - ExpansionStep(e, isOpen, delta)
            == (1.0 - delta * ExpansionRate(isOpen)) * (ExpansionTarget(isOpen) - e)
    ensures CloseRate > OpenRate
  {
    LerpGap(e, ExpansionTarget(isOpen), delta * ExpansionRate(isOpen));
  }

  /** With a lerp factor in [0, 1] the expansion stays in [0, 1] and moves towards
      its target without overshooting it. */
  lemma ExpansionStepBounded(e: real, isOpen: bool, delta: real)
    requires 0.0 <= e <= 1.0
    requires 0.0 <= delta * ExpansionRate(isOpen) <= 1.0
    ensures 0.0 <= ExpansionStep(e, isOpen, delta) <= 1.0
    ensures isOpen ==> e <= ExpansionStep(e, isOpen, delta)
    ensures !isOpen ==> ExpansionStep(e, isOpen, delta) <= e
  {
    LerpBetween(e, ExpansionTarget(isOpen), delta * ExpansionRate(isOpen));
  }

  /** The factor is not clamped: a long frame (here half a second) with the hand
      closed drives a fully exploded field below zero. */
  lemma ExpansionOvershootsOnLongFrame()
    ensures ExpansionStep(1.0, false, 0.5) == -0.75
  {
  }

  /** `n` frames of constant duration `delta` with the hand held in one state. */
  function ExpansionAfter(e: real, isOpen: bool, delta: real, n: nat): real
  {
    if n == 0 then e else ExpansionStep(ExpansionAfter(e, isOpen, delta, n - 1), isOpen, delta)
  }

  function Pow(a: real, n: nat): real
  {
    if n == 0 then 1.0 else a * Pow(a, n - 1)
  }

  lemma {:induction false} PowAdd(a: real, i: nat, j: nat)
    ensures Pow(a, i + j) == Pow(a, i) * Pow(a, j)
  {
    if i > 0 {
      PowAdd(a, i - 1, j);
      assert Pow(a, i + j) == a * Pow(a, i - 1 + j);
      Regroup(a, Pow(a, i - 1), Pow(a, j));
    }
  }

  lemma {:induction false} PowUnit(a: real, n: nat)
    requires 0.0 <= a <= 1.0
    ensures 0.0 <= Pow(a, n) <= 1.0
  {
    if n > 0 {
      PowUnit(a, n - 1);
      MulLe(a, Pow(a, n - 1), 1.0, 1.0);
    }
  }

  /** Holding the hand steady for `n` equal frames leaves the gap to the target
      multiplied by `(1 - delta * rate)^n`: geometric convergence. */
  lemma ExpansionAfterGap(e: real, isOpen: bool, delta: real, n: nat)
    ensures ExpansionTarget(isOpen) - ExpansionAfter(e, isOpen, delta, n)
            == Pow(1.0 - delta * ExpansionRate(isOpen), n) * (ExpansionTarget(isOpen) - e)
  {
    var target, f := ExpansionTarget(isOpen), 1.0 - delta * ExpansionRate(isOpen);
    ExpansionAfterApproaches(e, isOpen, delta, n);
    ApproachGap(e, target, f, n);
  }

  /** `n` steps of `x := target - f * (target - x)` from `e`. */
  function Approach(e: real, target: real, f: real, n: nat): real
  {
    if n == 0 then e else target - f * (target - Approach(e, target, f, n - 1))
  }

  lemma {:induction false} ApproachGap(e: real, target: real, f: real, n: nat)
    ensures target - Approach(e, target, f, n) == Pow(f, n) * (target - e)
  {
    if n > 0 {
      ApproachGap(e, target, f, n - 1);
      Regroup(f, Pow(f, n - 1), target - e);
    }
  }

  /** Each steady frame is one such step with `f = 1 - delta * rate`. */
  lemma {:induction false} ExpansionAfterApproaches(e: real, isOpen: bool, delta: real, n: nat)
    ensures ExpansionAfter(e, isOpen, delta, n)
            == Approach(e, ExpansionTarget(isOpen), 1.0 - delta * ExpansionRate(isOpen), n)
  {
    if n > 0 {
      ExpansionAfterApproaches(e, isOpen, delta, n - 1);
      ExpansionGapShrinks(ExpansionAfter(e, isOpen, delta, n - 1), isOpen, delta);
    }
  }

  lemma Regroup(f: real, p: real, g: real)
    ensures f * (p * g) == (f * p) * g
  {
  }

  /** Over any number of steady frames with a lerp factor in [0, 1] the expansion
      stays in [0, 1] and moves monotonically towards its target. */
  lemma {:induction false} ExpansionAfterBounded(e: real, isOpen: bool, delta: real, n: nat)
    requires 0.0 <= e <= 1.0
    requires 0.0 <= delta * ExpansionRate(isOpen) <= 1.0
    ensures 0.0 <= ExpansionAfter(e, isOpen, delta, n) <= 1.0
    ensures isOpen ==> e <= ExpansionAfter(e, isOpen, delta, n)
    ensures !isOpen ==> ExpansionAfter(e, isOpen, delta, n) <= e
  {
    if n > 0 {
      ExpansionAfterBounded(e, isOpen, delta, n - 1);
      ExpansionStepBounded(ExpansionAfter(e, isOpen, delta, n - 1), isOpen, delta);
    }
  }

  /** One rendered frame as the expansion sees it: whether the left hand is open,
      and the frame's `delta`. */
  datatype FrameInput = FrameInput(isOpen: bool, delta: real)

  /** The expansion after a run of frames, each with its own hand state and
      duration. */
  function ExpansionRun(e: real, frames: seq<FrameInput>): real
    decreases |frames|
  {
    if frames == [] then e else ExpansionRun(ExpansionStep(e, frames[0].isOpen, frames[0].delta), frames[1..])
  }

  /** Over any run of frames whose lerp factors are in [0, 1], however the hand
      changes between them, the expansion stays in [0, 1]; it never decreases while
      the hand stays open and never increases while it stays closed. */
  lemma {:induction false} ExpansionRunBounded(e: real, frames: seq<FrameInput>)
    requires 0.0 <= e <= 1.0
    requires forall i :: 0 <= i < |frames| ==>
               0.0 <= frames[i].delta * ExpansionRate(frames[i].isOpen) <= 1.0
    ensures 0.0 <= ExpansionRun(e, frames) <= 1.0
    ensures (forall i :: 0 <= i < |frames| ==> frames[i].isOpen) ==> e <= ExpansionRun(e, frames)
    ensures (forall i :: 0 <= i < |frames| ==> !frames[i].isOpen) ==> ExpansionRun(e, frames) <= e
    decreases |frames|
  {
    if frames != [] {
      var first, rest := frames[0], frames[1..];
      ExpansionStepBounded(e, first.isOpen, first.delta);
      assert forall i :: 0 <= i < |rest| ==> rest[i] == frames[i + 1];
      ExpansionRunBounded(ExpansionStep(e, first.isOpen, first.delta), rest);
    }
  }

  lemma SquareBound(a: real, n: nat, b: real, c: real)
    requires 0.0 <= a
    requires Pow(a, n) <= b && b * b <= c
    ensures 0.0 <= Pow(a, n + n) <= c
  {
    PowAdd(a, n, n);
    PowNonNegative(a, n);
    MulLe(Pow(a, n), Pow(a, n), b, b);
  }

  lemma MulLe(p: real, q: real, b: real, c: real)
    requires 0.0 <= p <= b && 0.0 <= q <= c
    ensures 0.0 <= p * q <= b * c
  {
    assert p * q <= b * q;
    assert b * q <= b * c;
  }

  lemma ProductBound(a: real, i: nat, j: nat, b: real, c: real, d: real)
    requires 0.0 <= a
    requires Pow(a, i) <= b && Pow(a, j) <= c && 0.0 <= b && b * c <= d
    ensures 0.0 <= Pow(a, i + j) <= d
  {
    PowAdd(a, i, j);
    PowNonNegative(a, i);
    PowNonNegative(a, j);
    MulLe(Pow(a, i), Pow(a, j), b, c);
  }

  lemma {:induction false} PowNonNegative(a: real, n: nat)
    requires 0.0 <= a
    ensures 0.0 <= Pow(a, n)
  {
    if n > 0 {
      PowNonNegative(a, n - 1);
      MulNonNegative(a, Pow(a, n - 1));
    }
  }

  /** `(23/24)^120 < 0.0103`: 120 frames at 60 fps opening. */
  lemma OpeningDecay(a: real)
    requires a == 23.0 / 24.0
    ensures Pow(a, 120) <= 0.0103
  {
    assert Pow(a, 2) == a * a;
    SquareBound(a, 2, 0.92, 0.85);
    SquareBound(a, 4, 0.85, 0.73);
    SquareBound(a, 8, 0.73, 0.54);
    ProductBound(a, 16, 8, 0.54, 0.73, 0.4);
    SquareBound(a, 24, 0.4, 0.16);
    SquareBound(a, 48, 0.16, 0.0256);
    ProductBound(a, 96, 24, 0.0256, 0.4, 0.0103);
  }

  /** `(113/120)^120 < 0.03`: 120 frames at 60 fps reforming. */
  lemma ClosingDecay(b: real)
    requires b == 113.0 / 120.0
    ensures Pow(b, 120) <= 0.03
  {
    ClosingSquares(b);
    PowUnit(b, 56);
    ProductBound(b, 64, 56, 0.03, 1.0, 0.03);
  }

  /** `(113/120)^64 < 0.03`, by repeated squaring. */
  lemma ClosingSquares(b: real)
    requires b == 113.0 / 120.0
    ensures Pow(b, 64) <= 0.03
  {
    assert Pow(b, 2) == b * b;
    SquareBound(b, 2, 0.89, 0.8);
    SquareBound(b, 4, 0.8, 0.64);
    SquareBound(b, 8, 0.64, 0.41);
    SquareBound(b, 16, 0.41, 0.17);
    SquareBound(b, 32, 0.17, 0.03);
  }

  /** Two seconds at 60 frames per second with the left hand open take a formed tree
      past 0.95 expansion. */
  lemma OpeningScenario(dt: real, frames: nat)
    requires dt == 1.0 / 60.0 && frames == 120
    ensures ExpansionAfter(0.0, true, dt, frames) > 0.95
  {
    OpeningDecay(1.0 - dt * OpenRate);
    OpeningBound(dt, frames);
  }

  lemma OpeningBound(dt: real, n: nat)
    requires Pow(1.0 - dt * OpenRate, n) <= 0.0103
    ensures ExpansionAfter(0.0, true, dt, n) >= 0.9897
  {
    var p := Pow(1.0 - dt * OpenRate, n);
    SteadyGaps(0.0, dt, n);
    assert 1.0 - ExpansionAfter(0.0, true, dt, n) == p * 1.0;
  }

  /** ... and two more seconds with it closed bring it below 0.05. */
  lemma OpenThenCloseScenario(dt: real, frames: nat)
    requires dt == 1.0 / 60.0 && frames == 120
    ensures ExpansionAfter(0.0, true, dt, frames) > 0.95
    ensures ExpansionAfter(ExpansionAfter(0.0, true, dt, frames), false, dt, frames) < 0.05
  {
    OpeningScenario(dt, frames);
    var e1 := ExpansionAfter(0.0, true, dt, frames);
    ExpansionAfterBounded(0.0, true, dt, frames);
    ClosingDecay(1.0 - dt * CloseRate);
    ClosingBound(e1, dt, frames);
  }

  lemma ClosingBound(e: real, dt: real, n: nat)
    requires 0.0 <= e <= 1.0
    requires Pow(1.0 - dt * CloseRate, n) <= 0.03
    requires 0.0 <= 1.0 - dt * CloseRate
    ensures ExpansionAfter(e, false, dt, n) <= 0.03
  {
    var p := Pow(1.0 - dt * CloseRate, n);
    PowNonNegative(1.0 - dt * CloseRate, n);
    MulLe(p, e, 0.03, 1.0);
    assert p * e <= 0.03;
    SteadyGaps(e, dt, n);
    assert ExpansionAfter(e, false, dt, n) == p * e;
  }

  /** The gap to the target under a steady open hand and under a steady fist. */
  lemma SteadyGaps(e: real, dt: real, n: nat)
    ensures 1.0 - ExpansionAfter(e, true, dt, n) == Pow(1.0 - dt * OpenRate, n) * (1.0 - e)
    ensures ExpansionAfter(e, false, dt, n) == Pow(1.0 - dt * CloseRate, n) * e
  {
    SteadyGap(e, true, dt, n);
    SteadyGap(e, false, dt, n);
  }

  lemma SteadyGap(e: real, isOpen: bool, dt: real, n: nat)
    ensures isOpen ==> 1.0 - ExpansionAfter(e, true, dt, n) == Pow(1.0 - dt * OpenRate, n) * (1.0 - e)
    ensures !isOpen ==> ExpansionAfter(e, false, dt, n) == Pow(1.0 - dt * CloseRate, n) * e
  {
    var target := if isOpen then 1.0 else 0.0;
    var f := 1.0 - dt * (if isOpen then OpenRate else CloseRate);
    assert ExpansionTarget(isOpen) == target && 1.0 - dt * ExpansionRate(isOpen) == f;
    ExpansionAfterApproaches(e, isOpen, dt, n);
    ApproachGap(e, target, f, n);
  }

  // ---------------------------------------------------------------------------
  // Rotation

  datatype Rotation = Rotation(current: real, target: real)

  /** `targetRotation += delta * 0.2`, then
      `currentRotation = lerp(currentRotation, targetRotation, delta * 4)`. */
  function RotationStep(r: Rotation, delta: real): Rotation
  {
    var target := r.target + delta * RotationRate;
    Rotation(Lerp(r.current, target, delta * RotationChaseRate), target)
  }

  /** The target advances by exactly `delta * 0.2` and the displayed rotation covers
      the fraction `delta * 4` of its lag behind the new target. */
  lemma RotationStepAdvances(r: Rotation, delta: real)
    ensures RotationStep(r, delta).target == r.target + delta * 0.2
    ensures RotationStep(r, delta).target - RotationStep(r, delta).current
            == (1.0 - delta * 4.0) * (r.target + delta * 0.2 - r.current)
  {
    LerpGap(r.current, r.target + delta * RotationRate, delta * RotationChaseRate);
  }

  /** A displayed rotation that lags its target keeps lagging it, and never turns
      backwards, while the lerp factor is in [0, 1]. */
  lemma RotationStepChases(r: Rotation, delta: real)
    requires 0.0 <= delta * RotationChaseRate <= 1.0
    requires r.current <= r.target
    ensures r.current <= RotationStep(r, delta).current <= RotationStep(r, delta).target
  {
    LerpBetween(r.current, r.target + delta * RotationRate, delta * RotationChaseRate);
  }

  /** The rotation after a sequence of frame durations. */
  function RotationRun(r: Rotation, deltas: seq<real>): Rotation
    decreases |deltas|
  {
    if deltas == [] then r else RotationRun(RotationStep(r, deltas[0]), deltas[1..])
  }

  function Sum(xs: seq<real>): real
  {
    if xs == [] then 0.0 else xs[0] + Sum(xs[1..])
  }

  /** Over any run of frames no longer than a quarter second, the target has grown by
      0.2 rad per elapsed second, and the displayed rotation has not decreased and
      still lags its target. */
  lemma {:induction false} RotationRunChases(r: Rotation, deltas: seq<real>)
    requires forall i :: 0 <= i < |deltas| ==> 0.0 <= deltas[i] * RotationChaseRate <= 1.0
    requires r.current <= r.target
    ensures RotationRun(r, deltas).target == r.target + Sum(deltas) * RotationRate
    ensures r.current <= RotationRun(r, deltas).current <= RotationRun(r, deltas).target
    decreases |deltas|
  {
    if deltas != [] {
      RotationStepChases(r, deltas[0]);
      RotationRunChases(RotationStep(r, deltas[0]), deltas[1..]);
    }
  }
}
