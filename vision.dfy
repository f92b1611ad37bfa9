/** The gesture classifier: it turns one frame of hand landmarks, as the hand
    landmarker reports them, into a left-hand and a right-hand observation, and
    the video-time gate of the detection loop. */
module Vision {
  import opened Common

  /** One tracked point, in normalised image coordinates. */
  datatype Landmark = Landmark(x: real, y: real, z: real)

  datatype Point2 = Point2(x: real, y: real)

  /** `HandData`: the semantic signals of one hand. */
  datatype HandData = HandData(detected: bool, isOpen: bool, position: Point2, isPinching: bool)

  datatype VisionResult = VisionResult(leftHand: HandData, rightHand: HandData)

  /** One handedness guess; only its label is read. */
  datatype Category = Category(categoryName: string)

  /** What `detectForVideo` returns: per detected hand a landmark list and a list of
      handedness guesses.  A missing field (`None`) is falsy in the guard. */
  datatype HandLandmarkerResult = HandLandmarkerResult(
    landmarks: Option<seq<seq<Landmark>>>,
    handedness: Option<seq<seq<Category>>>)

  /** The neutral observation of a hand absent from the frame. */
  const EmptyHand: HandData := HandData(false, false, Point2(0.0, 0.0), false)

  const Neutral: VisionResult := VisionResult(EmptyHand, EmptyHand)

  const WristIndex: nat := 0
  const ThumbTipIndex: nat := 4
  const IndexTipIndex: nat := 8
  /** Thumb, index, middle, ring and pinky tips. */
  const TipIndices: seq<nat> := [4, 8, 12, 16, 20]
  /** The largest landmark index read is 20, so a hand with fewer points throws. */
  const LandmarkCount: nat := 21

  const OpenThreshold: real := 0.25
  const PinchThreshold: real := 0.05

  // ---------------------------------------------------------------------------
  // Per-hand formulas

  /** Mirror and rescale one coordinate: `-(c - 0.5) * 2`. */
  function PointerCoord(c: real): real
  {
    -(c - 0.5) * 2.0
  }

  /** The pointer maps [0, 1] reversed onto [-1, 1], with the centre going to 0,
      and it is undone by `c = 0.5 - p / 2`. */
  lemma PointerCoordMapping(c: real)
    ensures 0.0 <= c <= 1.0 ==> -1.0 <= PointerCoord(c) <= 1.0
    ensures PointerCoord(0.0) == 1.0 && PointerCoord(0.5) == 0.0 && PointerCoord(1.0) == -1.0
    ensures c == 0.5 - PointerCoord(c) / 2.0
  {
  }

  /** The pointer mapping reverses order. */
  lemma PointerCoordReverses(c1: real, c2: real)
    requires c1 < c2
    ensures PointerCoord(c1) > PointerCoord(c2)
  {
  }

  /** `Math.sqrt(Math.pow(a.x - b.x, 2) + Math.pow(a.y - b.y, 2))`: planar, z ignored. */
  function PlanarDistance(a: Landmark, b: Landmark, m: MathLib): real
  {
    m.sqrt(m.pow(a.x - b.x, 2.0) + m.pow(a.y - b.y, 2.0))
  }

  /** Sum of the wrist-to-tip distances of the first `n` fingertips. */
  function TipDistanceSum(lms: seq<Landmark>, m: MathLib, n: nat): real
    requires |lms| >= LandmarkCount && n <= |TipIndices|
  {
    if n == 0 then 0.0
    else TipDistanceSum(lms, m, n - 1) + PlanarDistance(lms[TipIndices[n - 1]], lms[WristIndex], m)
  }

  /** The mean planar distance from the wrist to the five fingertips. */
  function MeanTipDistance(lms: seq<Landmark>, m: MathLib): real
    requires |lms| >= LandmarkCount
  {
    TipDistanceSum(lms, m, |TipIndices|) / 5.0
  }

  /** The planar distance between thumb tip and index tip. */
  function PinchDistance(lms: seq<Landmark>, m: MathLib): real
    requires |lms| >= LandmarkCount
  {
    PlanarDistance(lms[IndexTipIndex], lms[ThumbTipIndex], m)
  }

  /** The observation produced from one detected hand. */
  function HandOf(lms: seq<Landmark>, m: MathLib): HandData
    requires |lms| >= LandmarkCount
  {
    HandData(
      true,
      MeanTipDistance(lms, m) > OpenThreshold,
      Point2(PointerCoord(lms[IndexTipIndex].x), PointerCoord(lms[IndexTipIndex].y)),
      PinchDistance(lms, m) < PinchThreshold)
  }

  /** The `forEach` over the fingertips accumulating `totalDist`, then the strict
      comparison of the mean with 0.25. */
  method Openness(lms: seq<Landmark>, m: MathLib) returns (isOpen: bool)
    requires |lms| >= LandmarkCount
    ensures isOpen <==> MeanTipDistance(lms, m) > OpenThreshold
    ensures isOpen == HandOf(lms, m).isOpen
  {
    var totalDist := 0.0;
    var k := 0;
    while k < |TipIndices|
      invariant 0 <= k <= |TipIndices|
      invariant totalDist == TipDistanceSum(lms, m, k)
    {
      var tip := lms[TipIndices[k]];
      var wrist := lms[WristIndex];
      var d := m.sqrt(m.pow(tip.x - wrist.x, 2.0) + m.pow(tip.y - wrist.y, 2.0));
      totalDist := totalDist + d;
      k := k + 1;
    }
    isOpen := totalDist / 5.0 > OpenThreshold;
  }

  /** Openness is the sum of the five wrist-to-tip distances exceeding 1.25; a mean of
      exactly 0.25 is not open. */
  lemma {:induction false} OpenIffSum(lms: seq<Landmark>, m: MathLib)
    requires |lms| >= LandmarkCount
    ensures var d := (i: nat) requires i < |TipIndices| => PlanarDistance(lms[TipIndices[i]], lms[WristIndex], m);
      HandOf(lms, m).isOpen <==> d(0) + d(1) + d(2) + d(3) + d(4) > 1.25
    ensures MeanTipDistance(lms, m) == OpenThreshold ==> !HandOf(lms, m).isOpen
  {
    assert TipDistanceSum(lms, m, 5) == TipDistanceSum(lms, m, 4) + PlanarDistance(lms[20], lms[0], m);
    assert TipDistanceSum(lms, m, 4) == TipDistanceSum(lms, m, 3) + PlanarDistance(lms[16], lms[0], m);
    assert TipDistanceSum(lms, m, 3) == TipDistanceSum(lms, m, 2) + PlanarDistance(lms[12], lms[0], m);
    assert TipDistanceSum(lms, m, 2) == TipDistanceSum(lms, m, 1) + PlanarDistance(lms[8], lms[0], m);
    assert TipDistanceSum(lms, m, 1) == PlanarDistance(lms[4], lms[0], m);
  }

  /** `s` is the non-negative square root of `u`. */
  predicate IsSqrt(s: real, u: real)
  {
    s >= 0.0 && s * s == u
  }

  /** With `pow(d, 2) = d * d` and a true square root, pinching is the squared planar
      distance between thumb tip and index tip being below 0.0025; exactly 0.05 apart
      is not a pinch. */
  lemma PinchIffSquared(lms: seq<Landmark>, m: MathLib)
    requires |lms| >= LandmarkCount
    requires var dx := lms[IndexTipIndex].x - lms[ThumbTipIndex].x;
             var dy := lms[IndexTipIndex].y - lms[ThumbTipIndex].y;
             m.pow(dx, 2.0) == dx * dx && m.pow(dy, 2.0) == dy * dy
             && IsSqrt(m.sqrt(dx * dx + dy * dy), dx * dx + dy * dy)
    ensures var dx := lms[IndexTipIndex].x - lms[ThumbTipIndex].x;
            var dy := lms[IndexTipIndex].y - lms[ThumbTipIndex].y;
            HandOf(lms, m).isPinching <==> dx * dx + dy * dy < 0.0025
    ensures PinchDistance(lms, m) == PinchThreshold ==> !HandOf(lms, m).isPinching
  {
    var dx := lms[IndexTipIndex].x - lms[ThumbTipIndex].x;
    var dy := lms[IndexTipIndex].y - lms[ThumbTipIndex].y;
    var s := PinchDistance(lms, m);
    assert m.pow(lms[IndexTipIndex].x - lms[ThumbTipIndex].x, 2.0) == dx * dx;
    assert m.pow(lms[IndexTipIndex].y - lms[ThumbTipIndex].y, 2.0) == dy * dy;
    assert s == m.sqrt(dx * dx + dy * dy);
    assert s >= 0.0 && s * s == dx * dx + dy * dy;
    if s < 0.05 {
      assert s * s <= s * 0.05 < 0.05 * 0.05;
    } else {
      assert s * s >= s * 0.05 >= 0.05 * 0.05;
    }
  }

  // ---------------------------------------------------------------------------
  // Role assignment

  /** The label `'Left'` writes the left hand; every other label writes the right. */
  predicate IsLeftLabel(name: string)
  {
    name == "Left"
  }

  /** The observation a result holds for one role. */
  function RoleHand(v: VisionResult, left: bool): HandData
  {
    if left then v.leftHand else v.rightHand
  }

  /** Detection `i` can be read without a `TypeError`: it has a handedness entry with
      at least one guess, and all 21 landmarks. */
  predicate WellFormedAt(lmss: seq<seq<Landmark>>, hs: seq<seq<Category>>, i: nat)
  {
    i < |lmss| && i < |hs| && |hs[i]| > 0 && |lmss[i]| >= LandmarkCount
  }

  /** The label of detection `i` (the empty string when it has none, which only a
      malformed detection lacks). */
  function LabelAt(hs: seq<seq<Category>>, i: nat): string
  {
    if i < |hs| && |hs[i]| > 0 then hs[i][0].categoryName else ""
  }

  /** The result after the first `n` detections have been written, in order. */
  function Processed(lmss: seq<seq<Landmark>>, hs: seq<seq<Category>>, m: MathLib, n: nat): VisionResult
    requires n <= |lmss|
    requires forall i :: 0 <= i < n ==> WellFormedAt(lmss, hs, i)
  {
    if n == 0 then Neutral
    else
      assert WellFormedAt(lmss, hs, n - 1);
      var acc := Processed(lmss, hs, m, n - 1);
      var hand := HandOf(lmss[n - 1], m);
      if IsLeftLabel(LabelAt(hs, n - 1)) then acc.(leftHand := hand) else acc.(rightHand := hand)
  }

  /** What `processDetections` hands to the callback, or `None` when it throws. */
  function Classify(r: HandLandmarkerResult, m: MathLib): Option<VisionResult>
  {
    if r.landmarks.None? || r.handedness.None? then Some(Neutral)
    else
      var lmss := r.landmarks.value;
      var hs := r.handedness.value;
      if forall i :: 0 <= i < |lmss| ==> WellFormedAt(lmss, hs, i)
      then Some(Processed(lmss, hs, m, |lmss|))
      else None
  }

  /** `processDetections`: start from neutral defaults, overwrite the hand of each
      detection's role in order, and fail on the first detection that cannot be read. */
  method ProcessDetections(r: HandLandmarkerResult, m: MathLib) returns (out: Option<VisionResult>)
    ensures out == Classify(r, m)
  {
    var visionResult := Neutral;
    if r.landmarks.Some? && r.handedness.Some? {
      var lmss := r.landmarks.value;
      var hs := r.handedness.value;
      var i := 0;
      while i < |lmss|
        invariant ProcessedPrefix(lmss, hs, m, i, visionResult)
      {
        if !WellFormedAt(lmss, hs, i) {
          MalformedThrows(r, m, i);
          return None;
        }
        visionResult := ApplyDetection(visionResult, lmss, hs, i, m);
        i := i + 1;
      }
      WellFormedDelivers(r, m, visionResult);
    }
    out := Some(visionResult);
  }

  /** The first `i` detections are readable and `v` is the result after them. */
  ghost predicate ProcessedPrefix(lmss: seq<seq<Landmark>>, hs: seq<seq<Category>>, m: MathLib, i: nat, v: VisionResult)
  {
    i <= |lmss| && (forall j :: 0 <= j < i ==> WellFormedAt(lmss, hs, j)) && v == Processed(lmss, hs, m, i)
  }

  /** An unreadable detection makes the whole call throw. */
  lemma MalformedThrows(r: HandLandmarkerResult, m: MathLib, i: nat)
    requires r.landmarks.Some? && r.handedness.Some? && i < |r.landmarks.value|
    requires !WellFormedAt(r.landmarks.value, r.handedness.value, i)
    ensures Classify(r, m) == None
  {
  }

  /** Once every detection has been read, the result is delivered. */
  lemma WellFormedDelivers(r: HandLandmarkerResult, m: MathLib, v: VisionResult)
    requires r.landmarks.Some? && r.handedness.Some?
    requires ProcessedPrefix(r.landmarks.value, r.handedness.value, m, |r.landmarks.value|, v)
    ensures Classify(r, m) == Some(v)
  {
  }

  /** One iteration: detection `i`'s hand data overwrites the hand of its role. */
  method ApplyDetection(acc: VisionResult, lmss: seq<seq<Landmark>>, hs: seq<seq<Category>>, i: nat, m: MathLib)
    returns (visionResult: VisionResult)
    requires i < |lmss| && WellFormedAt(lmss, hs, i) && ProcessedPrefix(lmss, hs, m, i, acc)
    ensures ProcessedPrefix(lmss, hs, m, i + 1, visionResult)
  {
    var name := hs[i][0].categoryName;
    var handData := DetectHand(lmss[i], m);
    assert name == LabelAt(hs, i);
    if name == "Left" {
      visionResult := acc.(leftHand := handData);
    } else {
      visionResult := acc.(rightHand := handData);
    }
  }

  /** The hand data of one detection: open by the mean tip distance, the pointer at
      the index tip, pinching by the thumb-to-index distance. */
  method DetectHand(lms: seq<Landmark>, m: MathLib) returns (handData: HandData)
    requires |lms| >= LandmarkCount
    ensures handData == HandOf(lms, m)
  {
    var isOpen := Openness(lms, m);
    handData := HandData(
      true,
      isOpen,
      Point2(PointerCoord(lms[IndexTipIndex].x), PointerCoord(lms[IndexTipIndex].y)),
      PinchDistance(lms, m) < PinchThreshold);
  }

  /** Detection `n - 1` writes its own role and leaves the other one alone. */
  lemma RoleStep(lmss: seq<seq<Landmark>>, hs: seq<seq<Category>>, m: MathLib, n: nat, left: bool)
    requires 0 < n <= |lmss|
    requires forall i :: 0 <= i < n ==> WellFormedAt(lmss, hs, i)
    ensures WellFormedAt(lmss, hs, n - 1)
    ensures RoleHand(Processed(lmss, hs, m, n), left)
            == if IsLeftLabel(LabelAt(hs, n - 1)) == left then HandOf(lmss[n - 1], m)
               else RoleHand(Processed(lmss, hs, m, n - 1), left)
  {
    assert WellFormedAt(lmss, hs, n - 1);
  }

  /** A role no detection is labelled with keeps the neutral default. */
  lemma {:induction false} AbsentRoleIsNeutral(lmss: seq<seq<Landmark>>, hs: seq<seq<Category>>, m: MathLib, n: nat, left: bool)
    requires n <= |lmss|
    requires forall i :: 0 <= i < n ==> WellFormedAt(lmss, hs, i)
    requires forall i :: 0 <= i < n ==> IsLeftLabel(LabelAt(hs, i)) != left
    ensures RoleHand(Processed(lmss, hs, m, n), left) == EmptyHand
  {
    if n > 0 {
      AbsentRoleIsNeutral(lmss, hs, m, n - 1, left);
    }
  }

  /** Last write wins: the hand of a role is that of the last detection labelled with it. */
  lemma {:induction false} LastWriteWins(lmss: seq<seq<Landmark>>, hs: seq<seq<Category>>, m: MathLib, n: nat, j: nat, left: bool)
    requires n <= |lmss|
    requires forall i :: 0 <= i < n ==> WellFormedAt(lmss, hs, i)
    requires j < n && IsLeftLabel(LabelAt(hs, j)) == left
    requires forall i :: j < i < n ==> IsLeftLabel(LabelAt(hs, i)) != left
    ensures WellFormedAt(lmss, hs, j) && RoleHand(Processed(lmss, hs, m, n), left) == HandOf(lmss[j], m)
  {
    if n - 1 != j {
      LastWriteWins(lmss, hs, m, n - 1, j, left);
    }
  }

  /** A role is reported as detected exactly when some detection carries its label. */
  lemma DetectedIffLabelled(lmss: seq<seq<Landmark>>, hs: seq<seq<Category>>, m: MathLib, n: nat, left: bool)
    requires n <= |lmss|
    requires forall i :: 0 <= i < n ==> WellFormedAt(lmss, hs, i)
    ensures RoleHand(Processed(lmss, hs, m, n), left).detected
            <==> exists i :: 0 <= i < n && IsLeftLabel(LabelAt(hs, i)) == left
  {
    if exists i :: 0 <= i < n && IsLeftLabel(LabelAt(hs, i)) == left {
      var j :| 0 <= j < n && IsLeftLabel(LabelAt(hs, j)) == left;
      LabelledIsDetected(lmss, hs, m, n, left, j);
    }
    DetectedIsLabelled(lmss, hs, m, n, left);
  }

  lemma {:induction false} LabelledIsDetected(lmss: seq<seq<Landmark>>, hs: seq<seq<Category>>, m: MathLib, n: nat, left: bool, j: nat)
    requires n <= |lmss|
    requires forall i :: 0 <= i < n ==> WellFormedAt(lmss, hs, i)
    requires j < n && IsLeftLabel(LabelAt(hs, j)) == left
    ensures RoleHand(Processed(lmss, hs, m, n), left).detected
  {
    RoleStep(lmss, hs, m, n, left);
    if IsLeftLabel(LabelAt(hs, n - 1)) == left {
      assert HandOf(lmss[n - 1], m).detected;
    } else {
      LabelledIsDetected(lmss, hs, m, n - 1, left, j);
    }
  }

  lemma {:induction false} DetectedIsLabelled(lmss: seq<seq<Landmark>>, hs: seq<seq<Category>>, m: MathLib, n: nat, left: bool)
    requires n <= |lmss|
    requires forall i :: 0 <= i < n ==> WellFormedAt(lmss, hs, i)
    ensures RoleHand(Processed(lmss, hs, m, n), left).detected
            ==> exists i :: 0 <= i < n && IsLeftLabel(LabelAt(hs, i)) == left
  {
    if n > 0 {
      RoleStep(lmss, hs, m, n, left);
      if IsLeftLabel(LabelAt(hs, n - 1)) != left {
        DetectedIsLabelled(lmss, hs, m, n - 1, left);
      }
    }
  }

  /** `processDetections` throws exactly when some detection cannot be read. */
  lemma ClassifyFailsIffMalformed(r: HandLandmarkerResult, m: MathLib)
    requires r.landmarks.Some? && r.handedness.Some?
    ensures Classify(r, m).None?
            <==> exists i :: 0 <= i < |r.landmarks.value| && !WellFormedAt(r.landmarks.value, r.handedness.value, i)
  {
  }

  /** With no landmark list at all, both hands are neutral. */
  lemma NoDetectionsIsNeutral(r: HandLandmarkerResult, m: MathLib)
    requires r.landmarks == Some([]) || r.landmarks.None? || r.handedness.None?
    ensures Classify(r, m) == Some(Neutral)
  {
  }

  // ---------------------------------------------------------------------------
  // The detection loop

  /** The detection loop's state.  `ready` stands for "the video element and the hand
      landmarker are both set", `hasCallback` for "a callback is registered". */
  class VisionManager {
    var ready: bool
    var hasCallback: bool
    var lastVideoTime: real
    var animationFrameId: Option<int>

    /** The manager as `initialize` leaves it before its first `loop`.  The source's
        constructor leaves the video, the landmarker and the callback null, and
        `initialize` sets them; `ready` and `hasCallback` give that later state up
        front.  `lastVideoTime` and `animationFrameId` start as the constructor
        sets them. */
    constructor (ready: bool, hasCallback: bool)
      ensures this.ready == ready && this.hasCallback == hasCallback
      ensures lastVideoTime == -1.0 && animationFrameId == None
    {
      this.ready := ready;
      this.hasCallback := hasCallback;
      lastVideoTime := -1.0;
      animationFrameId := None;
    }

    /** One run of `loop`.  `detection` is what `detectForVideo` returns, `None` when it
        throws; `frameHandle` is the id `requestAnimationFrame` returns.  The result is
        the value passed to the callback on this run, if any. */
    method Loop(currentTime: real, detection: Option<HandLandmarkerResult>, frameHandle: int, m: MathLib)
      returns (delivered: Option<VisionResult>)
      modifies this
      ensures ready == old(ready) && hasCallback == old(hasCallback)
      ensures lastVideoTime == if ready && currentTime != old(lastVideoTime) then currentTime else old(lastVideoTime)
      ensures animationFrameId == Some(frameHandle)
      ensures delivered.Some? <==>
                ready && currentTime != old(lastVideoTime) && hasCallback
                && detection.Some? && Classify(detection.value, m).Some?
      ensures delivered.Some? ==> delivered == Classify(detection.value, m)
    {
      delivered := None;
      if ready {
        if currentTime != lastVideoTime {
          lastVideoTime := currentTime;
          if detection.Some? {
            var out := ProcessDetections(detection.value, m);
            if out.Some? && hasCallback {
              delivered := out;
            }
          }
        }
      }
      animationFrameId := Some(frameHandle);
    }
  }

  /** Two runs of the loop on the same video time: the second detects nothing and
      delivers nothing, whatever the landmarker would have returned. */
  method RepeatedVideoTime(v: VisionManager, t: real, d1: Option<HandLandmarkerResult>, d2: Option<HandLandmarkerResult>, m: MathLib)
    returns (first: Option<VisionResult>, second: Option<VisionResult>)
    modifies v
    ensures second == None
    ensures v.lastVideoTime == old(v.lastVideoTime) || v.lastVideoTime == t
  {
    first := v.Loop(t, d1, 1, m);
    second := v.Loop(t, d2, 2, m);
  }
}
