/** The per-frame handler of the tree component: the refs and hover state it keeps
    between frames, and the one `useFrame` step that updates the expansion, the
    rotation and the grab / release / hover state in place. */
module Tree {
  import opened Common
  import Vision
  import Interpolation
  import Selection

  class MagicTreeEngine {
    var currentExpansion: real
    var currentRotation: real
    var targetRotation: real
    var prevPinch: bool
    var holdingPhoto: bool
    /** `hoveredPhotoIndex`; `None` for `null`. */
    var hoveredPhotoIndex: Option<int>

    function SelectionState(): Selection.SelectionState
      reads this
    {
      Selection.SelectionState(prevPinch, holdingPhoto, hoveredPhotoIndex)
    }

    function RotationState(): Interpolation.Rotation
      reads this
    {
      Interpolation.Rotation(currentRotation, targetRotation)
    }

    /** A held photo was grabbed by a pinch that is still going on. */
    predicate Consistent()
      reads this
    {
      holdingPhoto ==> prevPinch
    }

    /** All refs start at zero / false and nothing is hovered. */
    constructor ()
      ensures currentExpansion == 0.0 && currentRotation == 0.0 && targetRotation == 0.0
      ensures SelectionState() == Selection.Idle
      ensures Consistent()
    {
      currentExpansion := 0.0;
      currentRotation := 0.0;
      targetRotation := 0.0;
      prevPinch := false;
      holdingPhoto := false;
      hoveredPhotoIndex := None;
    }

    /** One `useFrame(state, delta)` call.  `hit` is the nearest photo mesh under the
        right-hand cursor this frame and `draw` the value `Math.random()` would return
        if the fallback grab needs one.  Returns the `onPhotoSelect` arguments in the
        order of the calls. */
    method Frame(interaction: Vision.VisionResult, delta: real, hit: Selection.RayHit, draw: real)
      returns (events: seq<Option<string>>)
      requires Unit(draw)
      modifies this
      ensures currentExpansion
              == Interpolation.ExpansionStep(old(currentExpansion), interaction.leftHand.isOpen, delta)
      ensures RotationState() == Interpolation.RotationStep(old(RotationState()), delta)
      ensures var st := Selection.SelectStep(old(SelectionState()), interaction.rightHand, hit,
                                             currentExpansion, draw);
              SelectionState() == st.state && events == st.events
      ensures Consistent()
    {
      UpdateTreeState(interaction.leftHand.isOpen, delta);
      events := UpdateSelection(interaction.rightHand, hit, draw);
    }

    /** The "update tree state" block: expansion and rotation. */
    method UpdateTreeState(isOpen: bool, delta: real)
      modifies this
      ensures currentExpansion == Interpolation.ExpansionStep(old(currentExpansion), isOpen, delta)
      ensures RotationState() == Interpolation.RotationStep(old(RotationState()), delta)
      ensures SelectionState() == old(SelectionState())
    {
      var targetExp := if isOpen then 1.0 else 0.0;
      var lerpSpeed := if isOpen then 2.5 else 3.5;
      currentExpansion := Lerp(currentExpansion, targetExp, delta * lerpSpeed);
      targetRotation := targetRotation + delta * 0.2;
      currentRotation := Lerp(currentRotation, targetRotation, delta * 4.0);
    }

    /** The ray-cast block: grab on the press edge, release when the pinch drops,
        hover, and remembering this frame's pinch. */
    method UpdateSelection(right: Vision.HandData, hit: Selection.RayHit, draw: real)
      returns (events: seq<Option<string>>)
      requires Unit(draw)
      modifies this
      ensures var st := Selection.SelectStep(old(SelectionState()), right, hit, currentExpansion, draw);
              SelectionState() == st.state && events == st.events
      ensures currentExpansion == old(currentExpansion) && RotationState() == old(RotationState())
      ensures Consistent()
    {
      ghost var s0 := SelectionState();
      var isPinching := right.detected && right.isPinching;
      var wasPinching := prevPinch;
      events := [];
      if isPinching && !wasPinching {
        if hit.Nearest? {
          if hit.url.Some? && hit.url.value != "" {
            events := events + [Some(hit.url.value)];
            holdingPhoto := true;
          }
        } else if currentExpansion > 0.5 {
          Selection.FallbackIndexInRange(draw);
          var k := (draw * |Selection.PhotoUrls| as real).Floor;
          events := events + [Some(Selection.PhotoUrls[k])];
          holdingPhoto := true;
        }
      }
      ghost var pressed := Selection.Press(s0, right, hit, currentExpansion, draw);
      assert holdingPhoto == pressed.state.holding && events == pressed.events;

      if holdingPhoto && !isPinching {
        events := events + [None];
        holdingPhoto := false;
      }

      if right.detected && !holdingPhoto {
        if hit.Nearest? {
          if hit.url.Some? && hit.url.value != "" {
            hoveredPhotoIndex := Some(Selection.FindIndex(Selection.PhotoOrder(), hit.url.value));
          }
        } else {
          hoveredPhotoIndex := None;
        }
      } else {
        hoveredPhotoIndex := None;
      }

      prevPinch := isPinching;
    }
  }

  /** A client run of the handler: a fresh tree, then a frame whose right hand pinches
      onto a photo and a frame on which the hand is lost.  The photo is grabbed on the
      first frame and released on the second. */
  method GrabThenLoseHand(url: string, delta: real, draw: real) returns (first: seq<Option<string>>, second: seq<Option<string>>)
    requires url != "" && Unit(draw)
    ensures first == [Some(url)] && second == [None]
  {
    var tree := new MagicTreeEngine();
    var pinching := Vision.HandData(true, false, Vision.Point2(0.0, 0.0), true);
    first := tree.Frame(Vision.VisionResult(Vision.EmptyHand, pinching), delta, Selection.Nearest(Some(url)), draw);
    second := tree.Frame(Vision.Neutral, delta, Selection.Nearest(Some(url)), draw);
  }
}
