/** The heads-up overlay: the start screen before the camera runs, then the
    right-hand cursor, the two status lines and the helper message, placed and
    worded from the latest hand observations. */
module Overlay {
  import opened Common
  import Vision

  /** Horizontal cursor position in percent of the screen width, from the
      normalised pointer `x` in [-1, 1]. */
  function CursorX(x: real): real
  {
    (x + 1.0) / 2.0 * 100.0
  }

  /** Vertical cursor position in percent of the screen height, from the
      normalised pointer `y` in [-1, 1] (up is positive, the screen grows down). */
  function CursorY(y: real): real
  {
    (1.0 - y) / 2.0 * 100.0
  }

  /** `x` in [-1, 1] lands in [0, 100], -1 on the left edge, 1 on the right, and
      further right for a larger `x`. */
  lemma CursorXMapping(x: real, x': real)
    ensures -1.0 <= x <= 1.0 ==> 0.0 <= CursorX(x) <= 100.0
    ensures CursorX(-1.0) == 0.0 && CursorX(0.0) == 50.0 && CursorX(1.0) == 100.0
    ensures x < x' ==> CursorX(x) < CursorX(x')
  {
  }

  /** `y` in [-1, 1] lands in [0, 100] inverted, 1 at the top edge, -1 at the
      bottom, and higher up for a larger `y`. */
  lemma CursorYMapping(y: real, y': real)
    ensures -1.0 <= y <= 1.0 ==> 0.0 <= CursorY(y) <= 100.0
    ensures CursorY(1.0) == 0.0 && CursorY(0.0) == 50.0 && CursorY(-1.0) == 100.0
    ensures y < y' ==> CursorY(y) > CursorY(y')
  {
  }

  /** Composed with the classifier's pointer, the cursor sits at the mirrored
      index-tip position: `(1 - tip.x) * 100` across and `tip.y * 100` down, so a
      tip in the unit square keeps the cursor on screen. */
  lemma CursorFollowsIndexTip(lms: seq<Vision.Landmark>, m: MathLib)
    requires |lms| >= Vision.LandmarkCount
    ensures var tip, hand := lms[Vision.IndexTipIndex], Vision.HandOf(lms, m);
            CursorX(hand.position.x) == (1.0 - tip.x) * 100.0
            && CursorY(hand.position.y) == tip.y * 100.0
    ensures var tip, hand := lms[Vision.IndexTipIndex], Vision.HandOf(lms, m);
            0.0 <= tip.x <= 1.0 && 0.0 <= tip.y <= 1.0 ==>
              0.0 <= CursorX(hand.position.x) <= 100.0 && 0.0 <= CursorY(hand.position.y) <= 100.0
  {
    var tip := lms[Vision.IndexTipIndex];
    var hand := Vision.HandOf(lms, m);
    assert hand.position == Vision.Point2(Vision.PointerCoord(tip.x), Vision.PointerCoord(tip.y));
  }

  /** The left line: "NO HAND" without a left hand, else "EXPLODE" for an open hand
      and "REFORM" for a closed one. */
  function LeftStatus(left: Vision.HandData): (s: string)
    ensures s == "NO HAND" <==> !left.detected
    ensures s == "EXPLODE" <==> left.detected && left.isOpen
    ensures s == "REFORM" <==> left.detected && !left.isOpen
  {
    if left.detected then (if left.isOpen then "EXPLODE" else "REFORM") else "NO HAND"
  }

  /** The right line: "NO HAND" without a right hand, else "HOLDING" while pinching
      and "MOVING" otherwise. */
  function RightStatus(right: Vision.HandData): (s: string)
    ensures s == "NO HAND" <==> !right.detected
    ensures s == "HOLDING" <==> right.detected && right.isPinching
    ensures s == "MOVING" <==> right.detected && !right.isPinching
  {
    if right.detected then (if right.isPinching then "HOLDING" else "MOVING") else "NO HAND"
  }

  /** The cursor: its place in percent and whether it shows the pinched style. */
  datatype Cursor = Cursor(left: real, top: real, pinched: bool)

  /** What the overlay renders. */
  datatype Screen =
    | StartScreen
    | Hud(cursor: Option<Cursor>, leftStatus: string, rightStatus: string, helper: bool)

  function Render(isRunning: bool, left: Vision.HandData, right: Vision.HandData): Screen
  {
    if !isRunning then StartScreen
    else
      var cursor := if right.detected
                    then Some(Cursor(CursorX(right.position.x), CursorY(right.position.y), right.isPinching))
                    else None;
      Hud(cursor, LeftStatus(left), RightStatus(right), !left.detected && !right.detected)
  }

  /** Before the start only the start screen is shown.  Once running, the cursor is
      shown exactly when the right hand is seen, at the converted pointer position;
      the helper message is shown exactly when neither hand is seen; the helper and
      the cursor are never both on screen; and the status lines agree with the
      helper. */
  lemma RenderVisibility(isRunning: bool, left: Vision.HandData, right: Vision.HandData)
    ensures var s := Render(isRunning, left, right);
            (s.StartScreen? <==> !isRunning)
            && (s.Hud? ==> (s.cursor.Some? <==> right.detected)
                           && (s.helper <==> !left.detected && !right.detected)
                           && !(s.helper && s.cursor.Some?)
                           && (s.helper <==> s.leftStatus == "NO HAND" && s.rightStatus == "NO HAND"))
    ensures var s := Render(isRunning, left, right);
            s.Hud? && s.cursor.Some? ==>
              s.cursor.value == Cursor(CursorX(right.position.x), CursorY(right.position.y), right.isPinching)
  {
  }

  /** What is on screen when the classifier sees no hands at all: the helper and two
      "NO HAND" lines, and no cursor. */
  lemma NoHandsScreen()
    ensures Render(true, Vision.Neutral.leftHand, Vision.Neutral.rightHand)
            == Hud(None, "NO HAND", "NO HAND", true)
  {
  }
}
