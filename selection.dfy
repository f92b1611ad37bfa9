/** The selection engine: the photo catalogue, its de-duplicated order, and the
    per-frame grab / release / hover state machine driven by the right hand. */
module Selection {
  import opened Common
  import Vision

  /** `photoUrls`: the catalogue the fallback grab draws from. */
  const PhotoUrls: seq<string> := [
    "/images/1.jpg", "/images/2.jpg", "/images/3.jpg", "/images/4.jpg", "/images/5.jpg",
    "/images/6.jpg", "/images/7.jpg", "/images/8.jpg", "/images/9.jpg", "/images/10.jpg",
    "/images/11.jpg", "/images/12.jpg", "/images/13.jpg", "/images/14.jpg", "/images/15.jpg",
    "/images/16.jpg", "/images/17.jpg", "/images/18.jpg", "/images/19.jpg", "/images/20.jpg"]

  /** Above this expansion a press that hits nothing grabs a random photo. */
  const FallbackExpansion: real := 0.5

  // ---------------------------------------------------------------------------
  // findIndex and first-occurrence de-duplication

  /** `Array.prototype.findIndex` with an equality test: the first index holding
      `x`, or -1. */
  function FindIndex(s: seq<string>, x: string): (r: int)
    ensures r == -1 <==> x !in s
    ensures r != -1 ==> 0 <= r < |s| && s[r] == x && x !in s[..r]
  {
    if s == [] then -1
    else if s[0] == x then 0
    else
      var k := FindIndex(s[1..], x);
      assert s[1..][..if k < 0 then 0 else k] == s[1..if k < 0 then 1 else k + 1];
      if k < 0 then -1 else k + 1
  }

  /** Searching a concatenation finds an element of the first part where the first
      part alone finds it. */
  lemma FindIndexInPrefix(p: seq<string>, q: seq<string>, x: string)
    requires x in p
    ensures FindIndex(p + q, x) == FindIndex(p, x)
  {
    var k := FindIndex(p, x);
    assert (p + q)[k] == x;
  }

  predicate NoDuplicates(s: seq<string>)
  {
    forall i, j :: 0 <= i < j < |s| ==> s[i] != s[j]
  }

  /** `Array.from(new Set(s))`: every element once, in order of first occurrence. */
  function Dedup(s: seq<string>): (r: seq<string>)
    ensures |r| <= |s|
  {
    if s == [] then []
    else
      var d := Dedup(s[..|s| - 1]);
      if s[|s| - 1] in d then d else d + [s[|s| - 1]]
  }

  /** De-duplication keeps exactly the elements of its input, each once, ordered by
      where they first occur in the input. */
  lemma {:induction false} DedupCharacterized(s: seq<string>)
    ensures forall x :: x in Dedup(s) <==> x in s
    ensures NoDuplicates(Dedup(s))
    ensures forall i, j :: 0 <= i < j < |Dedup(s)| ==> FindIndex(s, Dedup(s)[i]) < FindIndex(s, Dedup(s)[j])
  {
    if s != [] {
      var init, last := s[..|s| - 1], s[|s| - 1];
      assert s == init + [last];
      DedupCharacterized(init);
      var d := Dedup(init);
      assert forall x :: x in d <==> x in init;
      forall x | x in init
        ensures FindIndex(s, x) == FindIndex(init, x)
      {
        FindIndexInPrefix(init, [last], x);
      }
      if last !in d {
        assert FindIndex(s, last) == |init| by {
          assert s[|init|] == last;
          assert last !in s[..|init|] by { assert s[..|init|] == init; }
        }
        var e := d + [last];
        forall i, j | 0 <= i < j < |e|
          ensures FindIndex(s, e[i]) < FindIndex(s, e[j])
        {
          assert e[i] == d[i] && d[i] in d && e[i] in init;
          if j < |d| {
            assert e[j] == d[j] && d[j] in d && e[j] in init;
          }
        }
      }
    }
  }

  /** A catalogue without repeats is its own de-duplication. */
  lemma {:induction false} DedupOfDistinct(s: seq<string>)
    requires NoDuplicates(s)
    ensures Dedup(s) == s
  {
    if s != [] {
      var init := s[..|s| - 1];
      assert NoDuplicates(init);
      DedupOfDistinct(init);
      assert s[|s| - 1] !in init;
      assert s == init + [s[|s| - 1]];
    }
  }

  /** The order in which `photoData` lists the photos. */
  function PhotoOrder(): seq<string>
  {
    Dedup(PhotoUrls)
  }

  lemma PhotoUrlsDistinct()
    ensures NoDuplicates(PhotoUrls)
  {
  }

  /** The catalogue has no repeats, so `photoData` holds all 20 photos in catalogue
      order and hovering the photo with url `PhotoUrls[k]` reports index `k`. */
  lemma PhotoOrderIsCatalogue()
    ensures PhotoOrder() == PhotoUrls && |PhotoOrder()| == 20
    ensures forall k :: 0 <= k < |PhotoUrls| ==> FindIndex(PhotoOrder(), PhotoUrls[k]) == k
  {
    PhotoUrlsDistinct();
    DedupOfDistinct(PhotoUrls);
    forall k | 0 <= k < |PhotoUrls|
      ensures FindIndex(PhotoOrder(), PhotoUrls[k]) == k
    {
      var r := FindIndex(PhotoUrls, PhotoUrls[k]);
    }
  }

  // ---------------------------------------------------------------------------
  // The grab / release / hover state machine

  /** What the ray through the cursor hits first among the photo meshes: nothing, or
      the nearest mesh with whatever url its `userData` carries. */
  datatype RayHit = Miss | Nearest(url: Option<string>)

  /** `hit.userData && hit.userData.url` is truthy: a url is present and not empty. */
  predicate CarriesUrl(h: RayHit)
  {
    h.Nearest? && h.url.Some? && h.url.value != ""
  }

  /** `prevPinch`, `holdingPhoto` and `hoveredPhotoIndex` (`None` for `null`). */
  datatype SelectionState = SelectionState(prevPinch: bool, holding: bool, hovered: Option<int>)

  const Idle: SelectionState := SelectionState(false, false, None)

  /** Holding a photo implies the previous frame was pinching; every step keeps it. */
  predicate Consistent(s: SelectionState)
  {
    s.holding ==> s.prevPinch
  }

  /** One frame's new state and the arguments of its `onPhotoSelect` calls, in order
      (`None` for `onPhotoSelect(null)`). */
  datatype Step = Step(state: SelectionState, events: seq<Option<string>>)

  /** `Math.floor(Math.random() * photoUrls.length)`. */
  function FallbackIndex(draw: real): int
  {
    (draw * |PhotoUrls| as real).Floor
  }

  lemma FallbackIndexInRange(draw: real)
    requires Unit(draw)
    ensures 0 <= FallbackIndex(draw) < |PhotoUrls|
  {
    var v := draw * |PhotoUrls| as real;
    assert 0.0 <= v < 20.0;
    assert v.Floor as real <= v;
  }

  /** A pinch counts only while the right hand is detected. */
  function IsPinching(right: Vision.HandData): bool
  {
    right.detected && right.isPinching
  }

  /** The press-edge branch: on the frame the pinch starts, grab the nearest photo's
      url, or with no hit at all and an expansion above 0.5 a random catalogue photo. */
  function Press(s: SelectionState, right: Vision.HandData, hit: RayHit, expansion: real, draw: real): Step
    requires Unit(draw)
  {
    if IsPinching(right) && !s.prevPinch then
      if hit.Nearest? then
        if CarriesUrl(hit) then Step(s.(holding := true), [Some(hit.url.value)]) else Step(s, [])
      else if expansion > FallbackExpansion then
        FallbackIndexInRange(draw);
        Step(s.(holding := true), [Some(PhotoUrls[FallbackIndex(draw)])])
      else Step(s, [])
    else Step(s, [])
  }

  /** The whole `useFrame` selection block: press edge, release, hover, `prevPinch`. */
  function SelectStep(s: SelectionState, right: Vision.HandData, hit: RayHit, expansion: real, draw: real): Step
    requires Unit(draw)
  {
    var isPinching := IsPinching(right);
    var pressed := Press(s, right, hit, expansion, draw);
    var released :=
      if pressed.state.holding && !isPinching
      then Step(pressed.state.(holding := false), pressed.events + [None])
      else pressed;
    var hovered :=
      if right.detected && !released.state.holding then
        if hit.Nearest? then
          if CarriesUrl(hit) then Some(FindIndex(PhotoOrder(), hit.url.value)) else s.hovered
        else None
      else None;
    Step(SelectionState(isPinching, released.state.holding, hovered), released.events)
  }

  predicate HasGrab(events: seq<Option<string>>)
  {
    exists k :: 0 <= k < |events| && events[k].Some?
  }

  predicate HasRelease(events: seq<Option<string>>)
  {
    exists k :: 0 <= k < |events| && events[k].None?
  }

  /** After every frame `prevPinch` is this frame's pinch, holding implies pinching,
      and at most one `onPhotoSelect` call was made. */
  lemma StepInvariant(s: SelectionState, right: Vision.HandData, hit: RayHit, expansion: real, draw: real)
    requires Unit(draw)
    ensures var st := SelectStep(s, right, hit, expansion, draw);
            st.state.prevPinch == (right.detected && right.isPinching)
            && (st.state.holding ==> st.state.prevPinch)
            && |st.events| <= 1
  {
  }

  /** A grab happens only on a press edge of a detected right hand, and a photo
      becomes held only then. */
  lemma GrabOnlyOnPressEdge(s: SelectionState, right: Vision.HandData, hit: RayHit, expansion: real, draw: real)
    requires Unit(draw)
    ensures var st := SelectStep(s, right, hit, expansion, draw);
            (HasGrab(st.events) || (st.state.holding && !s.holding))
            ==> right.detected && right.isPinching && !s.prevPinch
  {
  }

  /** The four outcomes of a press edge from a consistent state. */
  lemma PressEdgeOutcomes(s: SelectionState, right: Vision.HandData, hit: RayHit, expansion: real, draw: real)
    requires Unit(draw)
    requires Consistent(s)
    requires right.detected && right.isPinching && !s.prevPinch
    ensures var st := SelectStep(s, right, hit, expansion, draw);
            (CarriesUrl(hit) ==> st.events == [Some(hit.url.value)] && st.state.holding)
            && (hit.Nearest? && !CarriesUrl(hit) ==> st.events == [] && !st.state.holding)
            && (hit.Miss? && expansion > 0.5 ==>
                  st.state.holding && 0 <= FallbackIndex(draw) < |PhotoUrls|
                  && st.events == [Some(PhotoUrls[FallbackIndex(draw)])])
            && (hit.Miss? && expansion <= 0.5 ==> st.events == [] && !st.state.holding)
  {
    if hit.Miss? && expansion > 0.5 {
      FallbackIndexInRange(draw);
    }
  }

  /** `onPhotoSelect(null)` fires, and the hold ends, exactly when a photo was held and
      the right hand is not pinching; losing the hand counts as not pinching. */
  lemma ReleaseExactly(s: SelectionState, right: Vision.HandData, hit: RayHit, expansion: real, draw: real)
    requires Unit(draw)
    ensures var st := SelectStep(s, right, hit, expansion, draw);
            (HasRelease(st.events) <==> s.holding && !(right.detected && right.isPinching))
            && (HasRelease(st.events) ==> !st.state.holding)
            && (!right.detected ==> !st.state.holding && !HasGrab(st.events))
  {
    var st := SelectStep(s, right, hit, expansion, draw);
    var pr := Press(s, right, hit, expansion, draw);
    assert forall k :: 0 <= k < |pr.events| ==> pr.events[k].Some?;
    if s.holding && !IsPinching(right) {
      assert st.events[|st.events| - 1] == None;
    }
  }

  /** Hover: cleared without a detected right hand or while a photo is held,
      otherwise the `findIndex` of the nearest hit's url (possibly -1), cleared on a
      miss and left alone on a url-less hit.  Pinching itself does not gate it. */
  lemma HoverRule(s: SelectionState, right: Vision.HandData, hit: RayHit, expansion: real, draw: real)
    requires Unit(draw)
    ensures var st := SelectStep(s, right, hit, expansion, draw);
            ((!right.detected || st.state.holding) ==> st.state.hovered == None)
            && (right.detected && !st.state.holding ==>
                  (hit.Miss? ==> st.state.hovered == None)
                  && (CarriesUrl(hit) ==> st.state.hovered == Some(FindIndex(PhotoOrder(), hit.url.value)))
                  && (hit.Nearest? && !CarriesUrl(hit) ==> st.state.hovered == s.hovered))
  {
  }

  // ---------------------------------------------------------------------------
  // Runs of frames

  /** The right-hand part of one frame's input to the selection engine. */
  datatype Frame = Frame(right: Vision.HandData, hit: RayHit, expansion: real, draw: real)

  predicate DrawsOk(frames: seq<Frame>)
  {
    forall i :: 0 <= i < |frames| ==> Unit(frames[i].draw)
  }

  /** The final state and every `onPhotoSelect` argument of a run of frames. */
  function Run(s: SelectionState, frames: seq<Frame>): Step
    requires DrawsOk(frames)
    decreases |frames|
  {
    if frames == [] then Step(s, [])
    else
      var f := frames[0];
      var st := SelectStep(s, f.right, f.hit, f.expansion, f.draw);
      var rest := Run(st.state, frames[1..]);
      Step(rest.state, st.events + rest.events)
  }

  /** Calls that alternate between grab and release, starting with a release when a
      photo is held and with a grab otherwise. */
  predicate Alternating(events: seq<Option<string>>, holding: bool)
    decreases |events|
  {
    events == []
    || ((if holding then events[0].None? else events[0].Some?) && Alternating(events[1..], !holding))
  }

  /** Whether a photo is held after `events`, starting from `holding`. */
  function HoldingAfter(events: seq<Option<string>>, holding: bool): bool
  {
    if |events| % 2 == 0 then holding else !holding
  }

  lemma {:induction false} AlternatingAppend(a: seq<Option<string>>, b: seq<Option<string>>, holding: bool)
    requires Alternating(a, holding) && Alternating(b, HoldingAfter(a, holding))
    ensures Alternating(a + b, holding)
    decreases |a|
  {
    if a != [] {
      assert (a + b)[0] == a[0];
      assert (a + b)[1..] == a[1..] + b;
      assert HoldingAfter(a[1..], !holding) == HoldingAfter(a, holding);
      AlternatingAppend(a[1..], b, !holding);
    } else {
      assert a + b == b;
    }
  }

  lemma HoldingAfterAppend(a: seq<Option<string>>, b: seq<Option<string>>, holding: bool)
    ensures HoldingAfter(a + b, holding) == HoldingAfter(b, HoldingAfter(a, holding))
  {
    assert |a + b| == |a| + |b|;
  }

  /** One frame from a consistent state: its calls continue the alternation and
      leave the hold where the alternation says. */
  lemma StepAlternates(s: SelectionState, f: Frame)
    requires Unit(f.draw) && Consistent(s)
    ensures var st := SelectStep(s, f.right, f.hit, f.expansion, f.draw);
            Alternating(st.events, s.holding)
            && st.state.holding == HoldingAfter(st.events, s.holding)
            && Consistent(st.state)
  {
  }

  /** Over any run from a consistent state, grabs and releases strictly alternate:
      no second grab without a release in between, and no release without a hold. */
  lemma {:induction false} RunAlternates(s: SelectionState, frames: seq<Frame>)
    requires DrawsOk(frames) && Consistent(s)
    ensures Alternating(Run(s, frames).events, s.holding)
    ensures Run(s, frames).state.holding == HoldingAfter(Run(s, frames).events, s.holding)
    ensures Consistent(Run(s, frames).state)
    decreases |frames|
  {
    if frames != [] {
      var f := frames[0];
      StepAlternates(s, f);
      var st := SelectStep(s, f.right, f.hit, f.expansion, f.draw);
      assert DrawsOk(frames[1..]);
      var rest := Run(st.state, frames[1..]);
      assert Run(s, frames) == Step(rest.state, st.events + rest.events);
      RunAlternates(st.state, frames[1..]);
      AlternatingAppend(st.events, rest.events, s.holding);
      HoldingAfterAppend(st.events, rest.events, s.holding);
    }
  }

  /** A right hand at the cursor position, detected, pinching or not. */
  function RightHand(pinching: bool): Vision.HandData
  {
    Vision.HandData(true, false, Vision.Point2(0.0, 0.0), pinching)
  }

  /** Pinch sequence false, true, true, true, false with the same photo hit on every
      frame: exactly one grab (frame 2, of that photo), held on frames 2 to 4, and
      exactly one release (frame 5). */
  lemma PinchScenario(url: string, expansion: real, draw: real)
    requires url != "" && Unit(draw)
    ensures var hit := Nearest(Some(url));
            var s1 := SelectStep(Idle, RightHand(false), hit, expansion, draw);
            var s2 := SelectStep(s1.state, RightHand(true), hit, expansion, draw);
            var s3 := SelectStep(s2.state, RightHand(true), hit, expansion, draw);
            var s4 := SelectStep(s3.state, RightHand(true), hit, expansion, draw);
            var s5 := SelectStep(s4.state, RightHand(false), hit, expansion, draw);
            s1.events == [] && s2.events == [Some(url)] && s3.events == [] && s4.events == []
            && s5.events == [None]
            && !s1.state.holding && s2.state.holding && s3.state.holding && s4.state.holding
            && !s5.state.holding
  {
  }
}
