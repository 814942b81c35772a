/**
 * The full-screen slide carousel of the v5 site: wrap-around navigation, an
 * animation lock released by the tween's completion callback, and trackpad
 * swipes while the pointer hovers.
 */
module SimpleProjectGallery {
  import opened Wrappers
  import opened JsMath

  /** Number of slides when no `projects` prop is given. */
  const DefaultProjectCount: nat := 11

  /**
   * The length of `projects || defaultProjects` (line 131): the defaults are
   * used only when the prop is absent; an array, even an empty one, is truthy.
   */
  function SlideCount(projectCount: Option<nat>): (n: nat)
    ensures projectCount.None? ==> n == DefaultProjectCount
    ensures projectCount.Some? ==> n == projectCount.value
    ensures n == 0 <==> projectCount == Some(0)
  {
    projectCount.GetOr(DefaultProjectCount)
  }

  /** Least |deltaX| of a wheel event that counts as a swipe. */
  const SwipeThreshold: real := 5.0

  /**
   * `((index % n) + n) % n` with JavaScript's `%`: the residue of `index`
   * modulo `n`, negative indices included.
   */
  function NormalizeIndex(index: int, n: int): (r: int)
    requires n > 0
    ensures 0 <= r < n
    ensures r == index % n
  {
    var inner := JsRem(index, n);
    assert JsRem(inner + n, n) == index % n by {
      if index >= 0 {
        ModUnique(inner + n, n, 1, inner);
        ModUnique(index, n, index / n, inner);
      } else {
        NegativeRem(index, n);
      }
    }
    JsRem(inner + n, n)
  }

  lemma NegativeRem(index: int, n: int)
    requires n > 0 && index < 0
    ensures JsRem(JsRem(index, n) + n, n) == index % n
  {
    var m := (-index) % n;
    var q := (-index) / n;
    assert -index == q * n + m;
    assert JsRem(index, n) == -m;
    if m == 0 {
      ModUnique(n, n, 1, 0);
      ModUnique(index, n, -q, 0);
    } else {
      ModUnique(n - m, n, 0, n - m);
      assert index == (-q - 1) * n + (n - m);
      ModUnique(index, n, -q - 1, n - m);
    }
  }

  /** The carousel's state: slide index, animation lock, hover flag and the track's target offset in vw. */
  datatype GalleryState = GalleryState(currentIndex: int, isAnimating: bool, isHovering: bool, trackOffsetVw: int)

  const Initial := GalleryState(0, false, false, 0)

  /** The index is in range and the track is (being moved) at the current slide. */
  predicate ValidState(s: GalleryState, n: int) {
    n > 0 && 0 <= s.currentIndex < n && s.trackOffsetVw == -s.currentIndex * 100
  }

  /**
   * `goToSlide(index)` (lines 149-169) on `n` slides; `trackMounted` is
   * `trackRef.current != null`. A move sets the normalised index, takes the
   * lock and sends the track to `-newIndex * 100vw`.
   */
  function GoTo(s: GalleryState, index: int, n: int, trackMounted: bool): (r: GalleryState)
    requires n > 0
    ensures !trackMounted || s.isAnimating ==> r == s
    ensures NormalizeIndex(index, n) == s.currentIndex ==> r == s
    ensures r != s ==>
      trackMounted && !s.isAnimating &&
      r == GalleryState(NormalizeIndex(index, n), true, s.isHovering, -NormalizeIndex(index, n) * 100)
    ensures ValidState(s, n) ==> ValidState(r, n)
    ensures r.isHovering == s.isHovering
  {
    if !trackMounted || s.isAnimating then s
    else
      var newIndex := NormalizeIndex(index, n);
      if newIndex == s.currentIndex then s
      else s.(currentIndex := newIndex, isAnimating := true, trackOffsetVw := -newIndex * 100)
  }

  /** A move that is not blocked and not to the current slide always happens. */
  lemma GoToMoves(s: GalleryState, index: int, n: int)
    requires n > 0 && !s.isAnimating && NormalizeIndex(index, n) != s.currentIndex
    ensures GoTo(s, index, n, true).currentIndex == NormalizeIndex(index, n)
    ensures GoTo(s, index, n, true).isAnimating
  {
  }

  /** `nextSlide` from the last slide wraps to the first. */
  lemma NextFromLastWraps(s: GalleryState, n: int)
    requires n > 1 && !s.isAnimating && s.currentIndex == n - 1
    ensures GoTo(s, s.currentIndex + 1, n, true).currentIndex == 0
  {
    assert NormalizeIndex(n, n) == 0 by {
      ModUnique(n, n, 1, 0);
    }
  }

  /** `prevSlide` from the first slide wraps to the last. */
  lemma PrevFromFirstWraps(s: GalleryState, n: int)
    requires n > 1 && !s.isAnimating && s.currentIndex == 0
    ensures GoTo(s, s.currentIndex - 1, n, true).currentIndex == n - 1
  {
    assert NormalizeIndex(-1, n) == n - 1 by {
      ModUnique(-1, n, -1, n - 1);
    }
  }

  /** The GSAP `onComplete` callback releases the lock and changes nothing else. */
  function AnimationComplete(s: GalleryState): (r: GalleryState)
    ensures !r.isAnimating
    ensures r.(isAnimating := s.isAnimating) == s
  {
    s.(isAnimating := false)
  }

  /** The dot buttons are disabled exactly while the lock is held. */
  function DotDisabled(s: GalleryState): (disabled: bool)
    ensures disabled <==> s.isAnimating
    ensures disabled ==> forall index, n, trackMounted :: n > 0 ==> GoTo(s, index, n, trackMounted) == s
  {
    s.isAnimating
  }

  /** Clicking an enabled-looking dot while disabled would change nothing either. */
  lemma DisabledDotIsNoop(s: GalleryState, index: int, n: int, trackMounted: bool)
    requires n > 0 && DotDisabled(s)
    ensures GoTo(s, index, n, trackMounted) == s
  {
  }

  /** A wheel event is a swipe when it is mostly horizontal and larger than the threshold. */
  predicate IsSwipe(deltaX: real, deltaY: real) {
    RealAbs(deltaX) > RealAbs(deltaY) && RealAbs(deltaX) > SwipeThreshold
  }

  /**
   * `handleWheel` (lines 195-213): returns the new state and whether
   * `preventDefault` was called. Only a swipe over a hovered, idle carousel
   * moves it: positive deltaX goes to the next slide, anything else to the previous.
   */
  function Wheel(s: GalleryState, deltaX: real, deltaY: real, n: int): (r: (GalleryState, bool))
    requires n > 0
    ensures r.0 != s ==> s.isHovering && !s.isAnimating && IsSwipe(deltaX, deltaY)
    ensures r.1 <==> s.isHovering && !s.isAnimating && IsSwipe(deltaX, deltaY)
    ensures r.1 && deltaX > 0.0 ==> r.0 == GoTo(s, s.currentIndex + 1, n, true)
    ensures r.1 && deltaX <= 0.0 ==> r.0 == GoTo(s, s.currentIndex - 1, n, true)
  {
    if s.isAnimating || !s.isHovering then (s, false)
    else if RealAbs(deltaX) > RealAbs(deltaY) && RealAbs(deltaX) > SwipeThreshold then
      if deltaX > 0.0 then (GoTo(s, s.currentIndex + 1, n, true), true)
      else (GoTo(s, s.currentIndex - 1, n, true), true)
    else (s, false)
  }

  /** The carousel component over `slideCount` slides. */
  class Gallery {
    const slideCount: nat
    var currentIndex: int
    var isAnimating: bool
    var isHovering: bool
    var trackOffsetVw: int

    function State(): GalleryState
      reads this
    {
      GalleryState(currentIndex, isAnimating, isHovering, trackOffsetVw)
    }

    ghost predicate Valid()
      reads this
    {
      ValidState(State(), slideCount)
    }

    /** `n` is the length of `projectsToUse`, never 0. */
    constructor (n: nat)
      requires n > 0
      ensures slideCount == n && State() == Initial && Valid()
    {
      slideCount := n;
      currentIndex := 0;
      isAnimating := false;
      isHovering := false;
      trackOffsetVw := 0;
    }

    method GoToSlide(index: int, trackMounted: bool)
      requires Valid()
      modifies this
      ensures Valid()
      ensures State() == GoTo(old(State()), index, slideCount, trackMounted)
    {
      if !trackMounted || isAnimating {
        return;
      }
      var newIndex := ((JsRem(index, slideCount)) + slideCount);
      newIndex := JsRem(newIndex, slideCount);
      if newIndex == currentIndex {
        return;
      }
      currentIndex := newIndex;
      isAnimating := true;
      trackOffsetVw := -newIndex * 100;
    }

    method NextSlide(trackMounted: bool)
      requires Valid()
      modifies this
      ensures Valid()
      ensures State() == GoTo(old(State()), old(currentIndex) + 1, slideCount, trackMounted)
    {
      GoToSlide(currentIndex + 1, trackMounted);
    }

    method PrevSlide(trackMounted: bool)
      requires Valid()
      modifies this
      ensures Valid()
      ensures State() == GoTo(old(State()), old(currentIndex) - 1, slideCount, trackMounted)
    {
      GoToSlide(currentIndex - 1, trackMounted);
    }

    /** The tween's `onComplete`. */
    method OnAnimationComplete()
      requires Valid()
      modifies this
      ensures Valid()
      ensures State() == AnimationComplete(old(State()))
    {
      isAnimating := false;
    }

    method HandleMouseEnter()
      requires Valid()
      modifies this
      ensures Valid()
      ensures State() == old(State()).(isHovering := true)
    {
      isHovering := true;
    }

    method HandleMouseLeave()
      requires Valid()
      modifies this
      ensures Valid()
      ensures State() == old(State()).(isHovering := false)
    {
      isHovering := false;
    }

    /** The wheel listener, attached only while slider and track are mounted. */
    method HandleWheel(deltaX: real, deltaY: real) returns (preventDefault: bool)
      requires Valid()
      modifies this
      ensures Valid()
      ensures (State(), preventDefault) == Wheel(old(State()), deltaX, deltaY, slideCount)
    {
      preventDefault := false;
      if isAnimating || !isHovering {
        return;
      }
      if RealAbs(deltaX) > RealAbs(deltaY) && RealAbs(deltaX) > SwipeThreshold {
        preventDefault := true;
        if deltaX > 0.0 {
          NextSlide(true);
        } else {
          PrevSlide(true);
        }
      }
    }
  }
}
