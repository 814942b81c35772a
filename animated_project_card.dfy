/**
 * The colour overlay of a project card of the "simple" site: it fades out as
 * the card scrolls into view and latches once fully revealed, until the
 * selected tag changes.
 */
module AnimatedProjectCard {
  import opened Wrappers
  import opened JsMath

  /** The card's bounding rectangle relative to the viewport, in px. */
  datatype Rect = Rect(top: real, bottom: real, height: real)

  /** Height at the bottom of the viewport that does not count as visible. */
  const BottomInset: real := 50.0

  /** The component's two state fields. */
  datatype Overlay = Overlay(opacity: real, revealed: bool)

  const Initial := Overlay(1.0, false)

  /** Opacity stays in [0,1], and a revealed card is fully uncovered. */
  predicate ValidOverlay(s: Overlay) {
    0.0 <= s.opacity <= 1.0 && (s.revealed ==> s.opacity == 0.0)
  }

  /** A rectangle the source can divide by: a card of zero height is not rendered. */
  predicate Measurable(rect: Option<Rect>) {
    rect.Some? ==> rect.value.height > 0.0
  }

  predicate InViewport(rect: Rect, windowHeight: real) {
    rect.top < windowHeight && rect.bottom > 0.0
  }

  /** The share of the card inside the viewport minus the bottom inset, clamped to [0,1]. */
  function VisibleFraction(rect: Rect, windowHeight: real): (f: real)
    requires rect.height > 0.0
    ensures 0.0 <= f <= 1.0
  {
    var visibleHeight := Min(rect.bottom, windowHeight - BottomInset) - Max(rect.top, 0.0);
    Max(0.0, Min(1.0, visibleHeight / rect.height))
  }

  /**
   * One run of `handleScroll` (lines 27-47); `rect` is None while the card is
   * not mounted. The latch freezes the overlay, a card outside the viewport
   * leaves it alone, and otherwise the opacity follows the current visibility,
   * whatever it was before, latching exactly when it reaches 0.
   */
  function Tick(s: Overlay, rect: Option<Rect>, windowHeight: real): (r: Overlay)
    requires Measurable(rect)
    ensures ValidOverlay(s) ==> ValidOverlay(r)
    ensures s.revealed ==> r == s
    ensures rect.None? || !InViewport(rect.value, windowHeight) ==> r == s
    ensures !s.revealed && rect.Some? && InViewport(rect.value, windowHeight) ==>
      r.opacity == 1.0 - VisibleFraction(rect.value, windowHeight) &&
      (r.revealed <==> VisibleFraction(rect.value, windowHeight) == 1.0)
  {
    if rect.None? || s.revealed then s
    else if !InViewport(rect.value, windowHeight) then s
    else
      var opacity := 1.0 - VisibleFraction(rect.value, windowHeight);
      Overlay(opacity, if opacity <= 0.0 then true else s.revealed)
  }

  /** A geometrically consistent rectangle of a card of height `height` whose top is at `top`. */
  function CardAt(top: real, height: real): Rect {
    Rect(top, top + height, height)
  }

  /** A card lying wholly within [0, windowHeight - 50] is latched at opacity 0. */
  lemma FullyVisibleCardLatches(s: Overlay, rect: Rect, windowHeight: real)
    requires !s.revealed
    requires rect.height > 0.0 && rect.height == rect.bottom - rect.top
    requires 0.0 <= rect.top && rect.bottom <= windowHeight - BottomInset
    ensures Tick(s, Some(rect), windowHeight) == Overlay(0.0, true)
  {
    assert Min(rect.bottom, windowHeight - BottomInset) - Max(rect.top, 0.0) == rect.height;
    assert rect.height / rect.height == 1.0;
  }

  /**
   * While the card scrolls up into view from below, the visible fraction never
   * shrinks: moving its top from `top` to the smaller `top'` (both >= 0).
   */
  lemma VisibilityGrowsAsCardRises(top: real, top': real, height: real, windowHeight: real)
    requires height > 0.0 && 0.0 <= top' <= top
    ensures VisibleFraction(CardAt(top', height), windowHeight) >= VisibleFraction(CardAt(top, height), windowHeight)
  {
    var v := Min(top + height, windowHeight - BottomInset) - top;
    var v' := Min(top' + height, windowHeight - BottomInset) - top';
    assert v <= v';
    DivisionMonotone(v, v', height);
  }

  lemma DivisionMonotone(a: real, b: real, d: real)
    requires d > 0.0 && a <= b
    ensures a / d <= b / d
  {
    assert b / d - a / d == (b - a) / d;
  }

  /**
   * Before the latch, scrolling back up re-covers the card: the comment at
   * line 31 promises fading only on the way down, but the code does not
   * enforce it.
   */
  lemma ScrollingBackRecovers()
    ensures var before := Overlay(0.5, false);
      var after := Tick(before, Some(Rect(750.0, 1750.0, 1000.0)), 1000.0);
      after == Overlay(0.8, false) && after.opacity > before.opacity
  {
    var rect := Rect(750.0, 1750.0, 1000.0);
    assert VisibleFraction(rect, 1000.0) == 0.2;
  }

  /** The card component; `handleScroll` runs once per animation frame. */
  class Card {
    var overlayOpacity: real
    var hasBeenRevealed: bool

    function State(): Overlay
      reads this
    {
      Overlay(overlayOpacity, hasBeenRevealed)
    }

    ghost predicate Valid()
      reads this
    {
      ValidOverlay(State())
    }

    constructor ()
      ensures State() == Initial && Valid()
    {
      overlayOpacity := 1.0;
      hasBeenRevealed := false;
    }

    /** The effect on a change of `selectedTag` (lines 20-23): back to covered and unlatched. */
    method ResetForTag()
      modifies this
      ensures State() == Initial && Valid()
    {
      overlayOpacity := 1.0;
      hasBeenRevealed := false;
    }

    /** `handleScroll`: `rect` is the card's bounding box, None while `cardRef.current` is null. */
    method HandleScroll(rect: Option<Rect>, windowHeight: real)
      requires Valid() && Measurable(rect)
      modifies this
      ensures Valid()
      ensures State() == Tick(old(State()), rect, windowHeight)
    {
      if rect.Some? && !hasBeenRevealed {
        var r := rect.value;
        if r.top < windowHeight && r.bottom > 0.0 {
          var visibleHeight := Min(r.bottom, windowHeight - BottomInset) - Max(r.top, 0.0);
          var cardHeight := r.height;
          var visiblePercentage := Max(0.0, Min(1.0, visibleHeight / cardHeight));
          var opacity := 1.0 - visiblePercentage;
          overlayOpacity := opacity;
          if opacity <= 0.0 {
            hasBeenRevealed := true;
          }
        }
      }
    }
  }
}
