/**
 * The pinned panel of the v5 site across which a line of text slides while
 * the panel scrolls: from off-screen on one side to off-screen on the other.
 */
module LocomotiveScroll {
  import opened Wrappers

  datatype Direction = Left | Right

  /** `direction = 'right'`: the default applies when the prop is absent. */
  function DirectionOrDefault(direction: Option<Direction>): (d: Direction)
    ensures direction.None? ==> d == Right
    ensures direction.Some? ==> d == direction.value
  {
    direction.GetOr(Right)
  }

  /** `scrollHeight = '100vh'`. */
  function ScrollHeightOrDefault(scrollHeight: Option<string>): (h: string)
    ensures scrollHeight.None? ==> h == "100vh"
    ensures scrollHeight.Some? ==> h == scrollHeight.value
  {
    scrollHeight.GetOr("100vh")
  }

  /** The text's starting offset: just left of the container going right, at its right edge going left. */
  function StartX(direction: Direction, containerWidth: real, textWidth: real): real {
    if direction == Right then -textWidth else containerWidth
  }

  function EndX(direction: Direction, containerWidth: real, textWidth: real): real {
    if direction == Right then containerWidth else -textWidth
  }

  /**
   * The offset `gsap.set` gives the text before any scroll (lines 38-44).
   * The source computes it apart from the slide's start, so it is written out
   * apart here too, and `SlideShape` proves the two agree.
   */
  function InitialX(direction: Direction, containerWidth: real, textWidth: real): real {
    if direction == Right then -textWidth else containerWidth
  }

  /** `onUpdate` (line 78): linear interpolation from start to end at scroll progress `progress`. */
  function TranslateX(direction: Direction, containerWidth: real, textWidth: real, progress: real): (x: real)
    ensures progress == 0.0 ==> x == StartX(direction, containerWidth, textWidth)
    ensures progress == 1.0 ==> x == EndX(direction, containerWidth, textWidth)
  {
    var startX := StartX(direction, containerWidth, textWidth);
    var endX := EndX(direction, containerWidth, textWidth);
    startX + (endX - startX) * progress
  }

  /**
   * The slide is continuous with the initial placement, stays between its
   * two ends during the scroll, moves rightwards (or leftwards) as the
   * panel scrolls on, and the two directions mirror each other.
   */
  lemma SlideShape(direction: Direction, containerWidth: real, textWidth: real, p: real, p': real)
    requires 0.0 <= p <= 1.0 && 0.0 <= p' <= 1.0 && containerWidth >= 0.0 && textWidth >= 0.0
    ensures TranslateX(direction, containerWidth, textWidth, 0.0) == InitialX(direction, containerWidth, textWidth)
    ensures -textWidth <= TranslateX(direction, containerWidth, textWidth, p) <= containerWidth
    ensures p <= p' ==>
      (direction == Right ==> TranslateX(Right, containerWidth, textWidth, p) <= TranslateX(Right, containerWidth, textWidth, p')) &&
      (direction == Left ==> TranslateX(Left, containerWidth, textWidth, p) >= TranslateX(Left, containerWidth, textWidth, p'))
    ensures TranslateX(Left, containerWidth, textWidth, p) == TranslateX(Right, containerWidth, textWidth, 1.0 - p)
  {
    SlideBetweenEnds(direction, containerWidth, textWidth, p, if p <= p' then p' else p);
    SlidesMirror(containerWidth, textWidth, p);
  }

  lemma SlideBetweenEnds(direction: Direction, containerWidth: real, textWidth: real, p: real, p': real)
    requires 0.0 <= p <= p' <= 1.0 && containerWidth >= 0.0 && textWidth >= 0.0
    ensures -textWidth <= TranslateX(direction, containerWidth, textWidth, p) <= containerWidth
    ensures direction == Right ==> TranslateX(Right, containerWidth, textWidth, p) <= TranslateX(Right, containerWidth, textWidth, p')
    ensures direction == Left ==> TranslateX(Left, containerWidth, textWidth, p) >= TranslateX(Left, containerWidth, textWidth, p')
  {
    match direction
    case Right => SlideRight(containerWidth, textWidth, p, p');
    case Left => SlideLeft(containerWidth, textWidth, p, p');
  }

  lemma SlideRight(containerWidth: real, textWidth: real, p: real, p': real)
    requires 0.0 <= p <= p' <= 1.0 && containerWidth >= 0.0 && textWidth >= 0.0
    ensures -textWidth <= TranslateX(Right, containerWidth, textWidth, p) <= TranslateX(Right, containerWidth, textWidth, p') <= containerWidth
  {
    var x, x' := TranslateX(Right, containerWidth, textWidth, p), TranslateX(Right, containerWidth, textWidth, p');
    RisingInterpolation(-textWidth, containerWidth, p, p', x, x');
  }

  lemma SlideLeft(containerWidth: real, textWidth: real, p: real, p': real)
    requires 0.0 <= p <= p' <= 1.0 && containerWidth >= 0.0 && textWidth >= 0.0
    ensures -textWidth <= TranslateX(Left, containerWidth, textWidth, p') <= TranslateX(Left, containerWidth, textWidth, p) <= containerWidth
  {
    var x, x' := TranslateX(Left, containerWidth, textWidth, p), TranslateX(Left, containerWidth, textWidth, p');
    FallingInterpolation(containerWidth, -textWidth, p, p', x, x');
  }

  /** Interpolating upwards at `p <= p'` stays between the ends, in order. */
  lemma RisingInterpolation(a: real, b: real, p: real, p': real, x: real, x': real)
    requires 0.0 <= p <= p' <= 1.0 && a <= b
    requires x == a + (b - a) * p && x' == a + (b - a) * p'
    ensures a <= x <= x' <= b
  {
    var d := b - a;
    assert x' - x == d * (p' - p);
    assert b - x' == d * (1.0 - p');
    ProductNonNegative(d, p);
    ProductNonNegative(d, p' - p);
    ProductNonNegative(d, 1.0 - p');
  }

  /** Interpolating downwards at `p <= p'` stays between the ends, in reverse order. */
  lemma FallingInterpolation(a: real, b: real, p: real, p': real, x: real, x': real)
    requires 0.0 <= p <= p' <= 1.0 && b <= a
    requires x == a + (b - a) * p && x' == a + (b - a) * p'
    ensures b <= x' <= x <= a
  {
    var d := a - b;
    assert x == a - d * p;
    assert x' == a - d * p';
    assert x - x' == d * (p' - p);
    assert x' - b == d * (1.0 - p');
    ProductNonNegative(d, p);
    ProductNonNegative(d, p' - p);
    ProductNonNegative(d, 1.0 - p');
  }

  lemma ProductNonNegative(x: real, y: real)
    requires x >= 0.0 && y >= 0.0
    ensures x * y >= 0.0
  {
  }

  /** Sliding left at progress p is sliding right at progress 1 - p. */
  lemma SlidesMirror(containerWidth: real, textWidth: real, p: real)
    ensures TranslateX(Left, containerWidth, textWidth, p) == TranslateX(Right, containerWidth, textWidth, 1.0 - p)
  {
    var span := containerWidth + textWidth;
    assert TranslateX(Left, containerWidth, textWidth, p) == containerWidth + (-span) * p;
    assert TranslateX(Right, containerWidth, textWidth, 1.0 - p) == -textWidth + span * (1.0 - p);
    assert span * (1.0 - p) == span - span * p;
  }
}
