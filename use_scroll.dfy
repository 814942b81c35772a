/** The v3 site's scroll hook: the scroll offset and two capped parallax values derived from it. */
module UseScroll {

  /** The gradient moves by at most 100 (percent). */
  const GradientCap: real := 100.0

  /** The content moves up by at most 200 px. */
  const TranslateCap: real := 200.0

  function MinReal(a: real, b: real): real { if a <= b then a else b }

  /** `Math.min(scrollY * 0.1, 100)`. */
  function GradientPosition(scrollY: real): (g: real)
    ensures g <= GradientCap
    ensures scrollY * 0.1 <= GradientCap ==> g == scrollY * 0.1
    ensures scrollY >= 0.0 ==> g >= 0.0
  {
    MinReal(scrollY * 0.1, GradientCap)
  }

  /** `Math.min(scrollY * 0.3, 200)`. */
  function TranslateY(scrollY: real): (t: real)
    ensures t <= TranslateCap
    ensures scrollY * 0.3 <= TranslateCap ==> t == scrollY * 0.3
    ensures scrollY >= 0.0 ==> t >= 0.0
  {
    MinReal(scrollY * 0.3, TranslateCap)
  }

  /**
   * Both values follow the scroll: they never decrease as the page scrolls
   * down, and each reaches its cap exactly from its threshold on (1000 px
   * for the gradient, 2000/3 px for the translation).
   */
  lemma ParallaxIsMonotoneAndCapped(y: real, y': real)
    ensures y <= y' ==> GradientPosition(y) <= GradientPosition(y') && TranslateY(y) <= TranslateY(y')
    ensures GradientPosition(y) == GradientCap <==> y >= 1000.0
    ensures TranslateY(y) == TranslateCap <==> y * 3.0 >= 2000.0
  {
  }

  /** The hook's state and the values it returns. */
  class ScrollHook {
    var scrollY: real

    constructor ()
      ensures scrollY == 0.0
    {
      scrollY := 0.0;
    }

    /** The `scroll` listener, reading `window.scrollY`. */
    method HandleScroll(windowScrollY: real)
      modifies this
      ensures scrollY == windowScrollY
    {
      scrollY := windowScrollY;
    }

    /** The hook's result: `{ scrollY, gradientPosition, translateY }`. */
    function Values(): (v: (real, real, real))
      reads this
      ensures v.0 == scrollY && v.1 == GradientPosition(scrollY) && v.2 == TranslateY(scrollY)
      ensures v.1 <= GradientCap && v.2 <= TranslateCap
      ensures scrollY >= 0.0 ==> v.1 >= 0.0 && v.2 >= 0.0
    {
      (scrollY, GradientPosition(scrollY), TranslateY(scrollY))
    }
  }
}
