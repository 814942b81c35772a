/** The hide-on-scroll navigation bar of the v5 site. */
module Navbar {

  /** Above this scroll offset the bar is always shown. */
  const TopZone: real := 10.0

  /** Scrolling down hides the bar only past this offset. */
  const HideAfter: real := 100.0

  datatype NavState = NavState(isVisible: bool, lastScrollY: real)

  /** `useState(true)` and `useState(0)`. */
  const Initial := NavState(true, 0.0)

  /**
   * One scroll event (lines 14-27). Near the top or on the way up the bar is
   * shown; it is hidden only by scrolling down past 100; anything else keeps
   * the visibility; the position is always remembered.
   */
  function OnScroll(s: NavState, currentScrollY: real): (r: NavState)
    ensures r.lastScrollY == currentScrollY
    ensures currentScrollY < TopZone || currentScrollY < s.lastScrollY ==> r.isVisible
    ensures s.isVisible && !r.isVisible ==> currentScrollY > s.lastScrollY && currentScrollY > HideAfter
    ensures currentScrollY > s.lastScrollY && currentScrollY > HideAfter ==> !r.isVisible
    ensures TopZone <= currentScrollY <= HideAfter && currentScrollY >= s.lastScrollY ==> r.isVisible == s.isVisible
    ensures currentScrollY == s.lastScrollY && currentScrollY >= TopZone ==> r.isVisible == s.isVisible
  {
    var isVisible :=
      if currentScrollY < s.lastScrollY || currentScrollY < TopZone then true
      else if currentScrollY > s.lastScrollY && currentScrollY > HideAfter then false
      else s.isVisible;
    NavState(isVisible, currentScrollY)
  }

  /** Replaying scroll positions from the initial state. */
  function Replay(positions: seq<real>): NavState {
    if positions == [] then Initial
    else OnScroll(Replay(positions[..|positions| - 1]), positions[|positions| - 1])
  }

  /** The bar is hidden after a run of events only if the last event went down past 100 or kept a hidden bar hidden. */
  lemma {:induction false} HiddenOnlyBelowHideLine(positions: seq<real>)
    ensures !Replay(positions).isVisible ==> positions != [] && positions[|positions| - 1] > HideAfter
    ensures Replay(positions).lastScrollY == if positions == [] then 0.0 else positions[|positions| - 1]
  {
    if positions != [] {
      HiddenOnlyBelowHideLine(positions[..|positions| - 1]);
    }
  }

  class Bar {
    var isVisible: bool
    var lastScrollY: real

    function State(): NavState
      reads this
    {
      NavState(isVisible, lastScrollY)
    }

    constructor ()
      ensures State() == Initial
    {
      isVisible := true;
      lastScrollY := 0.0;
    }

    /** `handleScroll`, reading `window.scrollY`. */
    method HandleScroll(currentScrollY: real)
      modifies this
      ensures State() == OnScroll(old(State()), currentScrollY)
    {
      if currentScrollY < lastScrollY || currentScrollY < TopZone {
        isVisible := true;
      } else if currentScrollY > lastScrollY && currentScrollY > HideAfter {
        isVisible := false;
      }
      lastScrollY := currentScrollY;
    }
  }
}
