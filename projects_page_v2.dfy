/**
 * The projects page of the v2 site: seven images in the same accordion
 * strip as the showcase, and a navigation bar that fades in 800 ms after load.
 */
module ProjectsPageV2 {
  import ProjectShowcaseV2

  const ImageCount: nat := 7
  const NavDelayMs: nat := 800

  /** The page's strip uses the showcase's flex rule: hovering one of the seven widens it alone. */
  lemma StripMatchesShowcase(hoveredIndex: int)
    requires 0 <= hoveredIndex < ImageCount
    ensures ProjectShowcaseV2.TotalFlex(hoveredIndex, ImageCount) == 2.9
    ensures forall i :: 0 <= i < ImageCount && i != hoveredIndex ==> ProjectShowcaseV2.FlexWeight(hoveredIndex, i) == 0.15
  {
    ProjectShowcaseV2.TotalFlexWithHover(hoveredIndex, ImageCount);
  }

  class ProjectsPage {
    var navVisible: bool
    var hoveredIndex: int
    var hiddenImages: set<nat>

    constructor ()
      ensures !navVisible && hoveredIndex == ProjectShowcaseV2.NoHover && hiddenImages == {}
    {
      navVisible := false;
      hoveredIndex := ProjectShowcaseV2.NoHover;
      hiddenImages := {};
    }

    /** The 800 ms timeout of the load effect. */
    method OnNavTimer()
      modifies this
      ensures navVisible && hoveredIndex == old(hoveredIndex) && hiddenImages == old(hiddenImages)
    {
      navVisible := true;
    }

    method HandleMouseEnter(index: nat)
      requires index < ImageCount
      modifies this
      ensures hoveredIndex == index && navVisible == old(navVisible) && hiddenImages == old(hiddenImages)
    {
      hoveredIndex := index;
    }

    method HandleMouseLeave()
      modifies this
      ensures hoveredIndex == ProjectShowcaseV2.NoHover && navVisible == old(navVisible) && hiddenImages == old(hiddenImages)
    {
      hoveredIndex := ProjectShowcaseV2.NoHover;
    }

    method HandleImageError(index: nat)
      requires index < ImageCount
      modifies this
      ensures hiddenImages == old(hiddenImages) + {index}
      ensures navVisible == old(navVisible) && hoveredIndex == old(hoveredIndex)
    {
      hiddenImages := hiddenImages + {index};
    }

    function Flex(index: int): real
      reads this
    {
      ProjectShowcaseV2.FlexWeight(hoveredIndex, index)
    }
  }
}
