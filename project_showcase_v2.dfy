/**
 * The accordion strip of project images of the v2 site: the hovered image
 * widens, the others narrow, and its dimming overlay and vertical label fade away.
 */
module ProjectShowcaseV2 {
  import opened Wrappers

  /** `hoveredIndex` is -1 while the pointer is over no image. */
  const NoHover: int := -1

  const DefaultHeight: string := "50vh"

  /** `containerHeight = '50vh'` and `projectHeight = '50vh'`: defaults apply only when the prop is absent, not when it is "". */
  function HeightOrDefault(height: Option<string>): (h: string)
    ensures height.None? ==> h == DefaultHeight
    ensures height.Some? ==> h == height.value
  {
    height.GetOr(DefaultHeight)
  }

  const Widened: real := 2.0
  const Narrowed: real := 0.15
  const Even: real := 1.0

  /** The `flex` weight of image `index` (line 38): 2 when hovered, 0.15 when another is, else 1. */
  function FlexWeight(hoveredIndex: int, index: int): (w: real)
    ensures w == Widened <==> hoveredIndex == index
    ensures hoveredIndex == NoHover && index != NoHover ==> w == Even
    ensures hoveredIndex != index && hoveredIndex != NoHover ==> w == Narrowed
    ensures w > 0.0
  {
    if hoveredIndex == index then Widened
    else if hoveredIndex != NoHover then Narrowed
    else Even
  }

  /**
   * With no image hovered all share the strip evenly; with one hovered it
   * alone has weight 2 and every other image 0.15, so the hovered image is
   * the widest and the only widened one.
   */
  lemma FlexMeaning(hoveredIndex: int, index: int, other: int)
    requires index >= 0 && other >= 0 && index != other
    ensures hoveredIndex == NoHover ==> FlexWeight(hoveredIndex, index) == Even
    ensures FlexWeight(hoveredIndex, index) == Widened <==> hoveredIndex == index
    ensures hoveredIndex == index ==> FlexWeight(hoveredIndex, other) == Narrowed
    ensures FlexWeight(hoveredIndex, index) > FlexWeight(hoveredIndex, other) ==> hoveredIndex == index
  {
  }

  /** The total flex weight of `n` images. */
  function TotalFlex(hoveredIndex: int, n: nat): real {
    if n == 0 then 0.0 else TotalFlex(hoveredIndex, n - 1) + FlexWeight(hoveredIndex, n - 1)
  }

  /** The strip's width is shared out as weight over total: one hovered image of `n` gets 2/(2 + 0.15 (n - 1)). */
  lemma {:induction false} TotalFlexWithHover(hoveredIndex: int, n: nat)
    requires 0 <= hoveredIndex
    ensures TotalFlex(NoHover, n) == n as real
    ensures hoveredIndex < n ==> TotalFlex(hoveredIndex, n) == Widened + Narrowed * (n - 1) as real
    ensures hoveredIndex >= n ==> TotalFlex(hoveredIndex, n) == Narrowed * n as real
  {
    if n > 0 {
      TotalFlexWithHover(hoveredIndex, n - 1);
    }
  }

  /** Opacity of the dimming overlay, in percent (lines 57-58). */
  function OverlayOpacity(hoveredIndex: int, index: int): (o: nat)
    ensures o == 0 <==> hoveredIndex == index
    ensures o == 0 || o == 50
  {
    if hoveredIndex == index then 0 else 50
  }

  /** Opacity of the vertical name label, in percent (lines 66-67). */
  function LabelOpacity(hoveredIndex: int, index: int): (o: nat)
    ensures o == 0 <==> hoveredIndex == index
    ensures o == 0 || o == 100
  {
    if hoveredIndex == index then 0 else 100
  }

  /** The component: the hovered image and the images hidden after failing to load. */
  class Showcase {
    const count: nat
    var hoveredIndex: int
    var hiddenImages: set<nat>

    constructor (count: nat)
      ensures this.count == count && hoveredIndex == NoHover && hiddenImages == {}
    {
      this.count := count;
      hoveredIndex := NoHover;
      hiddenImages := {};
    }

    method HandleMouseEnter(index: nat)
      requires index < count
      modifies this
      ensures hoveredIndex == index && hiddenImages == old(hiddenImages)
    {
      hoveredIndex := index;
    }

    method HandleMouseLeave()
      modifies this
      ensures hoveredIndex == NoHover && hiddenImages == old(hiddenImages)
    {
      hoveredIndex := NoHover;
    }

    /** The image's `onError`: it is hidden with `display: none`; the logging is not modelled. */
    method HandleImageError(index: nat)
      requires index < count
      modifies this
      ensures hiddenImages == old(hiddenImages) + {index} && hoveredIndex == old(hoveredIndex)
    {
      hiddenImages := hiddenImages + {index};
    }

    function Flex(index: int): real
      reads this
    {
      FlexWeight(hoveredIndex, index)
    }
  }
}
