/**
 * The projects page of the v1 site: a horizontally scrolling strip of seven
 * 80vw cards. A debounced scroll handler snaps the active card to the nearest
 * position and, as written, jumps back to the other end when the offset is
 * past either end; an interval advances the active card, and clicking a card
 * activates it. The offset is any real: the browser's clamping of
 * `scrollLeft` is not part of this model.
 */
module CarouselV1 {
  import opened Wrappers
  import opened JsMath
  import opened Rotation

  const CardCount: nat := 7
  const CardWidthVw: real := 80.0
  const DebounceMs: nat := 150
  const AutoAdvanceMs: nat := 3000
  const HomeDelayMs: nat := 500

  /** `cardWidth * (window.innerWidth / 100)`: the width of one card in px. */
  function CardTotalWidth(innerWidth: real): (w: real)
    requires innerWidth > 0.0
    ensures w > 0.0
  {
    CardWidthVw * (innerWidth / 100.0)
  }

  /** The scroll strip's active card and scroll offset, in px. */
  datatype Strip = Strip(activeIndex: int, scrollLeft: real)

  predicate ValidStrip(s: Strip) {
    0 <= s.activeIndex < CardCount
  }

  /**
   * `handleScroll` (lines 30-52): the nearest card becomes active; past the
   * last card the strip jumps back to the first, before the first it jumps
   * to the last. `containerMounted` is `scrollContainerRef.current != null`.
   */
  function OnScroll(s: Strip, containerMounted: bool, innerWidth: real): (r: Strip)
    requires innerWidth > 0.0
    ensures !containerMounted ==> r == s
    ensures containerMounted ==> ValidStrip(r)
    ensures containerMounted ==>
      var nearest := JsRound(s.scrollLeft / CardTotalWidth(innerWidth));
      (nearest >= CardCount ==> r == Strip(0, 0.0)) &&
      (nearest < 0 ==> r == Strip(CardCount - 1, (CardCount - 1) as real * CardTotalWidth(innerWidth))) &&
      (0 <= nearest < CardCount ==> r == s.(activeIndex := nearest))
  {
    if !containerMounted then s
    else
      var cardTotalWidth := CardTotalWidth(innerWidth);
      var newActiveIndex := JsRound(s.scrollLeft / cardTotalWidth);
      if newActiveIndex >= CardCount then Strip(0, 0.0)
      else if newActiveIndex < 0 then Strip(CardCount - 1, (CardCount - 1) as real * cardTotalWidth)
      else s.(activeIndex := newActiveIndex)
  }

  /** The effect on `activeIndex` (lines 68-78): the offset the strip smoothly scrolls to. */
  function ScrollTarget(activeIndex: int, innerWidth: real): real {
    (activeIndex as real * CardWidthVw) * (innerWidth / 100.0)
  }

  /**
   * The smooth scroll and the scroll handler agree: once the strip has
   * reached the offset of the active card, the handler keeps that card
   * active and does not move the strip.
   */
  lemma ScrollTargetIsStable(activeIndex: int, innerWidth: real)
    requires innerWidth > 0.0 && 0 <= activeIndex < CardCount
    ensures var at := Strip(activeIndex, ScrollTarget(activeIndex, innerWidth));
      OnScroll(at, true, innerWidth) == at
  {
    var w := CardTotalWidth(innerWidth);
    assert ScrollTarget(activeIndex, innerWidth) / w == activeIndex as real;
    JsRoundOfInteger(activeIndex);
  }

  /** Dividing by a positive width preserves bounds both ways. */
  lemma DivideBounds(a: real, w: real, bound: real)
    requires w > 0.0
    ensures bound * w <= a <==> bound <= a / w
    ensures a < bound * w <==> a / w < bound
  {
    var x := a / w;
    assert a == x * w;
    assert x * w - bound * w == (x - bound) * w;
    if x - bound >= 0.0 {
      assert (x - bound) * w >= 0.0;
    } else {
      assert (bound - x) * w > 0.0;
    }
  }

  /** An offset within half a card of card `k`'s position makes `k` active, for every card `k`. */
  lemma ScrollSnapsToNearest(s: Strip, innerWidth: real, k: int)
    requires innerWidth > 0.0 && 0 <= k < CardCount
    requires var w := CardTotalWidth(innerWidth); (k as real - 0.5) * w <= s.scrollLeft < (k as real + 0.5) * w
    ensures OnScroll(s, true, innerWidth) == s.(activeIndex := k)
  {
    var w := CardTotalWidth(innerWidth);
    DivideBounds(s.scrollLeft, w, k as real - 0.5);
    DivideBounds(s.scrollLeft, w, k as real + 0.5);
  }

  /** The strip jumps only when its offset is half a card or more past the last card, or more than half a card before the first. */
  lemma WrapsOnlyPastTheEnds(s: Strip, innerWidth: real)
    requires innerWidth > 0.0 && OnScroll(s, true, innerWidth).scrollLeft != s.scrollLeft
    ensures var w := CardTotalWidth(innerWidth);
      s.scrollLeft >= (CardCount as real - 0.5) * w || s.scrollLeft < -0.5 * w
  {
    var w := CardTotalWidth(innerWidth);
    DivideBounds(s.scrollLeft, w, CardCount as real - 0.5);
    DivideBounds(s.scrollLeft, w, -0.5);
  }

  /** `handleCardClick(index)`: the clicked card becomes active. */
  function Click(s: Strip, index: int): (r: Strip)
    ensures r.activeIndex == index && r.scrollLeft == s.scrollLeft
  {
    s.(activeIndex := index)
  }

  /** The 3 s interval: the next card, the first after the last. */
  function AutoAdvance(s: Strip): (r: Strip)
    requires ValidStrip(s)
    ensures ValidStrip(r) && r.scrollLeft == s.scrollLeft
    ensures r.activeIndex == NextIndex(s.activeIndex, CardCount)
  {
    s.(activeIndex := NextIndex(s.activeIndex, CardCount))
  }

  // ---------------------------------------------------------------------------
  // The debounce

  /**
   * The debounce timer: `handle` is the id held by `debouncedScrollHandler`,
   * `live` the ids of timeouts not yet fired or cleared, `nextId` the id the
   * next `setTimeout` returns.
   */
  datatype Debounce = Debounce(handle: Option<nat>, live: set<nat>, nextId: nat)

  const NoTimer := Debounce(None, {}, 1)

  /** At most one timeout is live, and it is the one the ref holds. */
  predicate ValidDebounce(d: Debounce) {
    (d.live == {} || (d.handle.Some? && d.live == {d.handle.value})) &&
    (forall id :: id in d.live ==> id < d.nextId) &&
    (d.handle.Some? ==> d.handle.value < d.nextId) && d.nextId > 0
  }

  /** `handleSmoothScroll`: clear the pending timeout, if any, and start a fresh 150 ms one. */
  function OnScrollEvent(d: Debounce): (r: Debounce)
    ensures ValidDebounce(d) ==> ValidDebounce(r) && r.live == {d.nextId}
    ensures r.handle == Some(d.nextId) && d.nextId in r.live
  {
    var live := if d.handle.Some? then d.live - {d.handle.value} else d.live;
    assert ValidDebounce(d) ==> d.live <= (if d.handle.Some? then {d.handle.value} else {});
    Debounce(Some(d.nextId), live + {d.nextId}, d.nextId + 1)
  }

  /** The live timeout fires and leaves the live set; the ref keeps its stale id. */
  function OnDebounceFired(d: Debounce, id: nat): (r: Debounce)
    requires id in d.live
    ensures ValidDebounce(d) ==> ValidDebounce(r) && r.live == {}
    ensures r.handle == d.handle
  {
    d.(live := d.live - {id})
  }

  /** The cleanup on unmount clears the pending timeout. */
  function Unmount(d: Debounce): (r: Debounce)
    ensures ValidDebounce(d) ==> r.live == {}
  {
    if d.handle.Some? then d.(live := d.live - {d.handle.value}) else d
  }

  /** `k` scroll events in a row. */
  function Burst(d: Debounce, k: nat): Debounce {
    if k == 0 then d else OnScrollEvent(Burst(d, k - 1))
  }

  /** However many scroll events arrive within 150 ms, only the last one's timeout stays live, so the handler runs once. */
  lemma {:induction false} BurstLeavesOneTimer(d: Debounce, k: nat)
    requires ValidDebounce(d) && k > 0
    ensures ValidDebounce(Burst(d, k))
    ensures Burst(d, k).live == {d.nextId + k - 1}
    ensures Burst(d, k).handle == Some(d.nextId + k - 1)
  {
    if k > 1 {
      BurstLeavesOneTimer(d, k - 1);
    }
  }

  // ---------------------------------------------------------------------------
  // Card looks

  /** Only the active card is fully opaque. */
  function CardOpacityClass(index: int, activeIndex: int): string {
    if index == activeIndex then "opacity-100" else "opacity-40"
  }

  /** The image transform: horizontal offset in px and scale. */
  datatype Transform = Transform(offsetPx: int, scale: real)

  function ImageTransform(index: int, activeIndex: int): Transform {
    if index == activeIndex then Transform((index - activeIndex) * 15, 1.05) else Transform(0, 1.0)
  }

  /**
   * Exactly one card is fully opaque and enlarged; the parallax offset is
   * computed only for the active card, where it is always 0, so no image is
   * ever shifted.
   */
  lemma CardLooks(activeIndex: int, index: int)
    requires 0 <= activeIndex < CardCount
    ensures ImageTransform(index, activeIndex).offsetPx == 0
    ensures ImageTransform(index, activeIndex).scale == 1.05 <==> index == activeIndex
    ensures CardOpacityClass(index, activeIndex) == "opacity-100" <==> index == activeIndex
    ensures exists k :: 0 <= k < CardCount && CardOpacityClass(k, activeIndex) == "opacity-100"
  {
    assert CardOpacityClass(activeIndex, activeIndex) == "opacity-100";
  }

  // ---------------------------------------------------------------------------
  // The page

  class ProjectsPage {
    var activeIndex: int
    var scrollLeft: real
    var homeVisible: bool
    var debounce: Debounce

    function StripState(): Strip
      reads this
    {
      Strip(activeIndex, scrollLeft)
    }

    ghost predicate Valid()
      reads this
    {
      ValidStrip(StripState()) && ValidDebounce(debounce)
    }

    constructor ()
      ensures StripState() == Strip(0, 0.0) && !homeVisible && debounce == NoTimer && Valid()
    {
      activeIndex := 0;
      scrollLeft := 0.0;
      homeVisible := false;
      debounce := NoTimer;
    }

    /** The strip's `onScroll`. */
    method HandleSmoothScroll()
      requires Valid()
      modifies this
      ensures Valid()
      ensures debounce == OnScrollEvent(old(debounce)) && StripState() == old(StripState())
      ensures homeVisible == old(homeVisible)
    {
      if debounce.handle.Some? {
        debounce := debounce.(live := debounce.live - {debounce.handle.value});
      }
      var id := debounce.nextId;
      debounce := Debounce(Some(id), debounce.live + {id}, id + 1);
    }

    /** The debounce timeout `id` fires and runs `handleScroll`. */
    method OnDebounceTimer(id: nat, containerMounted: bool, innerWidth: real)
      requires Valid() && id in debounce.live && innerWidth > 0.0
      modifies this
      ensures Valid()
      ensures debounce == OnDebounceFired(old(debounce), id)
      ensures StripState() == OnScroll(old(StripState()), containerMounted, innerWidth)
      ensures homeVisible == old(homeVisible)
    {
      debounce := debounce.(live := debounce.live - {id});
      if containerMounted {
        var cardTotalWidth := CardWidthVw * (innerWidth / 100.0);
        var newActiveIndex := JsRound(scrollLeft / cardTotalWidth);
        if newActiveIndex >= CardCount {
          activeIndex := 0;
          scrollLeft := 0.0;
        } else if newActiveIndex < 0 {
          activeIndex := CardCount - 1;
          scrollLeft := (CardCount - 1) as real * cardTotalWidth;
        } else {
          activeIndex := newActiveIndex;
        }
      }
    }

    method HandleCardClick(index: int)
      requires Valid() && 0 <= index < CardCount
      modifies this
      ensures Valid()
      ensures StripState() == Click(old(StripState()), index)
      ensures debounce == old(debounce) && homeVisible == old(homeVisible)
    {
      activeIndex := index;
    }

    method OnAutoAdvance()
      requires Valid()
      modifies this
      ensures Valid()
      ensures StripState() == AutoAdvance(old(StripState()))
      ensures debounce == old(debounce) && homeVisible == old(homeVisible)
    {
      activeIndex := JsRem(activeIndex + 1, CardCount);
    }

    /** The strip reports a new scroll offset, from the user or a smooth scroll. */
    method OnScrolled(offset: real)
      requires Valid()
      modifies this
      ensures Valid()
      ensures StripState() == old(StripState()).(scrollLeft := offset)
      ensures debounce == old(debounce) && homeVisible == old(homeVisible)
    {
      scrollLeft := offset;
    }

    /** The 500 ms timeout of the load effect. */
    method OnHomeTimer()
      requires Valid()
      modifies this
      ensures Valid()
      ensures homeVisible && StripState() == old(StripState()) && debounce == old(debounce)
    {
      homeVisible := true;
    }

    method OnUnmount()
      requires Valid()
      modifies this
      ensures debounce == Unmount(old(debounce)) && debounce.live == {}
      ensures StripState() == old(StripState()) && homeVisible == old(homeVisible)
    {
      if debounce.handle.Some? {
        debounce := debounce.(live := debounce.live - {debounce.handle.value});
      }
    }
  }
}
