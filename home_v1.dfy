/**
 * The landing page of the v1 site: the name, the role word and three links
 * fade in on a fixed schedule after load, and the name reacts to hovering as
 * in the v1 name display.
 */
module HomeV1 {
  import opened JsMath
  import opened Rotation
  import NameDisplayV1

  const Words: seq<string> := ["Developer", "Software Engineer", "UX/UI Designer", "Creative"]
  const Name: string := "tyler bulszewicz"

  /** The page elements revealed by the load effect. */
  datatype Element = NameLine | RoleWord | ServicesLink | ProjectsLink | ContactLink

  /** The load effect's timeouts, in the order written: element and delay in ms. */
  const RevealSchedule: seq<(Element, nat)> := [
    (NameLine, 200), (RoleWord, 700), (ServicesLink, 1200), (ProjectsLink, 1400), (ContactLink, 1600)
  ]

  /** The schedule reveals each element once, the name first, and the links left to right, each strictly after the one before. */
  lemma RevealOrder()
    ensures |RevealSchedule| == 5
    ensures forall i, j :: 0 <= i < j < |RevealSchedule| ==>
      RevealSchedule[i].1 < RevealSchedule[j].1 && RevealSchedule[i].0 != RevealSchedule[j].0
    ensures RevealSchedule[0].0 == NameLine
  {
  }

  /** The page's visibility flags; the leaves and the nav are declared but never set. */
  datatype PageState = PageState(
    nameVisible: bool, developerVisible: bool, servicesVisible: bool,
    projectsVisible: bool, contactVisible: bool,
    leaf1Visible: bool, leaf2Visible: bool, navVisible: bool)

  const Hidden := PageState(false, false, false, false, false, false, false, false)

  /** One reveal timeout fires. */
  function Reveal(s: PageState, e: Element): (r: PageState)
    ensures IsRevealed(r, e)
    ensures forall e' :: e' != e ==> IsRevealed(r, e') == IsRevealed(s, e')
    ensures r.leaf1Visible == s.leaf1Visible && r.leaf2Visible == s.leaf2Visible && r.navVisible == s.navVisible
  {
    match e
    case NameLine => s.(nameVisible := true)
    case RoleWord => s.(developerVisible := true)
    case ServicesLink => s.(servicesVisible := true)
    case ProjectsLink => s.(projectsVisible := true)
    case ContactLink => s.(contactVisible := true)
  }

  predicate IsRevealed(s: PageState, e: Element) {
    match e
    case NameLine => s.nameVisible
    case RoleWord => s.developerVisible
    case ServicesLink => s.servicesVisible
    case ProjectsLink => s.projectsVisible
    case ContactLink => s.contactVisible
  }

  /** The timeouts in `schedule` fire in order. */
  function RevealAll(s: PageState, schedule: seq<(Element, nat)>): PageState {
    if schedule == [] then s
    else Reveal(RevealAll(s, schedule[..|schedule| - 1]), schedule[|schedule| - 1].0)
  }

  /** Exactly the scheduled elements are revealed, whatever order their timeouts fire in; nothing else appears. */
  lemma {:induction false} RevealedAreScheduled(schedule: seq<(Element, nat)>, e: Element)
    ensures IsRevealed(RevealAll(Hidden, schedule), e) <==> exists k :: 0 <= k < |schedule| && schedule[k].0 == e
    ensures var r := RevealAll(Hidden, schedule); !r.leaf1Visible && !r.leaf2Visible && !r.navVisible
  {
    if schedule != [] {
      var init := schedule[..|schedule| - 1];
      RevealedAreScheduled(init, e);
      if exists k :: 0 <= k < |init| && init[k].0 == e {
        var k :| 0 <= k < |init| && init[k].0 == e;
        assert schedule[k].0 == e;
      }
      if exists k :: 0 <= k < |schedule| && schedule[k].0 == e {
        var k :| 0 <= k < |schedule| && schedule[k].0 == e;
        if k < |init| {
          assert init[k].0 == e;
        }
      }
    }
  }

  /** After the load sequence every revealed element is shown. */
  lemma LoadShowsEverything(e: Element)
    ensures IsRevealed(RevealAll(Hidden, RevealSchedule), e)
  {
    RevealedAreScheduled(RevealSchedule, e);
    match e
    case NameLine => assert RevealSchedule[0].0 == e;
    case RoleWord => assert RevealSchedule[1].0 == e;
    case ServicesLink => assert RevealSchedule[2].0 == e;
    case ProjectsLink => assert RevealSchedule[3].0 == e;
    case ContactLink => assert RevealSchedule[4].0 == e;
  }

  /** The page component. */
  class Home {
    var page: PageState
    var currentWordIndex: int
    var isVisible: bool
    var hoveredIndex: int

    ghost predicate Valid()
      reads this
    {
      0 <= currentWordIndex < |Words|
    }

    constructor ()
      ensures page == Hidden && currentWordIndex == 0 && isVisible && hoveredIndex == NameDisplayV1.NoHover
      ensures Valid()
    {
      page := Hidden;
      currentWordIndex := 0;
      isVisible := true;
      hoveredIndex := NameDisplayV1.NoHover;
    }

    /** The reveal timeout of element `e`. */
    method OnRevealTimer(e: Element)
      requires Valid()
      modifies this
      ensures Valid()
      ensures page == Reveal(old(page), e)
      ensures currentWordIndex == old(currentWordIndex) && isVisible == old(isVisible) && hoveredIndex == old(hoveredIndex)
    {
      match e
      case NameLine => page := page.(nameVisible := true);
      case RoleWord => page := page.(developerVisible := true);
      case ServicesLink => page := page.(servicesVisible := true);
      case ProjectsLink => page := page.(projectsVisible := true);
      case ContactLink => page := page.(contactVisible := true);
    }

    method OnRotationInterval()
      requires Valid()
      modifies this
      ensures Valid()
      ensures !isVisible && currentWordIndex == old(currentWordIndex) && page == old(page) && hoveredIndex == old(hoveredIndex)
    {
      isVisible := false;
    }

    method OnWordChange()
      requires Valid()
      modifies this
      ensures Valid()
      ensures currentWordIndex == NextIndex(old(currentWordIndex), |Words|)
      ensures isVisible && page == old(page) && hoveredIndex == old(hoveredIndex)
    {
      currentWordIndex := JsRem(currentWordIndex + 1, |Words|);
      isVisible := true;
    }

    method HandleMouseEnter(index: int)
      modifies this
      ensures hoveredIndex == index && page == old(page)
      ensures currentWordIndex == old(currentWordIndex) && isVisible == old(isVisible)
    {
      hoveredIndex := index;
    }

    method HandleMouseLeave()
      modifies this
      ensures hoveredIndex == NameDisplayV1.NoHover && page == old(page)
      ensures currentWordIndex == old(currentWordIndex) && isVisible == old(isVisible)
    {
      hoveredIndex := NameDisplayV1.NoHover;
    }

    /** The page's own `getLetterStyle`, the same rule as the name display's. */
    function GetLetterStyle(index: int): string
      reads this
    {
      NameDisplayV1.LetterStyle(hoveredIndex, index)
    }
  }
}
