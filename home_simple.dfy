/**
 * The landing page of the "simple" site: the role picker drives the grid's
 * tag filter, and leaves, name, picker and grid fade in one after another.
 */
module HomeSimple {
  import opened Wrappers
  import opened ProjectGrid
  import RoleSection

  const AllProjects: string := "All Projects"

  function Card(title: string, image: string, tag: string, cardType: CardType): Project {
    Project(title, image, [tag], Some(cardType), None)
  }

  /** The page's eleven projects, in order. */
  const SiteProjects: seq<Project> := [
    Card("Avivemos Lumo", "/gd-project-avivemoslumo.png", "Developer", Regular),
    Card("Brochure Design", "/gd-project-brochure.png", "Creative", Large),
    Card("Espriddle", "/gd-project-espriddle.png", "UX/UI Designer", Regular),
    Card("Forever Open", "/gd-project-foreveropen.png", "Developer", Regular),
    Card("Hineni", "/gd-project-hineni.png", "Creative", Regular),
    Card("KidFit", "/gd-project-kidfit.png", "UX/UI Designer", Large),
    Card("LavaLips", "/gd-project-lavalips.png", "Developer", Regular),
    Card("Lines of Order", "/gd-project-linesoforder.png", "Developer", Regular),
    Card("Living Shorelines", "/gd-project-livingshorelines.png", "Creative", Large),
    Card("Step by Step", "/gd-project-stepbystep.png", "UX/UI Designer", Regular),
    Card("Vintage Collection", "/gd-project-vintage.png", "Creative", Regular)
  ]

  /** The fade-in order; element `i` appears after `i * 300` ms. */
  const RevealElements: seq<string> := ["leaves", "name", "role", "projects"]
  const RevealStepMs: nat := 300

  /** Each element is due at least 300 ms after every element before it. */
  function RevealDelay(index: nat): (ms: nat)
    ensures forall j: nat :: j < index ==> j * RevealStepMs + RevealStepMs <= ms
    ensures index == 0 ==> ms == 0
    ensures index > 0 ==> ms == RevealDelay(index - 1) + RevealStepMs
  {
    index * RevealStepMs
  }

  datatype PageState = PageState(selectedTag: string, showAllProjects: bool, visibleElements: set<string>)

  const Initial := PageState(AllProjects, true, {})

  /** The grid shows everything exactly when "All Projects" is the selected tag. */
  predicate ConsistentMode(s: PageState) {
    s.showAllProjects <==> s.selectedTag == AllProjects
  }

  /** `handleRoleChange(role)`: the tag always follows the role, and show-all mode is on exactly for "All Projects". */
  function RoleChange(s: PageState, role: string): (r: PageState)
    ensures r.selectedTag == role
    ensures r.showAllProjects <==> role == AllProjects
    ensures ConsistentMode(r)
    ensures r.visibleElements == s.visibleElements
  {
    s.(selectedTag := role, showAllProjects := role == AllProjects)
  }

  /** The reveal timeout of element `element`. */
  function Reveal(s: PageState, element: string): (r: PageState)
    ensures r.visibleElements == s.visibleElements + {element}
    ensures r.selectedTag == s.selectedTag && r.showAllProjects == s.showAllProjects
  {
    s.(visibleElements := s.visibleElements + {element})
  }

  /** The first `k` reveal timeouts, in the order of their delays. */
  function RevealFirst(s: PageState, k: nat): PageState
    requires k <= |RevealElements|
  {
    if k == 0 then s else Reveal(RevealFirst(s, k - 1), RevealElements[k - 1])
  }

  /**
   * The timeouts are due in the listed order, 300 ms apart, and the visible
   * set only grows: after the first `k` of them, fired in that order,
   * exactly the first `k` elements are shown.
   */
  lemma {:induction false} RevealGrowsInOrder(k: nat)
    requires k <= |RevealElements|
    ensures RevealFirst(Initial, k).visibleElements == set i | 0 <= i < k :: RevealElements[i]
    ensures forall i, j :: 0 <= i < j < |RevealElements| ==> RevealDelay(i) < RevealDelay(j)
    ensures k > 0 ==> RevealFirst(Initial, k - 1).visibleElements < RevealFirst(Initial, k).visibleElements
  {
    if k > 0 {
      RevealGrowsInOrder(k - 1);
      assert RevealElements[k - 1] !in RevealFirst(Initial, k - 1).visibleElements;
    }
  }

  /** What can happen to the page: the picker reports a role, or the reveal timeout of element `index` fires. */
  datatype PageEvent = RoleSelected(role: string) | RevealFired(index: nat)

  predicate WellFormed(events: seq<PageEvent>) {
    forall e :: e in events && e.RevealFired? ==> e.index < |RevealElements|
  }

  function Step(s: PageState, e: PageEvent): (r: PageState)
    requires e.RevealFired? ==> e.index < |RevealElements|
    ensures e.RoleSelected? ==> r == RoleChange(s, e.role)
    ensures e.RevealFired? ==> r == Reveal(s, RevealElements[e.index])
  {
    match e
    case RoleSelected(role) => RoleChange(s, role)
    case RevealFired(index) => Reveal(s, RevealElements[index])
  }

  /** The page after `events`, in order. */
  function Run(s: PageState, events: seq<PageEvent>): PageState
    requires WellFormed(events)
    decreases |events|
  {
    if events == [] then s
    else Step(Run(s, events[..|events| - 1]), events[|events| - 1])
  }

  /** The elements whose reveal timeout is among `events`. */
  ghost function FiredElements(events: seq<PageEvent>): set<string>
    requires WellFormed(events)
  {
    set e | e in events && e.RevealFired? :: RevealElements[e.index]
  }

  /**
   * Whatever order the reveal timeouts fire in and whatever role changes
   * come between them, the shown elements are the ones whose timeout has
   * fired, the visible set only grows, and the grid mode stays consistent.
   */
  lemma {:induction false} EventsRevealExactlyTheFired(s: PageState, events: seq<PageEvent>)
    requires WellFormed(events)
    ensures Run(s, events).visibleElements == s.visibleElements + FiredElements(events)
    ensures ConsistentMode(s) ==> ConsistentMode(Run(s, events))
  {
    if events != [] {
      var init := events[..|events| - 1];
      var last := events[|events| - 1];
      assert WellFormed(init);
      EventsRevealExactlyTheFired(s, init);
      assert events == init + [last];
      if last.RevealFired? {
        assert FiredElements(events) == FiredElements(init) + {RevealElements[last.index]};
      } else {
        assert FiredElements(events) == FiredElements(init);
      }
    }
  }

  /**
   * From the initial page, if the timeouts that have fired are those of the
   * first `k` elements, in any order and interleaved with any role changes,
   * exactly the first `k` elements are shown.
   */
  lemma RevealsInAnyInterleaving(events: seq<PageEvent>, k: nat)
    requires WellFormed(events) && k <= |RevealElements|
    requires forall i :: 0 <= i < |RevealElements| ==> (RevealFired(i) in events <==> i < k)
    ensures Run(Initial, events).visibleElements == set i | 0 <= i < k :: RevealElements[i]
  {
    EventsRevealExactlyTheFired(Initial, events);
    var expected := set i | 0 <= i < k :: RevealElements[i];
    forall x | x in FiredElements(events)
      ensures x in expected
    {
      var e :| e in events && e.RevealFired? && RevealElements[e.index] == x;
      assert RevealFired(e.index) in events;
    }
    forall x | x in expected
      ensures x in FiredElements(events)
    {
      var i :| 0 <= i < k && RevealElements[i] == x;
      assert RevealFired(i) in events;
    }
  }

  /** Chaining the picker into the page keeps the grid's tag equal to the role shown by the picker. */
  lemma PickerDrivesGrid(picker: RoleSection.DropdownState, page: PageState, role: string)
    requires page.selectedTag == picker.selectedRole
    ensures var (picker', reported) := RoleSection.SelectRole(picker, role);
      RoleChange(page, reported).selectedTag == picker'.selectedRole
  {
  }

  /** Every role the picker offers has projects: the page never shows "No projects found". */
  lemma EveryRoleHasProjects(role: string)
    requires role in RoleSection.Roles
    ensures !EmptyMessageShown(SiteProjects, Some(role), RoleChange(Initial, role).showAllProjects)
  {
    if role == "Developer" {
      assert role in SiteProjects[0].tags;
    } else if role == "Creative" {
      assert role in SiteProjects[1].tags;
    } else if role == "UX/UI Designer" {
      assert role in SiteProjects[2].tags;
    }
  }

  class HomePage {
    var selectedTag: string
    var showAllProjects: bool
    var visibleElements: set<string>

    function State(): PageState
      reads this
    {
      PageState(selectedTag, showAllProjects, visibleElements)
    }

    ghost predicate Valid()
      reads this
    {
      ConsistentMode(State())
    }

    constructor ()
      ensures State() == Initial && Valid()
    {
      selectedTag := AllProjects;
      showAllProjects := true;
      visibleElements := {};
    }

    /** The picker's `onRoleChange`. */
    method HandleRoleChange(role: string)
      modifies this
      ensures Valid()
      ensures State() == RoleChange(old(State()), role)
    {
      selectedTag := role;
      if role == AllProjects {
        showAllProjects := true;
      } else {
        showAllProjects := false;
      }
    }

    /** The reveal timeout of element `index`. */
    method OnRevealTimer(index: nat)
      requires Valid() && index < |RevealElements|
      modifies this
      ensures Valid()
      ensures State() == Reveal(old(State()), RevealElements[index])
    {
      visibleElements := visibleElements + {RevealElements[index]};
    }

    /** What the grid receives. */
    function GridProjects(): (ps: seq<Project>)
      reads this
      ensures Valid() && selectedTag == AllProjects ==> ps == SiteProjects
      ensures Valid() && selectedTag != AllProjects && selectedTag != "" ==>
        forall p :: p in ps <==> p in SiteProjects && selectedTag in p.tags
    {
      FilteredProjects(SiteProjects, Some(selectedTag), showAllProjects)
    }
  }
}
