/**
 * The role picker of the "simple" site: the selected role is a button, and
 * opening it unrolls the other roles one by one as coloured pills; closing
 * fades them out for 200 ms first.
 */
module RoleSection {

  const Roles: seq<string> := ["Developer", "Creative", "UX/UI Designer", "All Projects"]

  /** Pill classes of the options, by position in `Roles`. */
  const RoleColors: seq<string> := [
    "bg-brand-primary-green hover:bg-brand-primary-green",
    "bg-brand-purple hover:bg-brand-purple",
    "bg-brand-orange hover:bg-brand-orange",
    "dark:bg-[#FFF4EB] dark:text-black bg-[#121212]"
  ]

  /** Text classes of the selected role, by position in `Roles`. */
  const RoleTextColors: seq<string> := [
    "text-brand-primary-green",
    "text-brand-purple",
    "text-brand-orange",
    "dark:text-[#FFF4EB]"
  ]

  /** Gap between two options appearing, in ms. */
  const StaggerMs: nat := 150

  /** Length of the fade-out before the options are removed, in ms. */
  const CloseDelayMs: nat := 200

  /** `Array.prototype.indexOf`: the first position of `x`, or -1. */
  function IndexOf(xs: seq<string>, x: string): (r: int)
    ensures -1 <= r < |xs|
    ensures r == -1 <==> x !in xs
    ensures r >= 0 ==> xs[r] == x && forall j :: 0 <= j < r ==> xs[j] != x
  {
    if xs == [] then -1
    else if xs[0] == x then 0
    else
      var k := IndexOf(xs[1..], x);
      if k == -1 then -1 else k + 1
  }

  /** `roles.filter(role => role !== selectedRole)`, keeping the order. */
  function Without(xs: seq<string>, x: string): (r: seq<string>)
    ensures |r| <= |xs|
    ensures forall y :: y in r <==> y in xs && y != x
  {
    if xs == [] then []
    else
      var rest := Without(xs[..|xs| - 1], x);
      assert forall y :: y in xs <==> y in xs[..|xs| - 1] || y == xs[|xs| - 1];
      if xs[|xs| - 1] != x then rest + [xs[|xs| - 1]] else rest
  }

  /** Filtering a list with no repeats that contains `x` removes exactly one element. */
  lemma {:induction false} WithoutRemovesOne(xs: seq<string>, x: string)
    requires forall i, j :: 0 <= i < j < |xs| ==> xs[i] != xs[j]
    ensures x in xs ==> |Without(xs, x)| == |xs| - 1
    ensures x !in xs ==> Without(xs, x) == xs
  {
    if xs != [] {
      var init := xs[..|xs| - 1];
      WithoutRemovesOne(init, x);
      assert xs == init + [xs[|xs| - 1]];
      if xs[|xs| - 1] == x {
        assert x !in init;
      }
    }
  }

  /**
   * On a list without repeats the filter keeps the order: it is the list
   * with the one occurrence of `x` cut out.
   */
  lemma {:induction false} WithoutKeepsOrder(xs: seq<string>, x: string)
    requires forall i, j :: 0 <= i < j < |xs| ==> xs[i] != xs[j]
    requires x in xs
    ensures Without(xs, x) == xs[..IndexOf(xs, x)] + xs[IndexOf(xs, x) + 1..]
  {
    var init := xs[..|xs| - 1];
    var last := xs[|xs| - 1];
    assert xs == init + [last];
    var i := IndexOf(xs, x);
    if last == x {
      WithoutRemovesOne(init, x);
      assert x !in init;
      assert i == |init|;
    } else {
      assert x in init;
      WithoutKeepsOrder(init, x);
      var k := IndexOf(init, x);
      assert xs[k] == x;
      assert i == k;
      assert xs[..i] == init[..k];
      assert xs[i + 1..] == init[k + 1..] + [last];
    }
  }

  /** The options offered when `selected` is shown. */
  function Options(selected: string): seq<string> {
    Without(Roles, selected)
  }

  /** With a role selected, the three other roles are offered, and the selected one never is. */
  lemma OptionsOfRole(selected: string)
    requires selected in Roles
    ensures |Options(selected)| == |Roles| - 1 == 3
    ensures selected !in Options(selected)
    ensures forall role :: role in Options(selected) <==> role in Roles && role != selected
    ensures Options(selected) == Roles[..IndexOf(Roles, selected)] + Roles[IndexOf(Roles, selected) + 1..]
  {
    WithoutRemovesOne(Roles, selected);
    WithoutKeepsOrder(Roles, selected);
  }

  /** Every option and the selected role have a colour of their own. */
  lemma ColoursAreDefined(selected: string)
    requires selected in Roles
    ensures 0 <= IndexOf(Roles, selected) < |RoleTextColors|
    ensures forall role :: role in Options(selected) ==> 0 <= IndexOf(Roles, role) < |RoleColors|
  {
  }

  /**
   * The component's state. `pendingIncrements` holds, in scheduling order,
   * the delay in ms of each pending `setVisibleItems(prev => prev + 1)`
   * timeout; `pendingCloses` counts the timeouts of the close at the end of
   * `closeDropdown`.
   */
  datatype DropdownState = DropdownState(
    selectedRole: string, isOpen: bool, visibleItems: int, isClosing: bool,
    pendingIncrements: seq<nat>, pendingCloses: nat)

  /** The initial state shows "All Projects". */
  const Initial := DropdownState(Roles[3], false, 0, false, [], 0)

  predicate ValidDropdown(s: DropdownState) {
    s.selectedRole in Roles
  }

  /** The option at `index` slides in once that many increments have fired. */
  predicate OptionShown(index: nat, s: DropdownState) {
    index < s.visibleItems
  }

  /**
   * `handleRoleSelect(role)`: the new state and the role reported to
   * `onRoleChange`. Pending timers are left running.
   */
  function SelectRole(s: DropdownState, role: string): (r: (DropdownState, string))
    ensures r.1 == role && r.0.selectedRole == role
    ensures !r.0.isOpen && r.0.visibleItems == 0
    ensures r.0.isClosing == s.isClosing
    ensures r.0.pendingIncrements == s.pendingIncrements && r.0.pendingCloses == s.pendingCloses
    ensures ValidDropdown(s) && role in Options(s.selectedRole) ==> ValidDropdown(r.0)
  {
    (s.(selectedRole := role, isOpen := false, visibleItems := 0), role)
  }

  /** `closeDropdown`: fade out now, remove the options 200 ms later. */
  function Close(s: DropdownState): (r: DropdownState)
    ensures r.isClosing && r.isOpen == s.isOpen && r.visibleItems == s.visibleItems
    ensures r.pendingCloses == s.pendingCloses + 1 && r.pendingIncrements == s.pendingIncrements
    ensures r.selectedRole == s.selectedRole
  {
    s.(isClosing := true, pendingCloses := s.pendingCloses + 1)
  }

  /**
   * The delays of the increments `forEach` schedules over `count` options:
   * option `index` gets `index * 150` ms, so each option is due strictly
   * after the one before it.
   */
  function StaggerDelays(count: nat): (d: seq<nat>)
    ensures |d| == count
    ensures forall index :: 0 <= index < count ==> d[index] == index * StaggerMs
    ensures forall i, j :: 0 <= i < j < count ==> d[i] < d[j]
  {
    if count == 0 then [] else StaggerDelays(count - 1) + [(count - 1) * StaggerMs]
  }

  /**
   * `handleOpen`: a closed picker opens empty and schedules one increment
   * per option, at 0, 150, 300, ... ms; an open one starts closing.
   */
  function Open(s: DropdownState): (r: DropdownState)
    ensures s.isOpen ==> r == Close(s)
    ensures !s.isOpen ==>
      r.isOpen && r.visibleItems == 0 && !r.isClosing && r.selectedRole == s.selectedRole &&
      r.pendingIncrements == s.pendingIncrements + StaggerDelays(|Options(s.selectedRole)|) &&
      r.pendingCloses == s.pendingCloses
  {
    if !s.isOpen then
      s.(isOpen := true, visibleItems := 0, isClosing := false,
         pendingIncrements := s.pendingIncrements + StaggerDelays(|Options(s.selectedRole)|))
    else Close(s)
  }

  /**
   * The pending increment at position `k` fires; it runs whether or not the
   * picker is still open, and any pending one may be the next to fire.
   */
  function IncrementFired(s: DropdownState, k: nat): (r: DropdownState)
    requires k < |s.pendingIncrements|
    ensures r.visibleItems == s.visibleItems + 1
    ensures r.pendingIncrements == s.pendingIncrements[..k] + s.pendingIncrements[k + 1..]
    ensures |r.pendingIncrements| == |s.pendingIncrements| - 1
    ensures r.(visibleItems := s.visibleItems, pendingIncrements := s.pendingIncrements) == s
  {
    s.(visibleItems := s.visibleItems + 1, pendingIncrements := s.pendingIncrements[..k] + s.pendingIncrements[k + 1..])
  }

  /** The close timeout fires: the options are removed. */
  function CloseFired(s: DropdownState): (r: DropdownState)
    requires s.pendingCloses > 0
    ensures !r.isOpen && r.visibleItems == 0 && !r.isClosing
    ensures r.pendingCloses == s.pendingCloses - 1
    ensures r.selectedRole == s.selectedRole && r.pendingIncrements == s.pendingIncrements
  {
    s.(isOpen := false, visibleItems := 0, isClosing := false, pendingCloses := s.pendingCloses - 1)
  }

  /** The document listeners: a press outside the picker, or any scroll, closes it. */
  function ClickOutside(s: DropdownState, pickerMounted: bool, targetInside: bool): (r: DropdownState)
    ensures pickerMounted && !targetInside ==> r == Close(s)
    ensures !pickerMounted || targetInside ==> r == s
  {
    if pickerMounted && !targetInside then Close(s) else s
  }

  /**
   * The `k` increments that fire first when the pending delays are in
   * increasing order: each time the head of the queue, the earliest due.
   */
  function FireIncrements(s: DropdownState, k: nat): (r: DropdownState)
    requires k <= |s.pendingIncrements|
    ensures r.pendingIncrements == s.pendingIncrements[k..]
    ensures r.visibleItems == s.visibleItems + k
    ensures r.(visibleItems := s.visibleItems, pendingIncrements := s.pendingIncrements) == s
  {
    if k == 0 then s
    else
      var prev := FireIncrements(s, k - 1);
      assert prev.pendingIncrements[1..] == s.pendingIncrements[k..];
      IncrementFired(prev, 0)
  }

  /** Whichever pending increments fire, in whichever order, each shows one more option. */
  function FireAt(s: DropdownState, picks: seq<nat>): (r: DropdownState)
    requires |picks| <= |s.pendingIncrements|
    requires forall i :: 0 <= i < |picks| ==> picks[i] < |s.pendingIncrements| - i
    ensures r.visibleItems == s.visibleItems + |picks|
    ensures |r.pendingIncrements| == |s.pendingIncrements| - |picks|
    ensures r.(visibleItems := s.visibleItems, pendingIncrements := s.pendingIncrements) == s
    decreases |picks|
  {
    if picks == [] then s
    else IncrementFired(FireAt(s, picks[..|picks| - 1]), picks[|picks| - 1])
  }

  /**
   * Opening from closed and letting the increments fire uncovers the options
   * in order: the increments are due at 0, 150 and 300 ms, so the `k` that
   * fire first are the ones due at `i * 150` for `i < k`; after them exactly
   * the first `k` options are shown, and once all have fired every option is.
   */
  lemma OpeningRevealsInOrder(s: DropdownState, k: nat)
    requires ValidDropdown(s) && !s.isOpen && s.pendingIncrements == []
    requires k <= 3
    ensures |Options(s.selectedRole)| == 3
    ensures Open(s).pendingIncrements == [0, StaggerMs, 2 * StaggerMs]
    ensures FireIncrements(Open(s), k).pendingIncrements == StaggerDelays(3)[k..]
    ensures forall d :: d in FireIncrements(Open(s), k).pendingIncrements ==> d >= k * StaggerMs
    ensures FireIncrements(Open(s), k).visibleItems == k
    ensures FireIncrements(Open(s), k).isOpen
    ensures forall i: nat :: OptionShown(i, FireIncrements(Open(s), k)) <==> i < k
  {
    OpenFromIdle(s);
    LaterOptionsDueLater(3, k);
  }

  /** Opening an idle picker schedules exactly the three staggered increments. */
  lemma OpenFromIdle(s: DropdownState)
    requires ValidDropdown(s) && !s.isOpen && s.pendingIncrements == []
    ensures |Options(s.selectedRole)| == 3
    ensures Open(s).pendingIncrements == StaggerDelays(3) == [0, StaggerMs, 2 * StaggerMs]
    ensures Open(s).isOpen && Open(s).visibleItems == 0
  {
    OptionsOfRole(s.selectedRole);
    assert StaggerDelays(3) == [0, StaggerMs, 2 * StaggerMs];
  }

  /** Once the first `k` options' increments are gone, every remaining one is due at `k * 150` ms or later. */
  lemma LaterOptionsDueLater(count: nat, k: nat)
    requires k <= count
    ensures forall d :: d in StaggerDelays(count)[k..] ==> d >= k * StaggerMs
  {
    var delays := StaggerDelays(count);
    forall d | d in delays[k..]
      ensures d >= k * StaggerMs
    {
      var j :| k <= j < count && delays[j] == d;
    }
  }

  /**
   * The option count only depends on how many increments fired: opening and
   * then firing any `k` of the pending increments, in any order, shows the
   * first `k` options.
   */
  lemma OpeningRevealsInAnyOrder(s: DropdownState, picks: seq<nat>)
    requires ValidDropdown(s) && !s.isOpen && s.pendingIncrements == []
    requires |picks| <= 3
    requires forall i :: 0 <= i < |picks| ==> picks[i] < 3 - i
    ensures |Open(s).pendingIncrements| == 3
    ensures forall i: nat :: OptionShown(i, FireAt(Open(s), picks)) <==> i < |picks|
  {
    OptionsOfRole(s.selectedRole);
  }

  /** Every event keeps the selected role among `Roles`, so its colour lookup is defined. */
  lemma EventsKeepRoleValid(s: DropdownState, role: string)
    requires ValidDropdown(s)
    ensures ValidDropdown(Open(s)) && ValidDropdown(Close(s))
    ensures role in Options(s.selectedRole) ==> ValidDropdown(SelectRole(s, role).0)
    ensures s.pendingIncrements != [] ==> ValidDropdown(IncrementFired(s, 0))
    ensures s.pendingCloses > 0 ==> ValidDropdown(CloseFired(s))
  {
  }

  /** The picker component. */
  class Picker {
    var selectedRole: string
    var isOpen: bool
    var visibleItems: int
    var isClosing: bool
    var pendingIncrements: seq<nat>
    var pendingCloses: nat

    function State(): DropdownState
      reads this
    {
      DropdownState(selectedRole, isOpen, visibleItems, isClosing, pendingIncrements, pendingCloses)
    }

    ghost predicate Valid()
      reads this
    {
      ValidDropdown(State())
    }

    constructor ()
      ensures State() == Initial && Valid()
    {
      selectedRole := Roles[3];
      isOpen := false;
      visibleItems := 0;
      isClosing := false;
      pendingIncrements := [];
      pendingCloses := 0;
    }

    /** The class list of the selected-role button. */
    function SelectedTextColor(): (c: string)
      reads this
      requires Valid()
      ensures c in RoleTextColors
    {
      RoleTextColors[IndexOf(Roles, selectedRole)]
    }

    /** An option's button; returns the role passed to `onRoleChange`. */
    method HandleRoleSelect(role: string) returns (reported: string)
      requires Valid() && role in Options(selectedRole)
      modifies this
      ensures Valid()
      ensures (State(), reported) == SelectRole(old(State()), role)
    {
      selectedRole := role;
      isOpen := false;
      visibleItems := 0;
      reported := role;
    }

    method CloseDropdown()
      requires Valid()
      modifies this
      ensures Valid()
      ensures State() == Close(old(State()))
    {
      isClosing := true;
      pendingCloses := pendingCloses + 1;
    }

    method HandleOpen()
      requires Valid()
      modifies this
      ensures Valid()
      ensures State() == Open(old(State()))
    {
      if !isOpen {
        isOpen := true;
        visibleItems := 0;
        isClosing := false;
        var availableRoles := Without(Roles, selectedRole);
        var index := 0;
        while index < |availableRoles|
          invariant 0 <= index <= |availableRoles|
          invariant pendingIncrements == old(pendingIncrements) + StaggerDelays(index)
          invariant isOpen && visibleItems == 0 && !isClosing
          invariant selectedRole == old(selectedRole) && pendingCloses == old(pendingCloses)
        {
          pendingIncrements := pendingIncrements + [index * StaggerMs];
          index := index + 1;
        }
      } else {
        CloseDropdown();
      }
    }

    /** The pending increment at position `k` fires. */
    method OnIncrementTimer(k: nat)
      requires Valid() && k < |pendingIncrements|
      modifies this
      ensures Valid()
      ensures State() == IncrementFired(old(State()), k)
    {
      visibleItems := visibleItems + 1;
      pendingIncrements := pendingIncrements[..k] + pendingIncrements[k + 1..];
    }

    method OnCloseTimer()
      requires Valid() && pendingCloses > 0
      modifies this
      ensures Valid()
      ensures State() == CloseFired(old(State()))
    {
      isOpen := false;
      visibleItems := 0;
      isClosing := false;
      pendingCloses := pendingCloses - 1;
    }

    /** The `mousedown` listener, registered only while the picker is open. */
    method HandleClickOutside(pickerMounted: bool, targetInside: bool)
      requires Valid() && isOpen
      modifies this
      ensures Valid()
      ensures State() == ClickOutside(old(State()), pickerMounted, targetInside)
    {
      if pickerMounted && !targetInside {
        CloseDropdown();
      }
    }

    /** The `scroll` listener, registered only while the picker is open. */
    method HandleScroll()
      requires Valid() && isOpen
      modifies this
      ensures Valid()
      ensures State() == Close(old(State()))
    {
      CloseDropdown();
    }
  }
}
