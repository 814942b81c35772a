/**
 * The project listing of the v5 site: one linked section per project, the
 * section elements collected in a ref list without repeats, and each
 * content panel coloured from the project's optional hex colours.
 */
module ProjectsSection {
  import opened Wrappers
  import opened ProjectsData
  import opened JsMath

  // ---------------------------------------------------------------------------
  // The section registry

  /** Section elements are identified by number; `None` is React's `null`. */
  type Element = nat

  predicate NoRepeats(refs: seq<Element>) {
    forall i, j :: 0 <= i < j < |refs| ==> refs[i] != refs[j]
  }

  /** `addToRefs(el)`: a new element is appended, `null` and known elements change nothing. */
  function AddRef(refs: seq<Element>, el: Option<Element>): (r: seq<Element>)
    ensures el.None? ==> r == refs
    ensures el.Some? && el.value in refs ==> r == refs
    ensures el.Some? && el.value !in refs ==> r == refs + [el.value]
    ensures NoRepeats(refs) ==> NoRepeats(r)
    ensures forall x :: x in r <==> x in refs || (el.Some? && x == el.value)
  {
    if el.Some? && el.value !in refs then refs + [el.value] else refs
  }

  /** The ref callbacks of successive renders, in order. */
  function AddAll(refs: seq<Element>, calls: seq<Option<Element>>): seq<Element> {
    if calls == [] then refs else AddRef(AddAll(refs, calls[..|calls| - 1]), calls[|calls| - 1])
  }

  /**
   * However often React calls the ref callback, with elements or with
   * `null`, the list holds each element passed exactly once and the earlier
   * list stays its prefix.
   */
  lemma {:induction false} RefsAreTheDistinctElements(refs: seq<Element>, calls: seq<Option<Element>>)
    requires NoRepeats(refs)
    ensures NoRepeats(AddAll(refs, calls))
    ensures forall x :: x in AddAll(refs, calls) <==> x in refs || Some(x) in calls
    ensures |refs| <= |AddAll(refs, calls)| && AddAll(refs, calls)[..|refs|] == refs
  {
    if calls != [] {
      var init := calls[..|calls| - 1];
      RefsAreTheDistinctElements(refs, init);
      assert forall c :: c in calls <==> c in init || c == calls[|calls| - 1];
      var prev := AddAll(refs, init);
      assert AddAll(refs, calls)[..|prev|] == prev;
      assert AddAll(refs, calls)[..|refs|] == prev[..|refs|];
    }
  }

  /** `sectionsRef.current`, which `addToRefs` pushes onto in place. */
  class SectionRefs {
    var current: seq<Element>

    constructor ()
      ensures current == []
    {
      current := [];
    }

    method AddToRefs(el: Option<Element>)
      modifies this
      ensures current == AddRef(old(current), el)
    {
      if el.Some? && el.value !in current {
        current := current + [el.value];
      }
    }
  }

  // ---------------------------------------------------------------------------
  // Colours

  /** `parseInt(c, 16)` of one character: 0-9, a-f and A-F. */
  function HexDigitValue(c: char): (v: Option<nat>)
    ensures v.Some? ==> v.value < 16
  {
    if '0' <= c <= '9' then Some(c as nat - '0' as nat)
    else if 'a' <= c <= 'f' then Some(c as nat - 'a' as nat + 10)
    else if 'A' <= c <= 'F' then Some(c as nat - 'A' as nat + 10)
    else None
  }

  predicate IsHexDigit(c: char) {
    HexDigitValue(c).Some?
  }

  /** `#RRGGBB`: the form the data's colours take. */
  predicate IsHexColor(s: string) {
    |s| == 7 && s[0] == '#' && forall i :: 1 <= i < 7 ==> IsHexDigit(s[i])
  }

  /** `parseInt(s.slice(k, k + 2), 16)` of two hex digits. */
  function HexPair(s: string, k: nat): (v: nat)
    requires k + 1 < |s| && IsHexDigit(s[k]) && IsHexDigit(s[k + 1])
    ensures v < 256
  {
    HexDigitValue(s[k]).value * 16 + HexDigitValue(s[k + 1]).value
  }

  datatype CssColor = Rgba(r: nat, g: nat, b: nat, alpha: real) | Literal(value: string)

  const DefaultBackground := "#121212"
  const DefaultText := "#FFF4EB"
  const PanelAlpha: real := 0.9

  /** A value JavaScript treats as true: present and not the empty string. */
  predicate IsTruthy(s: Option<string>) {
    s.Some? && s.value != ""
  }

  /**
   * The content panel's background (lines 150-152): a set colour becomes
   * rgba of its three pairs at alpha 0.9, otherwise the page's dark grey.
   */
  function Background(backgroundColor: Option<string>): (c: CssColor)
    requires IsTruthy(backgroundColor) ==> IsHexColor(backgroundColor.value)
    ensures !IsTruthy(backgroundColor) ==> c == Literal(DefaultBackground)
    ensures IsTruthy(backgroundColor) ==>
      (c.Rgba? && c.alpha == PanelAlpha && c.r < 256 && c.g < 256 && c.b < 256)
    ensures IsTruthy(backgroundColor) ==>
      c == Rgba(HexPair(backgroundColor.value, 1), HexPair(backgroundColor.value, 3),
                HexPair(backgroundColor.value, 5), PanelAlpha)
  {
    if IsTruthy(backgroundColor) then
      var hex := backgroundColor.value;
      Rgba(HexPair(hex, 1), HexPair(hex, 3), HexPair(hex, 5), PanelAlpha)
    else Literal(DefaultBackground)
  }

  /** The panel's text colour (line 153): the set colour, or cream when absent or empty. */
  function TextColor(textColor: Option<string>): (c: string)
    ensures IsTruthy(textColor) ==> c == textColor.value
    ensures !IsTruthy(textColor) ==> c == DefaultText
  {
    if IsTruthy(textColor) then textColor.value else DefaultText
  }

  const UpperHexDigits: string := "0123456789ABCDEF"

  /** A channel as two upper-case hex digits. */
  function FormatPair(v: nat): (s: string)
    requires v < 256
    ensures |s| == 2 && IsHexDigit(s[0]) && IsHexDigit(s[1])
  {
    [UpperHexDigits[v / 16], UpperHexDigits[v % 16]]
  }

  /** `#RRGGBB` of three channels. */
  function FormatHex(r: nat, g: nat, b: nat): (s: string)
    requires r < 256 && g < 256 && b < 256
    ensures IsHexColor(s)
  {
    "#" + FormatPair(r) + FormatPair(g) + FormatPair(b)
  }

  lemma UpperDigitValue(d: nat)
    requires d < 16
    ensures HexDigitValue(UpperHexDigits[d]) == Some(d)
  {
  }

  lemma {:induction false} PairRoundTrip(v: nat)
    requires v < 256
    ensures HexPair(FormatPair(v), 0) == v
  {
    UpperDigitValue(v / 16);
    UpperDigitValue(v % 16);
  }

  /** Formatting three channels and parsing them back as the panel does gives the same channels. */
  lemma {:induction false} BackgroundRoundTrip(r: nat, g: nat, b: nat)
    requires r < 256 && g < 256 && b < 256
    ensures Background(Some(FormatHex(r, g, b))) == Rgba(r, g, b, PanelAlpha)
  {
    var s := FormatHex(r, g, b);
    PairRoundTrip(r);
    PairRoundTrip(g);
    PairRoundTrip(b);
    assert s[1..3] == FormatPair(r) && s[3..5] == FormatPair(g) && s[5..7] == FormatPair(b);
    assert HexPair(s, 1) == HexPair(FormatPair(r), 0);
    assert HexPair(s, 3) == HexPair(FormatPair(g), 0);
    assert HexPair(s, 5) == HexPair(FormatPair(b), 0);
  }

  /** A hex digit in its upper-case spelling: `a`-`f` become `A`-`F`, all else is kept. */
  function UpperDigit(c: char): (u: char)
    ensures 'a' <= c <= 'f' ==> u as int == c as int - 32
    ensures !('a' <= c <= 'f') ==> u == c
  {
    if 'a' <= c <= 'f' then (c as int - 32) as char else c
  }

  /** `parseInt` does not care about case: a lower-case digit has the value of its upper-case form. */
  lemma CaseInsensitiveDigit(c: char)
    ensures HexDigitValue(c) == HexDigitValue(UpperDigit(c))
  {
  }

  /** A digit's value, formatted again, is the digit in upper case. */
  lemma DigitFormatsBack(c: char)
    requires IsHexDigit(c)
    ensures UpperHexDigits[HexDigitValue(c).value] == UpperDigit(c)
  {
  }

  /** Parsing two digits and formatting the channel gives the two digits back in upper case. */
  lemma {:induction false} PairFormatsBack(s: string, k: nat)
    requires k + 1 < |s| && IsHexDigit(s[k]) && IsHexDigit(s[k + 1])
    ensures FormatPair(HexPair(s, k)) == [UpperDigit(s[k]), UpperDigit(s[k + 1])]
  {
    var hi, lo := HexDigitValue(s[k]).value, HexDigitValue(s[k + 1]).value;
    var v := HexPair(s, k);
    assert v == hi * 16 + lo;
    ModUnique(v, 16, hi, lo);
    assert v / 16 == hi;
    DigitFormatsBack(s[k]);
    DigitFormatsBack(s[k + 1]);
  }

  /** A colour string in upper case, digit by digit. */
  function UpperHex(s: string): (u: string)
    ensures |u| == |s|
    ensures forall i :: 0 <= i < |s| ==> u[i] == UpperDigit(s[i])
  {
    seq(|s|, i requires 0 <= i < |s| => UpperDigit(s[i]))
  }

  /**
   * The other round trip: any `#RRGGBB`, in either case, parses to channels
   * that format back to the same colour in upper case; so every data colour's
   * channels are the ones it spells.
   */
  lemma {:induction false} HexColorRoundTrip(s: string)
    requires IsHexColor(s)
    ensures var c := Background(Some(s));
      c.Rgba? && c.r < 256 && c.g < 256 && c.b < 256 &&
      FormatHex(c.r, c.g, c.b) == UpperHex(s)
  {
    PairFormatsBack(s, 1);
    PairFormatsBack(s, 3);
    PairFormatsBack(s, 5);
    var c := Background(Some(s));
    var u := UpperHex(s);
    assert c.r == HexPair(s, 1) && c.g == HexPair(s, 3) && c.b == HexPair(s, 5);
    assert u[0] == '#' && u[1] == UpperDigit(s[1]) && u[2] == UpperDigit(s[2]);
    assert u[3] == UpperDigit(s[3]) && u[4] == UpperDigit(s[4]);
    assert u[5] == UpperDigit(s[5]) && u[6] == UpperDigit(s[6]);
    SplitColor(u);
  }

  /** A seven-character string is its first character and three pairs. */
  lemma SplitColor(u: string)
    requires |u| == 7
    ensures u == [u[0]] + [u[1], u[2]] + [u[3], u[4]] + [u[5], u[6]]
  {
  }

  /** Every colour of the site's data is well formed, so every section's colours are defined. */
  lemma SiteColoursAreHex(p: Project)
    requires p in ProjectsList
    ensures IsTruthy(p.backgroundColor) ==> IsHexColor(p.backgroundColor.value)
  {
  }

  /** The one project without colours gets both defaults. */
  lemma UncolouredProjectDefaults()
    ensures Background(ProjectsList[2].backgroundColor) == Literal(DefaultBackground)
    ensures TextColor(ProjectsList[2].textColor) == DefaultText
  {
  }

  // ---------------------------------------------------------------------------
  // Links and the list shown

  const ProjectsPrefix: string := "/projects/"

  /** A section's link. */
  function Href(slug: string): (h: string)
    ensures |h| == |ProjectsPrefix| + |slug|
    ensures h[..|ProjectsPrefix|] == ProjectsPrefix && h[|ProjectsPrefix|..] == slug
  {
    ProjectsPrefix + slug
  }

  /** Distinct slugs give distinct links, and the slug is recovered from its link. */
  lemma HrefIsInjective(a: string, b: string)
    ensures Href(a) == Href(b) <==> a == b
  {
    if Href(a) == Href(b) {
      assert a == Href(a)[|ProjectsPrefix|..];
    }
  }

  /**
   * `projects || projectsData`: an array is always truthy in JavaScript, so
   * the data set is used only when the prop is absent, and an explicit empty
   * list renders no sections.
   */
  function ProjectsToUse(projects: Option<seq<Project>>): (ps: seq<Project>)
    ensures projects.Some? ==> ps == projects.value
    ensures projects.None? ==> ps == ProjectsList
  {
    projects.GetOr(ProjectsList)
  }

  /** The data set's sections link to the detail pages that `getProjectBySlug` resolves. */
  lemma EveryLinkResolves(i: int)
    requires 0 <= i < |ProjectsToUse(None)|
    ensures var p := ProjectsToUse(None)[i];
      FindBySlug(ProjectsList, Href(p.slug)[|ProjectsPrefix|..]) == Some(p)
  {
    SiteDataInvariants();
    SlugIdentifiesProject(ProjectsList, i);
  }
}
