/**
 * The project grid of the "simple" site: tag filtering, the greedy masonry
 * distribution of cards over three columns, and the overlay colour of each card.
 */
module ProjectGrid {
  import opened Wrappers

  datatype CardType = Regular | Large

  /** A project card; `cardType` is the optional `type` field. */
  datatype Project = Project(
    title: string,
    image: string,
    tags: seq<string>,
    cardType: Option<CardType>,
    description: Option<string>)

  const NumColumns: nat := 3

  /** JavaScript truthiness of an optional string: absent and "" are false. */
  predicate IsTruthy(s: Option<string>) {
    s.Some? && s.value != ""
  }

  // ---------------------------------------------------------------------------
  // Filtering
  // ---------------------------------------------------------------------------

  /** `projects.filter(project => project.tags.includes(tag))`. */
  function FilterByTag(projects: seq<Project>, tag: string): (r: seq<Project>)
    ensures |r| <= |projects|
    ensures forall p :: p in r <==> p in projects && tag in p.tags
  {
    if projects == [] then []
    else (if tag in projects[0].tags then [projects[0]] else []) + FilterByTag(projects[1..], tag)
  }

  /** Filtering runs through the input in order: it distributes over concatenation. */
  lemma {:induction false} FilterByTagConcat(a: seq<Project>, b: seq<Project>, tag: string)
    ensures FilterByTag(a + b, tag) == FilterByTag(a, tag) + FilterByTag(b, tag)
  {
    if a == [] {
      assert a + b == b;
    } else {
      assert (a + b)[1..] == a[1..] + b;
      FilterByTagConcat(a[1..], b, tag);
    }
  }

  /** A project with the tag is kept, one without it is dropped. */
  lemma FilterByTagSingleton(p: Project, tag: string)
    ensures FilterByTag([p], tag) == if tag in p.tags then [p] else []
  {
    assert [p][1..] == [];
  }

  /** The projects shown by the grid (lines 25-29): in show-all mode, or with no tag, all of them. */
  function FilteredProjects(projects: seq<Project>, selectedTag: Option<string>, showAllProjects: bool): (r: seq<Project>)
    ensures showAllProjects || !IsTruthy(selectedTag) ==> r == projects
    ensures !showAllProjects && IsTruthy(selectedTag) ==>
      forall p :: p in r <==> p in projects && selectedTag.value in p.tags
  {
    if showAllProjects then projects
    else if IsTruthy(selectedTag) then FilterByTag(projects, selectedTag.value)
    else projects
  }

  /** The "No projects found" message is shown exactly when a tag is selected that no project carries. */
  function EmptyMessageShown(projects: seq<Project>, selectedTag: Option<string>, showAllProjects: bool): (shown: bool)
    ensures shown <==>
      !showAllProjects && IsTruthy(selectedTag) &&
      forall p :: p in projects ==> selectedTag.value !in p.tags
  {
    var filtered := FilteredProjects(projects, selectedTag, showAllProjects);
    assert !showAllProjects && IsTruthy(selectedTag) && filtered != [] ==> filtered[0] in filtered;
    !showAllProjects && IsTruthy(selectedTag) && |filtered| == 0
  }

  // ---------------------------------------------------------------------------
  // Greedy distribution
  // ---------------------------------------------------------------------------

  /** Height weight of a card: large cards count as 2, all others as 1. */
  function Weight(p: Project): nat {
    if p.cardType == Some(Large) then 2 else 1
  }

  /** Sum of the weights of a column. */
  function TotalWeight(column: seq<Project>): nat {
    if column == [] then 0 else TotalWeight(column[..|column| - 1]) + Weight(column[|column| - 1])
  }

  /** The `reduce` that finds the column with the least height: strict `<`, so ties keep the earlier index. */
  function ReduceShortest(heights: seq<int>, i: nat, shortest: nat): (k: nat)
    requires i <= |heights| && shortest < |heights|
    ensures k < |heights|
    decreases |heights| - i
  {
    if i == |heights| then shortest
    else ReduceShortest(heights, i + 1, if heights[i] < heights[shortest] then i else shortest)
  }

  /** `k` is the lowest index holding the minimum of `heights`. */
  ghost predicate IsFirstMinimum(heights: seq<int>, k: nat) {
    k < |heights| &&
    (forall j :: 0 <= j < |heights| ==> heights[k] <= heights[j]) &&
    (forall j :: 0 <= j < k ==> heights[k] < heights[j])
  }

  lemma {:induction false} ReduceShortestFindsFirstMinimum(heights: seq<int>, i: nat, shortest: nat)
    requires i <= |heights| && shortest < |heights| && shortest <= i
    requires forall j :: 0 <= j < i ==> heights[shortest] <= heights[j]
    requires forall j :: 0 <= j < shortest ==> heights[shortest] < heights[j]
    ensures IsFirstMinimum(heights, ReduceShortest(heights, i, shortest))
    decreases |heights| - i
  {
    if i < |heights| {
      var next := if heights[i] < heights[shortest] then i else shortest;
      ReduceShortestFindsFirstMinimum(heights, i + 1, next);
    }
  }

  /** The first minimum is unique. */
  lemma FirstMinimumUnique(heights: seq<int>, k: nat, k': nat)
    requires IsFirstMinimum(heights, k) && IsFirstMinimum(heights, k')
    ensures k == k'
  {
    var atK, atK' := heights[k], heights[k'];
    assert atK == atK';
  }

  /** The column chosen for the next card (lines 78-80). */
  function ShortestColumn(heights: seq<int>): (k: nat)
    requires |heights| > 0
    ensures IsFirstMinimum(heights, k)
  {
    ReduceShortestFindsFirstMinimum(heights, 0, 0);
    ReduceShortest(heights, 0, 0)
  }

  /** The columns built so far and their accumulated heights. */
  datatype Layout = Layout(columns: seq<seq<Project>>, heights: seq<int>)

  predicate WellShaped(layout: Layout) {
    |layout.columns| == NumColumns && |layout.heights| == NumColumns
  }

  /** One step of the `forEach`: append the card to the shortest column and add its weight there. */
  function Place(layout: Layout, p: Project): (r: Layout)
    requires WellShaped(layout)
    ensures WellShaped(r)
  {
    var k := ShortestColumn(layout.heights);
    Layout(layout.columns[k := layout.columns[k] + [p]], layout.heights[k := layout.heights[k] + Weight(p)])
  }

  /** The result of `distributeProjects` on `projects`, defined one card at a time from the front. */
  function Distribute(projects: seq<Project>): (r: Layout)
    ensures WellShaped(r)
  {
    if projects == [] then Layout([[], [], []], [0, 0, 0])
    else Place(Distribute(projects[..|projects| - 1]), projects[|projects| - 1])
  }

  lemma DistributeStep(projects: seq<Project>, i: nat)
    requires i < |projects|
    ensures Distribute(projects[..i + 1]) == Place(Distribute(projects[..i]), projects[i])
  {
    assert projects[..i + 1][..i] == projects[..i];
  }

  /** The column that card `i` is placed in. */
  function ChosenColumn(projects: seq<Project>, i: nat): (k: nat)
    requires i < |projects|
    ensures k < NumColumns
    ensures IsFirstMinimum(Distribute(projects[..i]).heights, k)
  {
    ShortestColumn(Distribute(projects[..i]).heights)
  }

  /** The column of every card, in input order. */
  function Assignment(projects: seq<Project>): (a: seq<nat>)
    ensures |a| == |projects|
    ensures forall i :: 0 <= i < |a| ==> a[i] < NumColumns
  {
    seq(|projects|, i requires 0 <= i < |projects| => ChosenColumn(projects, i))
  }

  lemma AssignmentPrefix(projects: seq<Project>, n: nat)
    requires n <= |projects|
    ensures Assignment(projects)[..n] == Assignment(projects[..n])
  {
    forall i | 0 <= i < n
      ensures Assignment(projects)[i] == Assignment(projects[..n])[i]
    {
      assert projects[..n][..i] == projects[..i];
    }
  }

  /** The cards assigned to column `c`, in input order. */
  function Pick(projects: seq<Project>, assignment: seq<nat>, c: nat): seq<Project>
    requires |assignment| == |projects|
  {
    if projects == [] then []
    else
      var n := |projects| - 1;
      Pick(projects[..n], assignment[..n], c) + (if assignment[n] == c then [projects[n]] else [])
  }

  /**
   * Placement only appends: column `c` holds exactly the cards assigned to it,
   * in their input order, so every card lands in exactly one column.
   */
  lemma {:induction false} ColumnsAreOrderedSelections(projects: seq<Project>)
    ensures forall c :: 0 <= c < NumColumns ==>
      Distribute(projects).columns[c] == Pick(projects, Assignment(projects), c)
  {
    if projects != [] {
      var n := |projects| - 1;
      ColumnsAreOrderedSelections(projects[..n]);
      AssignmentPrefix(projects, n);
      assert Assignment(projects)[n] == ShortestColumn(Distribute(projects[..n]).heights);
    }
  }

  /** Every card is placed once: the columns' lengths add up to the input length. */
  lemma {:induction false} DistributeKeepsCount(projects: seq<Project>)
    ensures var cols := Distribute(projects).columns; |cols[0]| + |cols[1]| + |cols[2]| == |projects|
  {
    if projects != [] {
      DistributeKeepsCount(projects[..|projects| - 1]);
    }
  }

  /** The columns together hold exactly the input cards, with multiplicity. */
  lemma {:induction false} DistributeIsPartition(projects: seq<Project>)
    ensures var cols := Distribute(projects).columns;
      multiset(cols[0]) + multiset(cols[1]) + multiset(cols[2]) == multiset(projects)
  {
    if projects != [] {
      var n := |projects| - 1;
      DistributeIsPartition(projects[..n]);
      var prev := Distribute(projects[..n]).columns;
      var k := ShortestColumn(Distribute(projects[..n]).heights);
      var cols := Distribute(projects).columns;
      var p := projects[n];
      assert cols == prev[k := prev[k] + [p]];
      assert multiset(prev[k] + [p]) == multiset(prev[k]) + multiset{p};
      assert projects == projects[..n] + [p];
      assert multiset(projects) == multiset(projects[..n]) + multiset{p};
      if k == 0 {
        assert cols[1] == prev[1] && cols[2] == prev[2];
      } else if k == 1 {
        assert cols[0] == prev[0] && cols[2] == prev[2];
      } else {
        assert cols[0] == prev[0] && cols[1] == prev[1];
      }
    }
  }

  /** A column's accumulated height is the total weight of its cards. */
  lemma {:induction false} HeightsAreColumnWeights(projects: seq<Project>)
    ensures forall c :: 0 <= c < NumColumns ==>
      Distribute(projects).heights[c] == TotalWeight(Distribute(projects).columns[c])
  {
    if projects != [] {
      var n := |projects| - 1;
      HeightsAreColumnWeights(projects[..n]);
      var prev := Distribute(projects[..n]);
      var k := ShortestColumn(prev.heights);
      assert (prev.columns[k] + [projects[n]])[..|prev.columns[k]|] == prev.columns[k];
    }
  }

  /** No two heights differ by more than the largest weight, 2, and none is negative. */
  ghost predicate Balanced(h: seq<int>) {
    forall i, j :: 0 <= i < |h| && 0 <= j < |h| ==> 0 <= h[j] && h[i] - h[j] <= 2
  }

  /** The distribution is even: column heights never differ by more than 2. */
  lemma {:induction false} DistributeIsBalanced(projects: seq<Project>)
    ensures Balanced(Distribute(projects).heights)
  {
    if projects != [] {
      var n := |projects| - 1;
      DistributeIsBalanced(projects[..n]);
      var prev := Distribute(projects[..n]).heights;
      var k := ShortestColumn(prev);
      var h := Distribute(projects).heights;
      assert h == prev[k := prev[k] + Weight(projects[n])];
      forall i | 0 <= i < NumColumns
        ensures prev[k] <= h[i] <= prev[k] + 2
      {
        assert prev[i] - prev[k] <= 2;
      }
      forall i, j | 0 <= i < |h| && 0 <= j < |h|
        ensures 0 <= h[j] && h[i] - h[j] <= 2
      {
        assert prev[k] <= h[j];
        assert h[i] <= prev[k] + 2;
        assert 0 <= prev[k];
      }
    }
  }

  /** Heights after `n` regular cards: the first `n % 3` columns have one card more. */
  lemma {:induction false} RegularHeights(projects: seq<Project>)
    requires forall p :: p in projects ==> Weight(p) == 1
    ensures forall c :: 0 <= c < NumColumns ==>
      Distribute(projects).heights[c] == |projects| / 3 + (if c < |projects| % 3 then 1 else 0)
  {
    if projects != [] {
      var n := |projects| - 1;
      assert forall p :: p in projects[..n] ==> p in projects;
      RegularHeights(projects[..n]);
      var prev := Distribute(projects[..n]).heights;
      assert IsFirstMinimum(prev, n % 3);
      FirstMinimumUnique(prev, n % 3, ShortestColumn(prev));
      assert Weight(projects[n]) == 1;
    }
  }

  /** With only regular cards the greedy rule degenerates to round robin: card `i` goes to column `i % 3`. */
  lemma RegularIsRoundRobin(projects: seq<Project>)
    requires forall p :: p in projects ==> Weight(p) == 1
    ensures forall i :: 0 <= i < |projects| ==> Assignment(projects)[i] == i % 3
  {
    forall i | 0 <= i < |projects|
      ensures Assignment(projects)[i] == i % 3
    {
      assert forall p :: p in projects[..i] ==> p in projects;
      RegularHeights(projects[..i]);
      var h := Distribute(projects[..i]).heights;
      assert IsFirstMinimum(h, i % 3);
      FirstMinimumUnique(h, i % 3, ChosenColumn(projects, i));
    }
  }

  /** One placement, seen on the heights: the first minimum grows by the card's weight. */
  lemma PlaceHeights(projects: seq<Project>, i: nat, before: seq<int>, c: nat)
    requires i < |projects|
    requires Distribute(projects[..i]).heights == before
    requires IsFirstMinimum(before, c)
    ensures Distribute(projects[..i + 1]).heights == before[c := before[c] + Weight(projects[i])]
  {
    DistributeStep(projects, i);
    FirstMinimumUnique(before, c, ShortestColumn(before));
  }

  /** The first three of the cards of weights [1,1,2,1,1,2,1] fill one column each. */
  lemma ExampleFirstRound(ps: seq<Project>)
    requires |ps| == 7
    requires Weight(ps[0]) == 1 && Weight(ps[1]) == 1 && Weight(ps[2]) == 2 && Weight(ps[3]) == 1
    requires Weight(ps[4]) == 1 && Weight(ps[5]) == 2 && Weight(ps[6]) == 1
    ensures Distribute(ps[..3]).heights == [1, 1, 2]
  {
    assert ps[..0] == [];
    assert Distribute(ps[..1]).heights == [1, 0, 0] by {
      PlaceHeights(ps, 0, [0, 0, 0], 0);
    }
    assert Distribute(ps[..2]).heights == [1, 1, 0] by {
      PlaceHeights(ps, 1, [1, 0, 0], 1);
    }
    assert Distribute(ps[..3]).heights == [1, 1, 2] by {
      PlaceHeights(ps, 2, [1, 1, 0], 2);
    }
  }

  lemma ExampleSecondRound(ps: seq<Project>)
    requires |ps| == 7
    requires Weight(ps[0]) == 1 && Weight(ps[1]) == 1 && Weight(ps[2]) == 2 && Weight(ps[3]) == 1
    requires Weight(ps[4]) == 1 && Weight(ps[5]) == 2 && Weight(ps[6]) == 1
    requires Distribute(ps[..3]).heights == [1, 1, 2]
    ensures Distribute(ps[..5]).heights == [2, 2, 2]
  {
    assert Distribute(ps[..4]).heights == [2, 1, 2] by {
      PlaceHeights(ps, 3, [1, 1, 2], 0);
    }
    assert Distribute(ps[..5]).heights == [2, 2, 2] by {
      PlaceHeights(ps, 4, [2, 1, 2], 1);
    }
  }

  /** Cards of weights [1,1,2,1,1,2,1] end with column loads [4,3,2] under the greedy rule. */
  lemma ExampleLoads(ps: seq<Project>)
    requires |ps| == 7
    requires Weight(ps[0]) == 1 && Weight(ps[1]) == 1 && Weight(ps[2]) == 2 && Weight(ps[3]) == 1
    requires Weight(ps[4]) == 1 && Weight(ps[5]) == 2 && Weight(ps[6]) == 1
    ensures Distribute(ps).heights == [4, 3, 2]
  {
    ExampleFirstRound(ps);
    ExampleSecondRound(ps);
    assert Distribute(ps[..6]).heights == [4, 2, 2] by {
      PlaceHeights(ps, 5, [2, 2, 2], 0);
    }
    assert Distribute(ps[..7]).heights == [4, 3, 2] by {
      PlaceHeights(ps, 6, [4, 2, 2], 1);
    }
    assert ps[..7] == ps;
  }

  /** `distributeProjects` (lines 68-87): fills three columns and their heights in place. */
  method DistributeProjects(projects: seq<Project>) returns (columns: seq<seq<Project>>)
    ensures columns == Distribute(projects).columns
  {
    var cols := new seq<Project>[NumColumns](_ => []);
    var heights := new int[NumColumns](_ => 0);
    assert projects[..0] == [];
    assert cols[..] == [[], [], []];
    assert heights[..] == [0, 0, 0];
    for i := 0 to |projects|
      invariant cols[..] == Distribute(projects[..i]).columns
      invariant heights[..] == Distribute(projects[..i]).heights
    {
      var heightWeight := if projects[i].cardType == Some(Large) then 2 else 1;
      var k := ShortestColumnIndex(heights);
      ghost var before := Distribute(projects[..i]);
      DistributeStep(projects, i);
      assert Distribute(projects[..i + 1]) ==
        Layout(before.columns[k := before.columns[k] + [projects[i]]], before.heights[k := before.heights[k] + heightWeight]);
      cols[k] := cols[k] + [projects[i]];
      heights[k] := heights[k] + heightWeight;
    }
    assert projects[..|projects|] == projects;
    columns := cols[..];
  }

  /** The `reduce` over `columnHeights`. */
  method ShortestColumnIndex(heights: array<int>) returns (k: nat)
    requires heights.Length > 0
    ensures k == ShortestColumn(heights[..])
  {
    k := 0;
    for i := 0 to heights.Length
      invariant k < heights.Length
      invariant ReduceShortest(heights[..], i, k) == ReduceShortest(heights[..], 0, 0)
    {
      if heights[i] < heights[k] {
        k := i;
      }
    }
  }

  // ---------------------------------------------------------------------------
  // Overlay colours
  // ---------------------------------------------------------------------------

  const Green := "#10B981"
  const Purple := "#8B5CF6"
  const Orange := "#F59E0B"

  /** `getBrandColors`: one colour for a named role, all three otherwise. */
  function BrandColors(selectedTag: Option<string>): (colors: seq<string>)
    ensures |colors| == if selectedTag in {Some("Developer"), Some("Creative"), Some("UX/UI Designer")} then 1 else 3
    ensures forall c :: c in colors ==> c in [Green, Purple, Orange]
  {
    match selectedTag
    case Some("Developer") => [Green]
    case Some("Creative") => [Purple]
    case Some("UX/UI Designer") => [Orange]
    case _ => [Green, Purple, Orange]
  }

  /** `colorIndex` of the card at `projectIndex` in column `columnIndex`: always a valid index. */
  function ColorIndex(columnIndex: nat, projectIndex: nat, selectedTag: Option<string>): (k: nat)
    ensures k < |BrandColors(selectedTag)|
  {
    (columnIndex + projectIndex) % |BrandColors(selectedTag)|
  }

  function OverlayColor(columnIndex: nat, projectIndex: nat, selectedTag: Option<string>): (c: string)
    ensures c in BrandColors(selectedTag)
  {
    BrandColors(selectedTag)[ColorIndex(columnIndex, projectIndex, selectedTag)]
  }

  /**
   * The columns the grid renders: three columns that together hold exactly
   * the filtered cards, each card once.
   */
  function GridColumns(projects: seq<Project>, selectedTag: Option<string>, showAllProjects: bool): (cols: seq<seq<Project>>)
    ensures |cols| == 3
    ensures multiset(cols[0]) + multiset(cols[1]) + multiset(cols[2]) ==
      multiset(FilteredProjects(projects, selectedTag, showAllProjects))
  {
    var shown := FilteredProjects(projects, selectedTag, showAllProjects);
    DistributeIsPartition(shown);
    Distribute(shown).columns
  }
}
