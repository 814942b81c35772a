# Portfolio site components, modelled in Dafny

This project models the interactive components of a personal portfolio site.
The site exists in several versions: v1, v2, v3, v4, v5 and "simple". Each
component becomes a small Dafny module, with a class whose fields mirror the
component's `useState` variables. Where a handler decides something, the
component's state is also a datatype, the handler is a pure transition
function on it, and the class method is proved to produce exactly that
function's result. Handlers that only set fields are methods whose ensures
give every field's new value.

Timers are not clocks. Where a property depends on it, a pending timeout is
counted or kept as a datatype value in a queue: the v1 carousel's debounce,
the role picker's staggered increments and the v4 name wave. Other timeouts
are event methods the caller may invoke at any time and any number of times.
Five lemmas fix the order in which the timers fire:
`RoleSection.OpeningRevealsInOrder`, `RoleSection.FireIncrements`,
`RoleSection.LaterOptionsDueLater`, `HomeSimple.RevealGrowsInOrder` and
`HomeV1.LoadShowsEverything`. Every other lemma about timeouts holds for any
firing order, among them `NameDisplayV4.AdditionsInAnyOrder`,
`DeletionsInAnyOrder`, `ForwardWaveColoursEveryLetter` and
`ReverseWaveClearsEveryLetter`, `RoleSection.FireAt` and
`OpeningRevealsInAnyOrder`, `HomeSimple.EventsRevealExactlyTheFired` and
`RevealsInAnyInterleaving`, and `HomeV1.RevealedAreScheduled`.

The modules:

- `ProjectGrid`: tag filtering and the greedy three-column masonry layout.
- `AnimatedProjectCard`: the overlay that fades as a card scrolls into view.
- `SimpleProjectGallery`: the wrap-around slide carousel with an animation lock.
- `Navbar`: the bar that hides on scrolling down.
- `RoleSection`: the role picker with staggered options.
- `NameDisplayV4`: the colour wave over the name's letters.
- `NameDisplayV1`: the hover highlighting of the name.
- `HomeV1`: the v1 landing page's reveal schedule.
- `CarouselV1`: the v1 horizontal strip, with debounced snapping and auto-advance.
- `ProjectsData`: lookups over the v5 project records.
- `ProjectsSection`: the ref registry, the hex-to-rgba panel colours and the links.
- `UseScroll`: the v3 parallax hook.
- `LocomotiveScroll`: the text slide across a pinned panel.
- `ScrollOptimization`: the one-time global scroll set-up.
- `ProjectShowcaseV2` and `ProjectsPageV2`: the v2 accordion image strip.
- `LeafDecorations`: the role-coloured leaves.
- `HomeSimple`: the "simple" landing page, which wires the picker to the grid.

Shared modules:

- `Wrappers` holds `Option`.
- `JsMath` holds JavaScript's truncating `%` (`JsRem`) and `Math.round` (`JsRound`).
- `Rotation` holds the cyclic index advance that the rotating role words and the v1 carousel share.

JavaScript numbers are modelled as `int` where the source only counts, and as
`real` where it measures pixels or fractions. Optional props are `Option`
values. A JavaScript default parameter replaces only `undefined`, so it is
`Option.GetOr`. A truthiness test of a string treats both `None` and `""` as
false. `projects || data` keeps any array the caller passes, an empty one
included, because arrays are truthy.

Where the repository's comments and its code disagree, the model follows the code:

- v1 carousel: a comment says the strip advances every 1.5 s, but the interval is 3000 ms (`CarouselV1.AutoAdvanceMs`).
- `AnimatedProjectCard`: a comment says the card fades only while scrolling down. The code re-covers an unlatched card on the way up (`AnimatedProjectCard.ScrollingBackRecovers`).

The greedy column rule does not even out every input. Card weights
[1,1,2,1,1,2,1] end with loads [4,3,2] (`ProjectGrid.ExampleLoads`).

## Model

| member | source | states |
|---|---|---|
| ProjectGrid.FilterByTag | simple/app/components/ProjectGrid.tsx:25-29 | a card is kept iff it carries the tag; nothing is added |
| ProjectGrid.FilterByTagConcat | simple/app/components/ProjectGrid.tsx:25-29 | filtering keeps the input order: it distributes over concatenation |
| ProjectGrid.FilterByTagSingleton | simple/app/components/ProjectGrid.tsx:25-29 | one card is kept exactly when it has the tag |
| ProjectGrid.FilteredProjects | simple/app/components/ProjectGrid.tsx:25-29 | show-all mode or an empty/absent tag shows every card; otherwise the cards carrying the tag |
| ProjectGrid.EmptyMessageShown | simple/app/components/ProjectGrid.tsx:162-168 | the "No projects found" message shows iff a truthy tag is selected outside show-all mode and no card carries it |
| ProjectGrid.ReduceShortestFindsFirstMinimum | simple/app/components/ProjectGrid.tsx:78-80 | the `reduce` with strict `<` finds the lowest index of the least height; the `reduce` itself is `ProjectGrid.ReduceShortest` |
| ProjectGrid.FirstMinimumUnique | simple/app/components/ProjectGrid.tsx:78-80 | that column is uniquely determined |
| ProjectGrid.ShortestColumn | simple/app/components/ProjectGrid.tsx:78-80 | the chosen column is the first one of minimum height |
| ProjectGrid.Place | simple/app/components/ProjectGrid.tsx:82-83 | a placement keeps three columns and three heights |
| ProjectGrid.Distribute | simple/app/components/ProjectGrid.tsx:68-87 | the layout always has three columns and three heights |
| ProjectGrid.DistributeStep | simple/app/components/ProjectGrid.tsx:73-84 | one more card is one more placement into the layout so far |
| ProjectGrid.ChosenColumn | simple/app/components/ProjectGrid.tsx:78-80 | each card goes to the first shortest column of the layout before it |
| ProjectGrid.Assignment | simple/app/components/ProjectGrid.tsx:73-84 | every card is assigned one of the three columns |
| ProjectGrid.AssignmentPrefix | simple/app/components/ProjectGrid.tsx:73-84 | later cards do not change where earlier cards went |
| ProjectGrid.ColumnsAreOrderedSelections | simple/app/components/ProjectGrid.tsx:82 | each column holds exactly the cards assigned to it, in input order |
| ProjectGrid.DistributeKeepsCount | simple/app/components/ProjectGrid.tsx:68-87 | the column lengths add up to the number of cards |
| ProjectGrid.DistributeIsPartition | simple/app/components/ProjectGrid.tsx:68-87 | the three columns together are a permutation (multiset) of the input |
| ProjectGrid.HeightsAreColumnWeights | simple/app/components/ProjectGrid.tsx:75-83 | each accumulated height is the total weight (large 2, otherwise 1) of its column |
| ProjectGrid.DistributeIsBalanced | simple/app/components/ProjectGrid.tsx:68-87 | no two heights ever differ by more than 2, and none is negative |
| ProjectGrid.RegularHeights | simple/app/components/ProjectGrid.tsx:68-87 | with regular cards only, n cards give heights n/3 plus one for the first n%3 columns |
| ProjectGrid.RegularIsRoundRobin | simple/app/components/ProjectGrid.tsx:68-87 | with regular cards only, card i goes to column i % 3 |
| ProjectGrid.PlaceHeights | simple/app/components/ProjectGrid.tsx:82-83 | a placement adds the card's weight to the first minimal height only |
| ProjectGrid.ExampleFirstRound | simple/app/components/ProjectGrid.tsx:73-84 | weights [1,1,2] fill one column each: heights [1,1,2] |
| ProjectGrid.ExampleSecondRound | simple/app/components/ProjectGrid.tsx:73-84 | two more regular cards even the heights to [2,2,2] |
| ProjectGrid.ExampleLoads | simple/app/components/ProjectGrid.tsx:68-87 | weights [1,1,2,1,1,2,1] end with loads [4,3,2] |
| ProjectGrid.DistributeProjects | simple/app/components/ProjectGrid.tsx:68-87 | the in-place loop over two arrays yields exactly `Distribute`'s columns |
| ProjectGrid.ShortestColumnIndex | simple/app/components/ProjectGrid.tsx:78-80 | the loop over the heights array returns the first shortest column |
| ProjectGrid.BrandColors | simple/app/components/ProjectGrid.tsx:92-104 | one colour for each named role, all three for any other or no tag; only the three brand colours |
| ProjectGrid.ColorIndex | simple/app/components/ProjectGrid.tsx:139 | the colour index is always a valid position in the colour list |
| ProjectGrid.OverlayColor | simple/app/components/ProjectGrid.tsx:139-140 | every card's overlay is one of the tag's brand colours |
| ProjectGrid.GridColumns | simple/app/components/ProjectGrid.tsx:68-87 | the grid renders three columns that together hold exactly the filtered cards, a multiset permutation of them |
| AnimatedProjectCard.VisibleFraction | simple/app/components/AnimatedProjectCard.tsx:32-36 | the visible share is clamped to [0,1] |
| AnimatedProjectCard.Tick | simple/app/components/AnimatedProjectCard.tsx:26-48 | a latched card, an unmounted card or a card off screen is unchanged; otherwise opacity = 1 - visible share, latching exactly at full visibility; opacity stays in [0,1]; the on-screen test is `AnimatedProjectCard.InViewport` |
| AnimatedProjectCard.FullyVisibleCardLatches | simple/app/components/AnimatedProjectCard.tsx:32-45 | a card wholly above the 50 px bottom inset is uncovered and latched |
| AnimatedProjectCard.VisibilityGrowsAsCardRises | simple/app/components/AnimatedProjectCard.tsx:32-36 | as a card's top rises towards 0 its visible share never shrinks |
| AnimatedProjectCard.DivisionMonotone | simple/app/components/AnimatedProjectCard.tsx:36 | dividing by the card height preserves order |
| AnimatedProjectCard.ScrollingBackRecovers | simple/app/components/AnimatedProjectCard.tsx:31-40 | before the latch, scrolling back up raises the opacity again |
| AnimatedProjectCard.Card.constructor | simple/app/components/AnimatedProjectCard.tsx:15-16 | starts covered (opacity 1) and unlatched |
| AnimatedProjectCard.Card.ResetForTag | simple/app/components/AnimatedProjectCard.tsx:20-23 | a tag change restores the initial overlay |
| AnimatedProjectCard.Card.HandleScroll | simple/app/components/AnimatedProjectCard.tsx:26-48 | the handler's new state is `Tick`'s and the opacity invariant holds |
| SimpleProjectGallery.SlideCount | v5/app/components/SimpleProjectGallery.tsx:131 | the eleven defaults apply only when the prop is absent; an empty prop gives 0 slides |
| SimpleProjectGallery.NormalizeIndex | v5/app/components/SimpleProjectGallery.tsx:152 | `((i % n) + n) % n` with truncating `%` is the mathematical residue, in [0,n) |
| SimpleProjectGallery.NegativeRem | v5/app/components/SimpleProjectGallery.tsx:152 | the normalisation is correct for negative indices |
| SimpleProjectGallery.GoTo | v5/app/components/SimpleProjectGallery.tsx:149-169 | a locked or unmounted track and a move to the current slide change nothing; any move sets the normalised index, takes the lock and targets -index*100vw; the slide invariant holds |
| SimpleProjectGallery.GoToMoves | v5/app/components/SimpleProjectGallery.tsx:155-162 | an unlocked move to another slide always happens |
| SimpleProjectGallery.NextFromLastWraps | v5/app/components/SimpleProjectGallery.tsx:171-173 | next from the last slide goes to the first |
| SimpleProjectGallery.PrevFromFirstWraps | v5/app/components/SimpleProjectGallery.tsx:175-177 | previous from the first slide goes to the last |
| SimpleProjectGallery.AnimationComplete | v5/app/components/SimpleProjectGallery.tsx:165-167 | the tween's completion only releases the lock |
| SimpleProjectGallery.DisabledDotIsNoop | v5/app/components/SimpleProjectGallery.tsx:344 | while the dots are disabled no navigation changes the state |
| SimpleProjectGallery.DotDisabled | v5/app/components/SimpleProjectGallery.tsx:344 | the dots are disabled exactly while the lock is held, and then no navigation changes the state |
| SimpleProjectGallery.Wheel | v5/app/components/SimpleProjectGallery.tsx:195-213 | `preventDefault` iff hovered, unlocked and a horizontal swipe over 5; positive deltaX goes to the next slide, any other to the previous; nothing else moves; the swipe test is `SimpleProjectGallery.IsSwipe` |
| SimpleProjectGallery.Gallery.constructor | v5/app/components/SimpleProjectGallery.tsx:30-32 | starts at slide 0, unlocked, not hovered |
| SimpleProjectGallery.Gallery.GoToSlide | v5/app/components/SimpleProjectGallery.tsx:149-169 | the new state is `GoTo`'s |
| SimpleProjectGallery.Gallery.NextSlide | v5/app/components/SimpleProjectGallery.tsx:171-173 | goes to index + 1 |
| SimpleProjectGallery.Gallery.PrevSlide | v5/app/components/SimpleProjectGallery.tsx:175-177 | goes to index - 1 |
| SimpleProjectGallery.Gallery.OnAnimationComplete | v5/app/components/SimpleProjectGallery.tsx:165-167 | the lock is released |
| SimpleProjectGallery.Gallery.HandleMouseEnter | v5/app/components/SimpleProjectGallery.tsx:182-184 | only the hover flag is set |
| SimpleProjectGallery.Gallery.HandleMouseLeave | v5/app/components/SimpleProjectGallery.tsx:186-188 | only the hover flag is cleared |
| SimpleProjectGallery.Gallery.HandleWheel | v5/app/components/SimpleProjectGallery.tsx:195-213 | state and `preventDefault` are `Wheel`'s |
| Navbar.OnScroll | v5/app/components/Navbar.tsx:14-27 | shown near the top or on the way up; hidden whenever scrolling down past 100; hidden only by that; otherwise unchanged; the position is remembered |
| Navbar.HiddenOnlyBelowHideLine | v5/app/components/Navbar.tsx:14-27 | after any run of scroll events a hidden bar means the last position is past 100 |
| Navbar.Bar.constructor | v5/app/components/Navbar.tsx:8-9 | starts visible at offset 0 |
| Navbar.Bar.HandleScroll | v5/app/components/Navbar.tsx:14-27 | the new state is `OnScroll`'s |
| Rotation.NextIndex | v1/app/src/components/NameDisplay.tsx:49 | `(prev + 1) % n` stays in range and wraps from the last index to 0 |
| Rotation.AfterTicks | v4/app/src/components/NameDisplay.tsx:46-59 | the word index stays in range after any number of ticks |
| Rotation.RotationIsCyclic | v4/app/src/components/NameDisplay.tsx:53 | after t ticks from 0 the index is t mod n |
| Rotation.ModSuccessor | v4/app/src/components/NameDisplay.tsx:53 | the residue of t + 1 is the residue of t plus one, wrapping to 0 after n - 1 |
| RoleSection.IndexOf | simple/app/components/RoleSection.tsx:94 | `indexOf` gives the first position of the value, -1 iff it is absent |
| RoleSection.Without | simple/app/components/RoleSection.tsx:45 | the filter keeps exactly the other roles |
| RoleSection.WithoutRemovesOne | simple/app/components/RoleSection.tsx:45 | on a list without repeats the filter removes exactly one entry, or none |
| RoleSection.WithoutKeepsOrder | simple/app/components/RoleSection.tsx:45 | on a list without repeats the filter is the list with the one occurrence cut out, order kept |
| RoleSection.OptionsOfRole | simple/app/components/RoleSection.tsx:45 | a selected role offers the three other roles, never itself, in the order of `roles` |
| RoleSection.ColoursAreDefined | simple/app/components/RoleSection.tsx:94-110 | the selected role and every option have a colour entry |
| RoleSection.SelectRole | simple/app/components/RoleSection.tsx:32-37 | the chosen role is shown and reported, the list is closed and emptied; pending timers stay |
| RoleSection.Close | simple/app/components/RoleSection.tsx:56-63 | starts the fade and schedules one close |
| RoleSection.Open | simple/app/components/RoleSection.tsx:39-54 | a closed picker opens empty and queues one increment per option, due at 0, 150, 300 ms; an open one starts closing |
| RoleSection.StaggerDelays | simple/app/components/RoleSection.tsx:46-50 | option i is due at i * 150 ms, so each option is due strictly after the one before it |
| RoleSection.IncrementFired | simple/app/components/RoleSection.tsx:47-49 | any pending increment may fire; it leaves the queue and one more option is shown, whether or not the picker is still open |
| RoleSection.CloseFired | simple/app/components/RoleSection.tsx:59-62 | the list is closed, emptied and the fade ends |
| RoleSection.ClickOutside | simple/app/components/RoleSection.tsx:66-70 | a press outside a mounted picker closes it; any other press does nothing |
| RoleSection.FireIncrements | simple/app/components/RoleSection.tsx:46-50 | the k earliest queued increments fire: k more options, the rest of the queue left, nothing else changed |
| RoleSection.FireAt | simple/app/components/RoleSection.tsx:46-50 | any k pending increments, fired in any order, show k more options and change nothing else |
| RoleSection.OpeningRevealsInOrder | simple/app/components/RoleSection.tsx:39-54 | after opening, the increments due first are those at 0, 150, 300 ms; after k of them exactly the first k options are shown and every remaining one is due at k * 150 ms or later |
| RoleSection.OpenFromIdle | simple/app/components/RoleSection.tsx:39-54 | opening an idle picker queues exactly the increments due at 0, 150 and 300 ms |
| RoleSection.LaterOptionsDueLater | simple/app/components/RoleSection.tsx:46-50 | after the first k staggered increments, every remaining one is due at k * 150 ms or later |
| RoleSection.OpeningRevealsInAnyOrder | simple/app/components/RoleSection.tsx:39-54 | after opening, any k increments fired in any order show exactly the first k options |
| RoleSection.EventsKeepRoleValid | simple/app/components/RoleSection.tsx:32-63 | every event keeps the selected role one of the four |
| RoleSection.Picker.constructor | simple/app/components/RoleSection.tsx:26-29 | starts closed on "All Projects" |
| RoleSection.Picker.SelectedTextColor | simple/app/components/RoleSection.tsx:94 | the selected role's text colour is always defined |
| RoleSection.Picker.HandleRoleSelect | simple/app/components/RoleSection.tsx:32-37 | state and reported role are `SelectRole`'s |
| RoleSection.Picker.CloseDropdown | simple/app/components/RoleSection.tsx:56-63 | the new state is `Close`'s |
| RoleSection.Picker.HandleOpen | simple/app/components/RoleSection.tsx:39-54 | the `forEach` loop queues the delay `index * 150` for each option, giving `Open`'s state |
| RoleSection.Picker.OnIncrementTimer | simple/app/components/RoleSection.tsx:47-49 | the pending increment at the chosen position fires; the new state is `IncrementFired`'s |
| RoleSection.Picker.OnCloseTimer | simple/app/components/RoleSection.tsx:59-62 | the new state is `CloseFired`'s |
| RoleSection.Picker.HandleClickOutside | simple/app/components/RoleSection.tsx:66-79 | the open picker's mousedown listener acts as `ClickOutside` |
| RoleSection.Picker.HandleScroll | simple/app/components/RoleSection.tsx:72-79 | the open picker's scroll listener closes it |
| NameDisplayV4.Distances | v4/app/src/components/NameDisplay.tsx:70-71 | one distance per letter, `abs(i - index)` |
| NameDisplayV4.SeqMax | v4/app/src/components/NameDisplay.tsx:71 | `Math.max` is an element and bounds them all |
| NameDisplayV4.MaxDistanceIsAnEnd | v4/app/src/components/NameDisplay.tsx:70-71 | the farthest letter is one of the name's two ends |
| NameDisplayV4.Delay | v4/app/src/components/NameDisplay.tsx:75 | a delay is at least 0 and at most 800 ms; a 0/0 quotient means no delay |
| NameDisplayV4.DelayShape | v4/app/src/components/NameDisplay.tsx:75 | the origin starts at once, the farthest at 800 ms, and delays grow with distance |
| NameDisplayV4.LetterTimers | v4/app/src/components/NameDisplay.tsx:74-83 | one add or delete timeout per letter, in letter order |
| NameDisplayV4.WaveTiming | v4/app/src/components/NameDisplay.tsx:99-108 | the clicked letter at 0, all within 800 ms, nearer letters no later, and some letter at 800 ms on names of two letters or more |
| NameDisplayV4.WaveCoversName | v4/app/src/components/NameDisplay.tsx:74-83 | a wave touches every letter of the name and nothing else |
| NameDisplayV4.Click | v4/app/src/components/NameDisplay.tsx:61-115 | a click during a wave is ignored; otherwise it starts a forward wave (name turns blue) or, on a blue name, a reverse one, queueing one timer per letter and the end-of-wave timer |
| NameDisplayV4.Apply | v4/app/src/components/NameDisplay.tsx:80-113 | an add colours a letter, a delete clears one, the forward end unlocks, the reverse end resets the name |
| NameDisplayV4.Fire | v4/app/src/components/NameDisplay.tsx:74-113 | the fired timeout leaves the queue and has the effect of `Apply` |
| NameDisplayV4.AdditionsInAnyOrder | v4/app/src/components/NameDisplay.tsx:103-108 | in any firing order additions yield the old set plus the touched letters |
| NameDisplayV4.DeletionsInAnyOrder | v4/app/src/components/NameDisplay.tsx:74-83 | in any firing order deletions yield the old set minus the touched letters |
| NameDisplayV4.ForwardWaveColoursEveryLetter | v4/app/src/components/NameDisplay.tsx:92-108 | after a forward wave every letter is coloured |
| NameDisplayV4.ReverseWaveClearsEveryLetter | v4/app/src/components/NameDisplay.tsx:64-83 | after a reverse wave no letter is coloured |
| NameDisplayV4.ClickBlockedUntilWaveEnds | v4/app/src/components/NameDisplay.tsx:62 | a second click during a wave changes nothing; the wave's end re-enables clicks |
| NameDisplayV4.LetterStyleMeaning | v4/app/src/components/NameDisplay.tsx:117-148 | no pointer on a plain name: uniformly light; with a pointer: exactly the hovered letter (purple-900) and its neighbours (purple-500) are coloured; on a blue name the wave's letters are purple-500, the hovered one inverted, and unreached letters take purple-900 under the pointer and purple-700 beside it; the rule is `NameDisplayV4.LetterStyle` with its helper `IsAdjacent` |
| NameDisplayV4.SplitOnSpace | v4/app/src/components/NameDisplay.tsx:158-185 | `split(' ')` gives at least one piece and no piece holds a space |
| NameDisplayV4.FirstSpace | v4/app/src/components/NameDisplay.tsx:158-185 | the first space's position |
| NameDisplayV4.SplitHead | v4/app/src/components/NameDisplay.tsx:158-185 | the first piece is a prefix followed by a space when more pieces follow |
| NameDisplayV4.WordPositions | v4/app/src/components/NameDisplay.tsx:158-185 | the first word's letters sit at their own positions and the second word's letter j at the adjusted index, past the space |
| NameDisplayV4.ScheduleWave | v4/app/src/components/NameDisplay.tsx:74-83 | the `forEach` loop builds exactly `LetterTimers` |
| NameDisplayV4.Display.constructor | v4/app/src/components/NameDisplay.tsx:16-30 | the props and the initial state |
| NameDisplayV4.Display.OnRotationInterval | v4/app/src/components/NameDisplay.tsx:46-59 | the word fades out |
| NameDisplayV4.Display.OnWordChange | v4/app/src/components/NameDisplay.tsx:53-56 | the next word, wrapping, fades in |
| NameDisplayV4.Display.HandleMouseEnter | v4/app/src/components/NameDisplay.tsx:162 | sets the hovered letter only |
| NameDisplayV4.Display.HandleMouseLeave | v4/app/src/components/NameDisplay.tsx:163 | clears the hovered letter only |
| NameDisplayV4.Display.HandleLetterClick | v4/app/src/components/NameDisplay.tsx:61-115 | the new state is `Click`'s |
| NameDisplayV4.Display.OnTimer | v4/app/src/components/NameDisplay.tsx:74-113 | the new state is `Fire`'s |
| NameDisplayV1.HighlightIsNeighbourhood | v1/app/src/components/NameDisplay.tsx:57-66 | a letter is highlighted iff a letter is hovered within distance 1 of it; the hover style marks that letter alone; `NameDisplayV1.LetterStyle` models `getLetterStyle`, which v1/app/page.tsx:48-57 repeats and `HomeV1.Home.GetLetterStyle` reuses |
| NameDisplayV1.AtMostThreeLit | v1/app/src/components/NameDisplay.tsx:57-66 | at most the hovered letter and its two neighbours are lit |
| NameDisplayV1.SpaceIsHoverable | v1/app/src/components/NameDisplay.tsx:75-84 | the space is a span too: hovering it lights the letters on both sides |
| NameDisplayV1.Display.constructor | v1/app/src/components/NameDisplay.tsx:24-26 | the initial state |
| NameDisplayV1.Display.OnRotationInterval | v1/app/src/components/NameDisplay.tsx:42-55 | the word fades out |
| NameDisplayV1.Display.OnWordChange | v1/app/src/components/NameDisplay.tsx:49 | the next word, wrapping, fades in |
| NameDisplayV1.Display.HandleMouseEnter | v1/app/src/components/NameDisplay.tsx:79 | sets the hovered letter only |
| NameDisplayV1.Display.HandleMouseLeave | v1/app/src/components/NameDisplay.tsx:80 | clears the hovered letter only |
| NameDisplayV1.Display.CurrentWord | v1/app/src/components/NameDisplay.tsx:93 | the shown word is one of the words |
| HomeV1.RevealOrder | v1/app/page.tsx:22-29 | five reveals, each element once, strictly increasing delays, the name first |
| HomeV1.Reveal | v1/app/page.tsx:24-28 | a reveal shows its element and no other |
| HomeV1.RevealedAreScheduled | v1/app/page.tsx:9-29 | an element is shown iff it was scheduled; leaves and nav never appear |
| HomeV1.LoadShowsEverything | v1/app/page.tsx:22-29 | after the load sequence every revealed element is shown |
| HomeV1.Home.constructor | v1/app/page.tsx:9-19 | everything hidden, first word, no hover |
| HomeV1.Home.OnRevealTimer | v1/app/page.tsx:24-28 | the page state is `Reveal`'s |
| HomeV1.Home.OnRotationInterval | v1/app/page.tsx:31-44 | the word fades out |
| HomeV1.Home.OnWordChange | v1/app/page.tsx:38 | the next word, wrapping, fades in |
| HomeV1.Home.HandleMouseEnter | v1/app/page.tsx:67-76 | sets the hovered letter only |
| HomeV1.Home.HandleMouseLeave | v1/app/page.tsx:67-76 | clears the hovered letter only |
| CarouselV1.CardTotalWidth | v1/app/projects/page.tsx:33-34 | a card is wider than 0 px |
| CarouselV1.OnScroll | v1/app/projects/page.tsx:30-52 | the rounded card becomes active; at or past the end the strip jumps to the first card at 0, before the start to the last card |
| CarouselV1.ScrollTargetIsStable | v1/app/projects/page.tsx:37-78 | at the offset the smooth scroll targets, the scroll handler changes nothing; `CarouselV1.ScrollTarget` models the effect at lines 68-78 that sets `scrollLeft` |
| CarouselV1.DivideBounds | v1/app/projects/page.tsx:37 | dividing by the card width preserves bounds both ways |
| CarouselV1.ScrollSnapsToNearest | v1/app/projects/page.tsx:37-49 | an offset within half a card of card k makes k active |
| CarouselV1.WrapsOnlyPastTheEnds | v1/app/projects/page.tsx:40-47 | the strip jumps only half a card or more beyond either end |
| CarouselV1.Click | v1/app/projects/page.tsx:25-27 | the clicked card becomes active |
| CarouselV1.AutoAdvance | v1/app/projects/page.tsx:88-95 | the next card, the first after the last |
| CarouselV1.OnScrollEvent | v1/app/projects/page.tsx:55-65 | the previous timeout is cleared; exactly the new one is live |
| CarouselV1.OnDebounceFired | v1/app/projects/page.tsx:55-65 | the fired timeout leaves no live one |
| CarouselV1.Unmount | v1/app/projects/page.tsx:98-104 | the cleanup leaves no live timeout |
| CarouselV1.BurstLeavesOneTimer | v1/app/projects/page.tsx:55-65 | any burst of scroll events leaves exactly the last timeout live |
| CarouselV1.CardLooks | v1/app/projects/page.tsx:128-152 | exactly the active card is opaque and enlarged; the parallax offset is always 0; the classes are `CarouselV1.CardOpacityClass` and `ImageTransform` |
| CarouselV1.ProjectsPage.constructor | v1/app/projects/page.tsx:6-10 | first card, offset 0, home hidden, no timer |
| CarouselV1.ProjectsPage.HandleSmoothScroll | v1/app/projects/page.tsx:55-65 | the debounce becomes `OnScrollEvent`'s |
| CarouselV1.ProjectsPage.OnDebounceTimer | v1/app/projects/page.tsx:30-65 | the strip becomes `OnScroll`'s |
| CarouselV1.ProjectsPage.HandleCardClick | v1/app/projects/page.tsx:25-27 | the strip becomes `Click`'s |
| CarouselV1.ProjectsPage.OnAutoAdvance | v1/app/projects/page.tsx:88-95 | the strip becomes `AutoAdvance`'s |
| CarouselV1.ProjectsPage.OnScrolled | v1/app/projects/page.tsx:68-78 | only the offset changes |
| CarouselV1.ProjectsPage.OnHomeTimer | v1/app/projects/page.tsx:85 | the home link appears |
| CarouselV1.ProjectsPage.OnUnmount | v1/app/projects/page.tsx:98-104 | no timeout stays live |
| ProjectsData.FirstMatch | v5/app/data/projects.ts:165-167 | the first position with that slug, -1 iff none |
| ProjectsData.FindBySlug | v5/app/data/projects.ts:165-167 | undefined iff no project has the slug; otherwise the first project with it |
| ProjectsData.AllSlugs | v5/app/data/projects.ts:170-172 | one slug per project, in data order |
| ProjectsData.EverySlugIsFound | v5/app/data/projects.ts:165-172 | every listed slug finds a project |
| ProjectsData.SlugIdentifiesProject | v5/app/data/projects.ts:165-167 | with distinct slugs a project's slug finds that very project |
| ProjectsData.SiteDataInvariants | v5/app/data/projects.ts:24-162 | four projects, id equal to slug, distinct slugs |
| ProjectsSection.AddRef | v5/app/components/Projects.tsx:113-117 | null and known elements change nothing, a new one is appended; no repeats are introduced |
| ProjectsSection.RefsAreTheDistinctElements | v5/app/components/Projects.tsx:113-117 | after any ref callbacks the list holds each passed element once, and the old list is a prefix |
| ProjectsSection.SectionRefs.constructor | v5/app/components/Projects.tsx:113-117 | the list starts empty |
| ProjectsSection.SectionRefs.AddToRefs | v5/app/components/Projects.tsx:113-117 | the list becomes `AddRef`'s |
| ProjectsSection.HexDigitValue | v5/app/components/Projects.tsx:150-152 | a hex digit's value is below 16 |
| ProjectsSection.HexPair | v5/app/components/Projects.tsx:150-152 | a parsed pair is below 256 |
| ProjectsSection.Background | v5/app/components/Projects.tsx:150-152 | a set colour becomes rgba of the hex pairs at offsets 1, 3 and 5, at 0.9; absent or empty gives #121212 |
| ProjectsSection.TextColor | v5/app/components/Projects.tsx:153 | the set colour, or #FFF4EB when absent or empty |
| ProjectsSection.FormatPair | v5/app/components/Projects.tsx:150-152 | a channel formats as two hex digits |
| ProjectsSection.FormatHex | v5/app/components/Projects.tsx:150-152 | three channels format as a `#RRGGBB` colour |
| ProjectsSection.UpperDigitValue | v5/app/components/Projects.tsx:150-152 | an upper-case digit parses to its value |
| ProjectsSection.PairRoundTrip | v5/app/components/Projects.tsx:150-152 | parsing a formatted pair gives the channel back |
| ProjectsSection.BackgroundRoundTrip | v5/app/components/Projects.tsx:150-152 | formatting three channels then computing the background gives those channels at 0.9 |
| ProjectsSection.UpperDigit | v5/app/components/Projects.tsx:151 | a-f map to A-F, every other character is kept |
| ProjectsSection.CaseInsensitiveDigit | v5/app/components/Projects.tsx:151 | `parseInt` gives a lower-case digit the value of its upper-case form |
| ProjectsSection.DigitFormatsBack | v5/app/components/Projects.tsx:151 | a digit's value formats back to the digit in upper case |
| ProjectsSection.PairFormatsBack | v5/app/components/Projects.tsx:151 | parsing two digits and formatting the channel gives the digits back in upper case |
| ProjectsSection.UpperHex | v5/app/components/Projects.tsx:151 | the colour spelled digit by digit in upper case, same length |
| ProjectsSection.HexColorRoundTrip | v5/app/components/Projects.tsx:150-152 | any `#RRGGBB`, in either case, parses to channels that format back to the same colour in upper case |
| ProjectsSection.SiteColoursAreHex | v5/app/data/projects.ts:32-144 | every colour in the data is a `#RRGGBB` colour |
| ProjectsSection.UncolouredProjectDefaults | v5/app/data/projects.ts:108-109 | the project without colours gets both defaults |
| ProjectsSection.Href | v5/app/components/Projects.tsx:124 | the link is `/projects/` followed by the slug |
| ProjectsSection.HrefIsInjective | v5/app/components/Projects.tsx:124 | two links are equal iff their slugs are |
| ProjectsSection.ProjectsToUse | v5/app/components/Projects.tsx:22 | the data set is used only when the prop is absent |
| ProjectsSection.EveryLinkResolves | v5/app/components/Projects.tsx:124 | every section's link resolves to its own project |
| UseScroll.GradientPosition | v3/app/src/hooks/useScroll.ts:18 | capped at 100, exact below the cap, not negative for a non-negative offset |
| UseScroll.TranslateY | v3/app/src/hooks/useScroll.ts:19 | capped at 200, exact below the cap, not negative for a non-negative offset |
| UseScroll.ParallaxIsMonotoneAndCapped | v3/app/src/hooks/useScroll.ts:18-19 | both values are monotone and reach their caps exactly from 1000 px and 2000/3 px |
| UseScroll.ScrollHook.constructor | v3/app/src/hooks/useScroll.ts:6 | the offset starts at 0 |
| UseScroll.ScrollHook.HandleScroll | v3/app/src/hooks/useScroll.ts:9-11 | remembers the window's offset |
| UseScroll.ScrollHook.Values | v3/app/src/hooks/useScroll.ts:21-25 | the hook returns the offset and its two parallax values, each capped, and non-negative for a non-negative offset |
| LocomotiveScroll.DirectionOrDefault | v5/app/components/LocomotiveScroll.tsx:20 | the direction defaults to right when absent |
| LocomotiveScroll.ScrollHeightOrDefault | v5/app/components/LocomotiveScroll.tsx:21 | the panel height defaults to 100vh when absent |
| LocomotiveScroll.TranslateX | v5/app/components/LocomotiveScroll.tsx:68-78 | progress 0 is the start offset, progress 1 the end offset |
| LocomotiveScroll.SlideShape | v5/app/components/LocomotiveScroll.tsx:38-78 | continuous with the initial set, kept between -textWidth and containerWidth, monotone in the direction, the two directions mirrored; the ends are `LocomotiveScroll.StartX` and `EndX`, and the initial set is `InitialX` |
| LocomotiveScroll.SlideBetweenEnds | v5/app/components/LocomotiveScroll.tsx:68-78 | for progress p <= p' the offsets stay between -textWidth and containerWidth and move right (direction right) or left (direction left) |
| LocomotiveScroll.SlideRight | v5/app/components/LocomotiveScroll.tsx:68-78 | moving right, the offset rises from -textWidth towards containerWidth as progress grows |
| LocomotiveScroll.SlideLeft | v5/app/components/LocomotiveScroll.tsx:68-78 | moving left, the offset falls from containerWidth towards -textWidth as progress grows |
| LocomotiveScroll.RisingInterpolation | v5/app/components/LocomotiveScroll.tsx:78 | linear interpolation from a to b >= a is bounded by a and b and non-decreasing in progress |
| LocomotiveScroll.FallingInterpolation | v5/app/components/LocomotiveScroll.tsx:78 | linear interpolation from a to b <= a is bounded by b and a and non-increasing in progress |
| LocomotiveScroll.SlidesMirror | v5/app/components/LocomotiveScroll.tsx:68-78 | the left offset at progress p equals the right offset at progress 1 - p |
| ScrollOptimization.SmoothScrollTrigger | v5/app/utils/scrollOptimization.ts:23-29 | the config gains `invalidateOnRefresh: true`; every other key is kept |
| ScrollOptimization.SmoothScrollTriggerIdempotent | v5/app/utils/scrollOptimization.ts:23-29 | applying it twice is applying it once |
| ScrollOptimization.Optimize | v5/app/utils/scrollOptimization.ts:3-21 | with no window or after a first run nothing changes; otherwise the flag, the config and the four passive listeners are set |
| ScrollOptimization.SetUpRunsAtMostOnce | v5/app/utils/scrollOptimization.ts:3-21 | over any sequence of calls the listeners are registered once, iff some call had a window |
| ScrollOptimization.ScrollSetup.constructor | v5/app/utils/scrollOptimization.ts:3 | the flag starts false |
| ScrollOptimization.ScrollSetup.OptimizeScrollPerformance | v5/app/utils/scrollOptimization.ts:5-21 | the registration loop yields `Optimize`'s globals |
| ProjectShowcaseV2.HeightOrDefault | v2/app/src/components/ProjectShowcase.tsx:20-21 | the heights default to 50vh only when absent |
| ProjectShowcaseV2.FlexWeight | v2/app/src/components/ProjectShowcase.tsx:38 | weight 2 exactly for the hovered image, 0.15 for the others while one is hovered, 1 with none; always positive |
| ProjectShowcaseV2.FlexMeaning | v2/app/src/components/ProjectShowcase.tsx:29-38 | even weights with no hover; the hovered image alone gets 2, the others 0.15 |
| ProjectShowcaseV2.TotalFlexWithHover | v2/app/src/components/ProjectShowcase.tsx:38 | the strip's total weight is n, or 2 + 0.15 (n - 1) with a hovered image |
| ProjectShowcaseV2.OverlayOpacity | v2/app/src/components/ProjectShowcase.tsx:57-58 | the overlay vanishes exactly on the hovered image, otherwise 50 |
| ProjectShowcaseV2.LabelOpacity | v2/app/src/components/ProjectShowcase.tsx:66-67 | the label vanishes exactly on the hovered image, otherwise 100 |
| ProjectShowcaseV2.Showcase.constructor | v2/app/src/components/ProjectShowcase.tsx:24 | no hover, nothing hidden |
| ProjectShowcaseV2.Showcase.HandleMouseEnter | v2/app/src/components/ProjectShowcase.tsx:41 | sets the hovered image only |
| ProjectShowcaseV2.Showcase.HandleMouseLeave | v2/app/src/components/ProjectShowcase.tsx:42 | clears the hover only |
| ProjectShowcaseV2.Showcase.HandleImageError | v2/app/src/components/ProjectShowcase.tsx:48-51 | the failed image is hidden |
| ProjectsPageV2.StripMatchesShowcase | v2/app/projects/page.tsx:29-38 | hovering one of the seven images gives total weight 2.9, the others 0.15 each |
| ProjectsPageV2.ProjectsPage.constructor | v2/app/projects/page.tsx:6-7 | nav hidden, no hover |
| ProjectsPageV2.ProjectsPage.OnNavTimer | v2/app/projects/page.tsx:10-12 | the nav appears |
| ProjectsPageV2.ProjectsPage.HandleMouseEnter | v2/app/projects/page.tsx:41 | sets the hovered image only |
| ProjectsPageV2.ProjectsPage.HandleMouseLeave | v2/app/projects/page.tsx:42 | clears the hover only |
| ProjectsPageV2.ProjectsPage.HandleImageError | v2/app/projects/page.tsx:48-51 | the failed image is hidden |
| LeafDecorations.LeafColor | simple/app/components/LeafDecorations.tsx:11-24 | turq, purple and orange for the three roles, black for anything else |
| LeafDecorations.LeafImages | simple/app/components/LeafDecorations.tsx:32-109 | two images per side; black and white for "All Projects", otherwise the role colour's -dark and -light; the first shows in light mode, the second in dark mode |
| LeafDecorations.LeafSrc | simple/app/components/LeafDecorations.tsx:34 | the path is `/leaf-`, then side and variant joined by `-`, then `.svg` |
| LeafDecorations.VariantFollowsSide | simple/app/components/LeafDecorations.tsx:34 | what follows `/leaf-<side>-` in a path is the variant and the extension |
| LeafDecorations.OneLeafPerSide | simple/app/components/LeafDecorations.tsx:48-109 | exactly one image per side is visible in each colour scheme, and both sides show the same variant |
| HomeSimple.RoleChange | simple/app/page.tsx:27-34 | the tag follows the role; show-all mode is on iff the role is "All Projects" |
| HomeSimple.Reveal | simple/app/page.tsx:37-44 | a reveal adds its element only |
| HomeSimple.RevealDelay | simple/app/page.tsx:42 | the first element is due at once and each next one exactly 300 ms after the one before it |
| HomeSimple.RevealGrowsInOrder | simple/app/page.tsx:37-44 | delays strictly increase; after the first k reveals, in order, the visible set has grown strictly and is exactly the first k elements |
| HomeSimple.Step | simple/app/page.tsx:27-44 | a role report is `handleRoleChange`, a reveal timeout adds its element |
| HomeSimple.EventsRevealExactlyTheFired | simple/app/page.tsx:27-44 | for any events in any order, the shown elements are the old ones plus those whose timeout fired, and the grid mode stays consistent |
| HomeSimple.RevealsInAnyInterleaving | simple/app/page.tsx:37-44 | when the fired timeouts are those of the first k elements, in any order and mixed with any role changes, exactly the first k elements show |
| HomeSimple.PickerDrivesGrid | simple/app/page.tsx:64-68 | selecting a role in the picker keeps the grid's tag equal to the shown role |
| HomeSimple.EveryRoleHasProjects | simple/app/page.tsx:8-20 | no role the picker offers leads to the empty message |
| HomeSimple.HomePage.constructor | simple/app/page.tsx:23-25 | "All Projects" in show-all mode, nothing revealed |
| HomeSimple.HomePage.HandleRoleChange | simple/app/page.tsx:27-34 | the new state is `RoleChange`'s |
| HomeSimple.HomePage.OnRevealTimer | simple/app/page.tsx:37-44 | the new state is `Reveal`'s |
| HomeSimple.HomePage.GridProjects | simple/app/page.tsx:64-68 | the grid gets every project for "All Projects", else exactly those tagged with the role |

## Left out

- GSAP and ScrollTrigger tweens are not modelled: the gallery's slide tween, the Projects section parallax and the text slide's scroll driving. They are foreign calls; only the values the components compute for them are modelled.
- `fitImage`, `requestAnimationFrame` throttling and the adding and removing of listeners are not modelled. Neither are real time and the intersection and visibility observer hooks. Timers are events that fire when the caller says so, and their firing order is left free.
- Markup-only components and `getHeaderHeight` are not modelled, because they hold no logic.
- Console logging in the image error handlers is not modelled.
- The v1 and v4 effects that echo visibility to `onNameVisibleChange` and `onDeveloperVisibleChange` are not modelled. They are callbacks into code outside these components.
- The Navbar's HOME link and its pathname lookup are not modelled, because they are routing, not state.
- The project records leave out the `content` field and the detail-page fields. Only the fields the listing and lookups use are modelled.
- ProjectGrid's responsive layout is not modelled. Below the `md` breakpoint the grid shows two columns and hides the third, so the cards assigned to it are not visible there; `ProjectGrid.GridColumns` states the three-column layout.
- ProjectGrid's own scroll offset and the per-column translate values are not modelled. They are presentation derived from `window.scrollY` and `innerWidth`.
- Key order in the spread `{...config, invalidateOnRefresh: true}` is not modelled, because maps are unordered.
- RoleSection.Picker.HandleRoleSelect: an absent `onRoleChange` is not modelled. The reported role is returned, and the caller may ignore it.
- JavaScript numbers are exact reals or unbounded integers here. Floating-point rounding is not modelled.
- CarouselV1.OnScroll: the browser's clamping of `scrollLeft` to [0, scrollWidth - clientWidth] is not modelled. The offset is any real, so the two wrap branches at v1/app/projects/page.tsx:40-47 are modelled as written, though the clamp may keep a real strip from reaching them, and the written offset of six cards may itself be clamped.
- CarouselV1.CardTotalWidth: requires a positive window width. The source divides by it.
- AnimatedProjectCard.Tick: requires a card of positive height. The source divides by it.
- ProjectsSection.Background: requires a set colour to be `#RRGGBB`. The source slices and parses it. The site's data meets this (`ProjectsSection.SiteColoursAreHex`).
- SimpleProjectGallery.GoTo: requires at least one slide. The source takes a remainder by the count.
- NameDisplayV1.Display.constructor: requires at least one rotating word. The source accepts an empty list, where `% words.length` is NaN; every call site passes words.
- NameDisplayV4.Display.constructor: requires at least one rotating word and a name of at least one letter. The source accepts an empty list (NaN index) and an empty name; every call site passes both.
- NameDisplayV4.Click: a one-letter name gives 0/0, which is NaN. The model uses delay 0, as `setTimeout` does for NaN.
- Stale timers are not guarded in the source, and the model keeps that behaviour. RoleSection increments from an earlier opening may push `visibleItems` past the option count. v4 timers of a stopped wave still apply.
- The v4 name display renders only the first two words of the name, and the model does the same. A third word and an empty second word produce no letters.
