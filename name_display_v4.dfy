/**
 * The interactive name of the v4 site: hovering a letter highlights it and
 * its neighbours, clicking a letter sends a colour wave outward from it over
 * 800 ms, and clicking again sends the reverse wave; a role word rotates below.
 */
module NameDisplayV4 {
  import opened Wrappers
  import opened JsMath
  import opened Rotation

  const DefaultName: string := "tyler bulszewicz"
  const DefaultWords: seq<string> := ["Developer", "Software Engineer", "UX/UI Designer", "Creative"]

  /** Duration of a wave, in ms; the end-of-wave timeout uses the same value. */
  const WaveMs: real := 800.0

  // ---------------------------------------------------------------------------
  // The wave's geometry

  /** `name.split('').map((_, i) => Math.abs(i - index))`. */
  function Distances(n: nat, index: int): (ds: seq<nat>)
    ensures |ds| == n && forall i :: 0 <= i < n ==> ds[i] == Abs(i - index)
  {
    if n == 0 then [] else Distances(n - 1, index) + [Abs(n - 1 - index)]
  }

  /** `Math.max(...xs)` on a non-empty list. */
  function SeqMax(xs: seq<nat>): (m: nat)
    requires |xs| > 0
    ensures m in xs && forall x :: x in xs ==> x <= m
  {
    if |xs| == 1 then xs[0]
    else
      var init := SeqMax(xs[..|xs| - 1]);
      assert forall x :: x in xs ==> x in xs[..|xs| - 1] || x == xs[|xs| - 1];
      if init >= xs[|xs| - 1] then init else xs[|xs| - 1]
  }

  function IntMax(a: int, b: int): int { if a >= b then a else b }

  /** The farthest letter is one of the two ends of the name. */
  lemma {:induction false} MaxDistanceIsAnEnd(n: nat, index: nat)
    requires n >= 1
    ensures SeqMax(Distances(n, index)) == IntMax(index, n - 1 - index)
  {
    if n > 1 {
      MaxDistanceIsAnEnd(n - 1, index);
      assert Distances(n, index)[..n - 1] == Distances(n - 1, index);
    }
  }

  /**
   * `(distance / maxDistance) * 800`. On a one-letter name the quotient is
   * 0/0, and `setTimeout` runs a NaN delay at once, so the delay is 0.
   */
  function Delay(distance: nat, maxDistance: nat): (ms: real)
    ensures 0.0 <= ms
    ensures distance <= maxDistance ==> ms <= WaveMs
  {
    if maxDistance == 0 then 0.0
    else (distance as real / maxDistance as real) * WaveMs
  }

  /** The clicked letter starts at once, the farthest letter at 800 ms, and farther letters never start earlier. */
  lemma DelayShape(d1: nat, d2: nat, maxDistance: nat)
    ensures Delay(0, maxDistance) == 0.0
    ensures maxDistance > 0 ==> Delay(maxDistance, maxDistance) == WaveMs
    ensures d1 <= d2 ==> Delay(d1, maxDistance) <= Delay(d2, maxDistance)
  {
    if maxDistance > 0 && d1 <= d2 {
      var m := maxDistance as real;
      assert d2 as real / m - d1 as real / m == (d2 - d1) as real / m;
    }
  }

  // ---------------------------------------------------------------------------
  // State, timers and events

  /** The timeouts a click schedules: one per letter, then the end of the wave. */
  datatype WaveTimer =
    | AddLetter(letter: int, delayMs: real)
    | DeleteLetter(letter: int, delayMs: real)
    | ForwardDone
    | ReverseDone
  {
    function DelayMs(): real {
      match this
      case AddLetter(_, d) => d
      case DeleteLetter(_, d) => d
      case _ => WaveMs
    }
  }

  /** One timeout per letter of a wave from `index` over `n` letters, adding or deleting. */
  function LetterTimers(n: nat, index: int, add: bool): (ts: seq<WaveTimer>)
    requires n >= 1 && 0 <= index
    ensures |ts| == n
    ensures forall i :: 0 <= i < n ==> (if add then ts[i].AddLetter? else ts[i].DeleteLetter?) && ts[i].letter == i
  {
    var ds := Distances(n, index);
    var maxDistance := SeqMax(ds);
    seq(n, i requires 0 <= i < n =>
      if add then AddLetter(i, Delay(ds[i], maxDistance)) else DeleteLetter(i, Delay(ds[i], maxDistance)))
  }

  /**
   * Every letter's timeout of a wave starts within the wave's 800 ms, the
   * clicked letter's at once, and a letter starts no later than any letter
   * farther from the click.
   */
  lemma WaveTiming(n: nat, index: int, add: bool)
    requires n >= 1 && 0 <= index < n
    ensures var ts := LetterTimers(n, index, add);
      ts[index].delayMs == 0.0 &&
      (forall i :: 0 <= i < n ==> 0.0 <= ts[i].delayMs <= WaveMs) &&
      (forall i, j :: 0 <= i < n && 0 <= j < n && Abs(i - index) <= Abs(j - index) ==> ts[i].delayMs <= ts[j].delayMs)
    ensures n >= 2 ==> var ts := LetterTimers(n, index, add);
      exists i :: 0 <= i < n && ts[i].delayMs == WaveMs
  {
    var ds := Distances(n, index);
    var maxDistance := SeqMax(ds);
    MaxDistanceIsAnEnd(n, index);
    var ts := LetterTimers(n, index, add);
    DelayShape(0, 0, maxDistance);
    forall i, j | 0 <= i < n && 0 <= j < n && Abs(i - index) <= Abs(j - index)
      ensures ts[i].delayMs <= ts[j].delayMs
    {
      DelayShape(ds[i], ds[j], maxDistance);
    }
    if n >= 2 {
      var far := if index >= n - 1 - index then 0 else n - 1;
      assert ds[far] == maxDistance;
      DelayShape(maxDistance, maxDistance, maxDistance);
      assert ts[far].delayMs == WaveMs;
    }
  }

  /** The letters a list of timers touches. */
  function TouchedLetters(ts: seq<WaveTimer>): set<int> {
    set t | t in ts && (t.AddLetter? || t.DeleteLetter?) :: t.letter
  }

  /** A wave's letter timers touch every letter of the name and nothing else. */
  lemma WaveCoversName(n: nat, index: int, add: bool)
    requires n >= 1 && 0 <= index
    ensures forall i :: i in TouchedLetters(LetterTimers(n, index, add)) <==> 0 <= i < n
  {
    var ts := LetterTimers(n, index, add);
    forall i | 0 <= i < n ensures i in TouchedLetters(ts) {
      assert ts[i] in ts;
    }
  }

  /** The component's state; `timers` are the pending wave timeouts. */
  datatype NameState = NameState(
    currentWordIndex: int, isVisible: bool, hoveredIndex: int,
    isNameBlue: bool, animationOrigin: Option<int>, animatedLetters: set<int>,
    isAnimating: bool, timers: seq<WaveTimer>)

  const Initial := NameState(0, true, -1, false, None, {}, false, [])

  /**
   * `handleLetterClick(index)` on a name of `n` letters: ignored during a
   * wave; otherwise it starts a wave from `index`, forward (the name turns
   * blue at once) or, on a blue name, in reverse.
   */
  function Click(s: NameState, index: int, n: nat): (r: NameState)
    requires n >= 1 && 0 <= index
    ensures s.isAnimating ==> r == s
    ensures !s.isAnimating ==>
      r.isAnimating && r.animationOrigin == Some(index) && r.isNameBlue &&
      r.animatedLetters == s.animatedLetters &&
      r.timers == s.timers + LetterTimers(n, index, !s.isNameBlue) + [if s.isNameBlue then ReverseDone else ForwardDone]
    ensures r.currentWordIndex == s.currentWordIndex && r.isVisible == s.isVisible && r.hoveredIndex == s.hoveredIndex
  {
    if s.isAnimating then s
    else if s.isNameBlue then
      s.(isAnimating := true, animationOrigin := Some(index),
         timers := s.timers + LetterTimers(n, index, false) + [ReverseDone])
    else
      s.(isAnimating := true, animationOrigin := Some(index), isNameBlue := true,
         timers := s.timers + LetterTimers(n, index, true) + [ForwardDone])
  }

  /** What one timeout does when it fires. */
  function Apply(s: NameState, t: WaveTimer): (r: NameState)
    ensures t.AddLetter? ==> r == s.(animatedLetters := s.animatedLetters + {t.letter})
    ensures t.DeleteLetter? ==> r == s.(animatedLetters := s.animatedLetters - {t.letter})
    ensures t.ForwardDone? ==> r == s.(isAnimating := false)
    ensures t.ReverseDone? ==>
      !r.isNameBlue && r.animatedLetters == {} && r.animationOrigin == None && !r.isAnimating &&
      r.timers == s.timers && r.hoveredIndex == s.hoveredIndex && r.currentWordIndex == s.currentWordIndex
  {
    match t
    case AddLetter(i, _) => s.(animatedLetters := s.animatedLetters + {i})
    case DeleteLetter(i, _) => s.(animatedLetters := s.animatedLetters - {i})
    case ForwardDone => s.(isAnimating := false)
    case ReverseDone => s.(isNameBlue := false, animatedLetters := {}, animationOrigin := None, isAnimating := false)
  }

  /** The pending timeout at position `k` fires and leaves the queue. */
  function Fire(s: NameState, k: nat): (r: NameState)
    requires k < |s.timers|
    ensures r.timers == s.timers[..k] + s.timers[k + 1..]
    ensures r.(timers := s.timers) == Apply(s, s.timers[k]).(timers := s.timers)
  {
    Apply(s.(timers := s.timers[..k] + s.timers[k + 1..]), s.timers[k])
  }

  /** Applying timeouts one after the other. */
  function ApplyAll(s: NameState, ts: seq<WaveTimer>): NameState {
    if ts == [] then s else Apply(ApplyAll(s, ts[..|ts| - 1]), ts[|ts| - 1])
  }

  /**
   * Letter additions commute: in whatever order they fire, the animated set
   * ends up as the old set plus the touched letters, and nothing else changes.
   */
  lemma {:induction false} AdditionsInAnyOrder(s: NameState, ts: seq<WaveTimer>)
    requires forall t :: t in ts ==> t.AddLetter?
    ensures ApplyAll(s, ts) == s.(animatedLetters := s.animatedLetters + TouchedLetters(ts))
  {
    if ts != [] {
      var init := ts[..|ts| - 1];
      assert forall t :: t in init ==> t in ts;
      AdditionsInAnyOrder(s, init);
      assert ts == init + [ts[|ts| - 1]];
      assert TouchedLetters(ts) == TouchedLetters(init) + {ts[|ts| - 1].letter};
    }
  }

  /** Letter deletions commute likewise. */
  lemma {:induction false} DeletionsInAnyOrder(s: NameState, ts: seq<WaveTimer>)
    requires forall t :: t in ts ==> t.DeleteLetter?
    ensures ApplyAll(s, ts) == s.(animatedLetters := s.animatedLetters - TouchedLetters(ts))
  {
    if ts != [] {
      var init := ts[..|ts| - 1];
      assert forall t :: t in init ==> t in ts;
      DeletionsInAnyOrder(s, init);
      assert ts == init + [ts[|ts| - 1]];
      assert TouchedLetters(ts) == TouchedLetters(init) + {ts[|ts| - 1].letter};
    }
  }

  /** Once a forward wave's letter timeouts have all fired, whatever their order, every letter is blue. */
  lemma ForwardWaveColoursEveryLetter(s: NameState, ts: seq<WaveTimer>, n: nat)
    requires forall t :: t in ts ==> t.AddLetter?
    requires forall i :: i in TouchedLetters(ts) <==> 0 <= i < n
    ensures forall i :: 0 <= i < n ==> i in ApplyAll(s, ts).animatedLetters
  {
    AdditionsInAnyOrder(s, ts);
  }

  /** After a reverse wave's letter timeouts, no letter of the name is left blue. */
  lemma ReverseWaveClearsEveryLetter(s: NameState, ts: seq<WaveTimer>, n: nat)
    requires forall t :: t in ts ==> t.DeleteLetter?
    requires forall i :: i in TouchedLetters(ts) <==> 0 <= i < n
    ensures forall i :: 0 <= i < n ==> i !in ApplyAll(s, ts).animatedLetters
  {
    DeletionsInAnyOrder(s, ts);
  }

  /** A second click during the wave changes nothing, and the wave's end re-enables clicks. */
  lemma ClickBlockedUntilWaveEnds(s: NameState, index: int, other: int, n: nat)
    requires n >= 1 && 0 <= index && 0 <= other && !s.isAnimating
    ensures Click(Click(s, index, n), other, n) == Click(s, index, n)
    ensures !Apply(Click(s, index, n), if s.isNameBlue then ReverseDone else ForwardDone).isAnimating
  {
  }

  // ---------------------------------------------------------------------------
  // Letter styles

  const OppositeOnHover := "text-[#FFF4EB] transition-all duration-200"
  const AnimatedPurple := "text-purple-500 transition-all duration-300"
  const HoveredDark := "text-purple-900 transition-all duration-200"
  const AdjacentBlue := "text-purple-700 opacity-100 transition-all duration-200"
  const AdjacentPlain := "text-purple-500 opacity-100 transition-all duration-200"
  const Idle := "text-[#FFF4EB]"
  const Plain := "text-white"

  predicate IsAdjacent(hoveredIndex: int, index: int) {
    hoveredIndex != -1 && (index == hoveredIndex - 1 || index == hoveredIndex + 1)
  }

  /** `getLetterStyle(index)` (lines 117-148). */
  function LetterStyle(s: NameState, index: int): string {
    var isHovered := s.hoveredIndex == index;
    var isAnimated := index in s.animatedLetters;
    if s.isNameBlue then
      if isAnimated then (if isHovered then OppositeOnHover else AnimatedPurple)
      else if isHovered then HoveredDark
      else if IsAdjacent(s.hoveredIndex, index) then AdjacentBlue
      else Plain
    else if s.hoveredIndex == -1 then Idle
    else if isHovered then HoveredDark
    else if IsAdjacent(s.hoveredIndex, index) then AdjacentPlain
    else Plain
  }

  /**
   * The styles' meaning: a plain name with no pointer is uniformly light; with
   * a pointer over it exactly the hovered letter and its two neighbours are
   * purple, the hovered one darkest; on a blue name every letter the wave
   * reached is purple except the one under the pointer, which inverts, and
   * the letters it has not reached take the dark hover and the purple-700
   * neighbour styles around the pointer.
   */
  lemma LetterStyleMeaning(s: NameState, index: int)
    ensures !s.isNameBlue && s.hoveredIndex == -1 ==> LetterStyle(s, index) == Idle
    ensures !s.isNameBlue && s.hoveredIndex != -1 && index >= 0 ==>
      (LetterStyle(s, index) != Plain <==> Abs(index - s.hoveredIndex) <= 1)
    ensures s.isNameBlue && index in s.animatedLetters ==>
      LetterStyle(s, index) == (if s.hoveredIndex == index then OppositeOnHover else AnimatedPurple)
    ensures (s.isNameBlue && index !in s.animatedLetters && index != s.hoveredIndex &&
             (s.hoveredIndex == -1 || Abs(index - s.hoveredIndex) > 1)) ==>
      LetterStyle(s, index) == Plain
    ensures !s.isNameBlue && s.hoveredIndex != -1 && index == s.hoveredIndex ==> LetterStyle(s, index) == HoveredDark
    ensures !s.isNameBlue && s.hoveredIndex != -1 && Abs(index - s.hoveredIndex) == 1 ==>
      LetterStyle(s, index) == AdjacentPlain
    ensures s.isNameBlue && index !in s.animatedLetters && index == s.hoveredIndex ==> LetterStyle(s, index) == HoveredDark
    ensures s.isNameBlue && index !in s.animatedLetters && s.hoveredIndex != -1 && Abs(index - s.hoveredIndex) == 1 ==>
      LetterStyle(s, index) == AdjacentBlue
  {
  }

  // ---------------------------------------------------------------------------
  // The two rendered words

  /** `s.split(' ')`: the pieces between single spaces, empty ones included. */
  function SplitOnSpace(s: string): (r: seq<string>)
    ensures |r| >= 1
    ensures forall w :: w in r ==> ' ' !in w
    decreases |s|
  {
    if ' ' !in s then [s]
    else
      var i := FirstSpace(s);
      [s[..i]] + SplitOnSpace(s[i + 1..])
  }

  function FirstSpace(s: string): (i: nat)
    requires ' ' in s
    ensures i < |s| && s[i] == ' ' && ' ' !in s[..i]
  {
    if s[0] == ' ' then 0
    else
      var k := FirstSpace(s[1..]);
      assert s[1..][..k] == s[1..k + 1];
      k + 1
  }

  /** The first piece is a prefix; when there are more, a space follows it and the rest splits the remainder. */
  lemma SplitHead(s: string)
    ensures var r := SplitOnSpace(s);
      |r[0]| <= |s| && r[0] == s[..|r[0]|] &&
      (|r| > 1 ==> |r[0]| < |s| && s[|r[0]|] == ' ' && r[1..] == SplitOnSpace(s[|r[0]| + 1..]))
  {
  }

  /** `name.split(' ')[0].length + 1 + index`: the position in the name of letter `j` of the second word. */
  function AdjustedIndex(name: string, j: nat): nat {
    |SplitOnSpace(name)[0]| + 1 + j
  }

  /**
   * The first word's letters sit at positions 0 .. |first| - 1, the space
   * after it is skipped, and letter `j` of the second word is the name's
   * character at `AdjustedIndex(name, j)`; so the hover, style and click
   * positions of the two words never collide, and the wave's distances are
   * those of the letters in the whole name.
   */
  lemma WordPositions(name: string, j: nat)
    ensures var w0 := SplitOnSpace(name)[0];
      forall i :: 0 <= i < |w0| ==> i < |name| && name[i] == w0[i]
    ensures var r := SplitOnSpace(name);
      |r| > 1 && j < |r[1]| ==>
        name[|r[0]|] == ' ' && |r[0]| < AdjustedIndex(name, j) < |name| &&
        name[AdjustedIndex(name, j)] == r[1][j]
  {
    SplitHead(name);
    var r := SplitOnSpace(name);
    if |r| > 1 && j < |r[1]| {
      var rest := name[|r[0]| + 1..];
      SplitHead(rest);
      assert r[1] == SplitOnSpace(rest)[0];
      assert rest[j] == r[1][j];
    }
  }

  /**
   * The `forEach` over the distances: one timeout per letter, delayed in
   * proportion to its distance from the clicked letter.
   */
  method ScheduleWave(n: nat, index: nat, add: bool) returns (ts: seq<WaveTimer>)
    requires n >= 1
    ensures ts == LetterTimers(n, index, add)
  {
    var distances := Distances(n, index);
    var maxDistance := SeqMax(distances);
    ghost var expected := LetterTimers(n, index, add);
    ts := [];
    var letterIndex := 0;
    while letterIndex < |distances|
      invariant 0 <= letterIndex <= n
      invariant ts == expected[..letterIndex]
    {
      var delay := Delay(distances[letterIndex], maxDistance);
      var t := if add then AddLetter(letterIndex, delay) else DeleteLetter(letterIndex, delay);
      assert expected[letterIndex] == t;
      assert expected[..letterIndex + 1] == expected[..letterIndex] + [t];
      ts := ts + [t];
      letterIndex := letterIndex + 1;
    }
    assert expected[..n] == expected;
  }

  // ---------------------------------------------------------------------------
  // The component

  class Display {
    const name: string
    const words: seq<string>
    var currentWordIndex: int
    var isVisible: bool
    var hoveredIndex: int
    var isNameBlue: bool
    var animationOrigin: Option<int>
    var animatedLetters: set<int>
    var isAnimating: bool
    var timers: seq<WaveTimer>

    function State(): NameState
      reads this
    {
      NameState(currentWordIndex, isVisible, hoveredIndex, isNameBlue, animationOrigin, animatedLetters, isAnimating, timers)
    }

    ghost predicate Valid()
      reads this
    {
      |name| >= 1 && |words| > 0 && 0 <= currentWordIndex < |words|
    }

    /** `name` and `words` default as in lines 16-17; a name has at least one letter to click. */
    constructor (name: string, words: seq<string>)
      requires |name| >= 1 && |words| > 0
      ensures this.name == name && this.words == words
      ensures State() == Initial && Valid()
    {
      this.name := name;
      this.words := words;
      currentWordIndex := 0;
      isVisible := true;
      hoveredIndex := -1;
      isNameBlue := false;
      animationOrigin := None;
      animatedLetters := {};
      isAnimating := false;
      timers := [];
    }

    /** The 2 s interval: the word fades out. */
    method OnRotationInterval()
      requires Valid()
      modifies this
      ensures Valid()
      ensures State() == old(State()).(isVisible := false)
    {
      isVisible := false;
    }

    /** The 400 ms timeout after it: the next word fades in. */
    method OnWordChange()
      requires Valid()
      modifies this
      ensures Valid()
      ensures State() == old(State()).(currentWordIndex := NextIndex(old(currentWordIndex), |words|), isVisible := true)
    {
      currentWordIndex := JsRem(currentWordIndex + 1, |words|);
      isVisible := true;
    }

    method HandleMouseEnter(index: int)
      requires Valid()
      modifies this
      ensures Valid()
      ensures State() == old(State()).(hoveredIndex := index)
    {
      hoveredIndex := index;
    }

    method HandleMouseLeave()
      requires Valid()
      modifies this
      ensures Valid()
      ensures State() == old(State()).(hoveredIndex := -1)
    {
      hoveredIndex := -1;
    }

    /** `handleLetterClick(index)`, for a rendered letter. */
    method HandleLetterClick(index: nat)
      requires Valid()
      modifies this
      ensures Valid()
      ensures State() == Click(old(State()), index, |name|)
    {
      if isAnimating {
        return;
      }
      var add := !isNameBlue;
      isAnimating := true;
      animationOrigin := Some(index);
      if add {
        isNameBlue := true;
      }
      var letterTimers := ScheduleWave(|name|, index, add);
      timers := timers + letterTimers + [if add then ForwardDone else ReverseDone];
    }

    /** The pending timeout at position `k` fires. */
    method OnTimer(k: nat)
      requires Valid() && k < |timers|
      modifies this
      ensures Valid()
      ensures State() == Fire(old(State()), k)
    {
      var t := timers[k];
      timers := timers[..k] + timers[k + 1..];
      match t
      case AddLetter(i, _) =>
        animatedLetters := animatedLetters + {i};
      case DeleteLetter(i, _) =>
        animatedLetters := animatedLetters - {i};
      case ForwardDone =>
        isAnimating := false;
      case ReverseDone =>
        isNameBlue := false;
        animatedLetters := {};
        animationOrigin := None;
        isAnimating := false;
    }

    function GetLetterStyle(index: int): string
      reads this
    {
      LetterStyle(State(), index)
    }
  }
}
