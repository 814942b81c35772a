/**
 * The hoverable name of the v1 site: the letter under the pointer and its two
 * neighbours turn slate blue; a role word rotates below.
 */
module NameDisplayV1 {
  import opened JsMath
  import opened Rotation

  const DefaultName: string := "tyler bulszewicz"
  const DefaultWords: seq<string> := ["Developer", "Software Engineer", "UX/UI Designer", "Creative"]

  const HoveredStyle := "text-[#7C96AD] transition-all duration-200"
  const NeighbourStyle := "text-[#7C96AD] opacity-100 transition-all duration-200"
  const PlainStyle := "text-white"

  /** `hoveredIndex` is -1 while no letter is under the pointer. */
  const NoHover: int := -1

  /** `getLetterStyle(index)` with the pointer on letter `hoveredIndex`. */
  function LetterStyle(hoveredIndex: int, index: int): string {
    if hoveredIndex == NoHover then PlainStyle
    else if index == hoveredIndex then HoveredStyle
    else if index == hoveredIndex - 1 || index == hoveredIndex + 1 then NeighbourStyle
    else PlainStyle
  }

  predicate Highlighted(style: string) {
    style != PlainStyle
  }

  /**
   * A letter at a real position is highlighted exactly when a letter is
   * hovered and it is that letter or one of its two neighbours, so at most
   * three letters are lit at a time.
   */
  lemma HighlightIsNeighbourhood(hoveredIndex: int, index: int)
    requires index >= 0
    ensures Highlighted(LetterStyle(hoveredIndex, index)) <==> hoveredIndex != NoHover && Abs(index - hoveredIndex) <= 1
    ensures LetterStyle(hoveredIndex, index) == HoveredStyle <==> hoveredIndex != NoHover && index == hoveredIndex
  {
  }

  lemma AtMostThreeLit(hoveredIndex: int)
    ensures forall i :: i >= 0 && Highlighted(LetterStyle(hoveredIndex, i)) ==> i in {hoveredIndex - 1, hoveredIndex, hoveredIndex + 1}
  {
  }

  /**
   * Every character is its own span, the space included: with the pointer on
   * the space at position 5, the "r" ending the first word and the "b"
   * starting the second light up.
   */
  lemma SpaceIsHoverable()
    ensures DefaultName[5] == ' ' && DefaultName[4] == 'r' && DefaultName[6] == 'b'
    ensures Highlighted(LetterStyle(5, 4)) && Highlighted(LetterStyle(5, 6))
  {
  }

  class Display {
    const words: seq<string>
    var currentWordIndex: int
    var isVisible: bool
    var hoveredIndex: int

    ghost predicate Valid()
      reads this
    {
      |words| > 0 && 0 <= currentWordIndex < |words|
    }

    constructor (words: seq<string>)
      requires |words| > 0
      ensures this.words == words && Valid()
      ensures currentWordIndex == 0 && isVisible && hoveredIndex == NoHover
    {
      this.words := words;
      currentWordIndex := 0;
      isVisible := true;
      hoveredIndex := NoHover;
    }

    /** The 2 s interval: the word fades out. */
    method OnRotationInterval()
      requires Valid()
      modifies this
      ensures Valid()
      ensures !isVisible && currentWordIndex == old(currentWordIndex) && hoveredIndex == old(hoveredIndex)
    {
      isVisible := false;
    }

    /** The 400 ms timeout after it: the next word fades in. */
    method OnWordChange()
      requires Valid()
      modifies this
      ensures Valid()
      ensures currentWordIndex == NextIndex(old(currentWordIndex), |words|)
      ensures isVisible && hoveredIndex == old(hoveredIndex)
    {
      currentWordIndex := JsRem(currentWordIndex + 1, |words|);
      isVisible := true;
    }

    method HandleMouseEnter(index: int)
      modifies this
      ensures hoveredIndex == index && currentWordIndex == old(currentWordIndex) && isVisible == old(isVisible)
    {
      hoveredIndex := index;
    }

    method HandleMouseLeave()
      modifies this
      ensures hoveredIndex == NoHover && currentWordIndex == old(currentWordIndex) && isVisible == old(isVisible)
    {
      hoveredIndex := NoHover;
    }

    function GetLetterStyle(index: int): string
      reads this
    {
      LetterStyle(hoveredIndex, index)
    }

    /** The word shown under the name. */
    function CurrentWord(): (w: string)
      reads this
      requires Valid()
      ensures w in words
    {
      words[currentWordIndex]
    }
  }
}
