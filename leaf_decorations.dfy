/**
 * The two decorative leaves of the "simple" site, one per side, coloured by
 * the selected role, each as a dark-mode and a light-mode image.
 */
module LeafDecorations {
  import opened Wrappers

  datatype Side = LeftSide | RightSide

  const AllProjects: string := "All Projects"

  function SideName(side: Side): string {
    match side
    case LeftSide => "left"
    case RightSide => "right"
  }

  /** `getLeafColor(role)`: one colour per creative role, black otherwise, the role being optional. */
  function LeafColor(role: Option<string>): (c: string)
    ensures role == Some("Developer") ==> c == "turq"
    ensures role == Some("Creative") ==> c == "purple"
    ensures role == Some("UX/UI Designer") ==> c == "orange"
    ensures role !in {Some("Developer"), Some("Creative"), Some("UX/UI Designer")} ==> c == "black"
  {
    match role
    case Some("Developer") => "turq"
    case Some("Creative") => "purple"
    case Some("UX/UI Designer") => "orange"
    case Some("All Projects") => "black"
    case _ => "black"
  }

  /** An image: its `src` and whether it shows only in dark mode (`dark:block`) or only in light mode (`dark:hidden`). */
  datatype LeafImage = LeafImage(src: string, darkModeOnly: bool)

  /** `/leaf-${side}-${variant}.svg`. */
  function LeafSrc(side: Side, variant: string): (src: string)
    ensures |src| == 11 + |SideName(side)| + |variant|
    ensures src[..6] == "/leaf-" && src[|src| - 4..] == ".svg"
    ensures src[6..|src| - 4] == SideName(side) + "-" + variant
  {
    "/leaf-" + SideName(side) + "-" + variant + ".svg"
  }

  /**
   * The images one side renders (lines 48-76 and 81-109): for "All Projects"
   * the black and white leaves, otherwise the role colour's `-dark` and
   * `-light` leaves; the first image shows in light mode, the second in dark mode.
   */
  function LeafImages(side: Side, selectedRole: Option<string>): (images: seq<LeafImage>)
    ensures |images| == 2 && !images[0].darkModeOnly && images[1].darkModeOnly
    ensures selectedRole == Some(AllProjects) ==>
      images == [LeafImage(LeafSrc(side, "black"), false), LeafImage(LeafSrc(side, "white"), true)]
    ensures selectedRole != Some(AllProjects) ==>
      images[0].src == LeafSrc(side, LeafColor(selectedRole) + "-dark") &&
      images[1].src == LeafSrc(side, LeafColor(selectedRole) + "-light")
  {
    if selectedRole != Some(AllProjects) then
      var color := LeafColor(selectedRole);
      [LeafImage(LeafSrc(side, color + "-dark"), false), LeafImage(LeafSrc(side, color + "-light"), true)]
    else
      [LeafImage(LeafSrc(side, "black"), false), LeafImage(LeafSrc(side, "white"), true)]
  }

  /**
   * Exactly one image per side is visible in either colour scheme, and the
   * two sides always show the same variant.
   */
  lemma OneLeafPerSide(selectedRole: Option<string>, darkMode: bool)
    ensures forall side: Side :: |set i | 0 <= i < 2 && LeafImages(side, selectedRole)[i].darkModeOnly == darkMode| == 1
    ensures LeafImages(LeftSide, selectedRole)[0].src[|"/leaf-left-"|..] ==
      LeafImages(RightSide, selectedRole)[0].src[|"/leaf-right-"|..]
  {
    var variant := if selectedRole == Some(AllProjects) then "black" else LeafColor(selectedRole) + "-dark";
    VariantFollowsSide(LeftSide, variant);
    VariantFollowsSide(RightSide, variant);
    forall side: Side ensures |set i | 0 <= i < 2 && LeafImages(side, selectedRole)[i].darkModeOnly == darkMode| == 1 {
      var k := if darkMode then 1 else 0;
      assert (set i | 0 <= i < 2 && LeafImages(side, selectedRole)[i].darkModeOnly == darkMode) == {k};
    }
  }

  /** What follows `/leaf-<side>-` in an image path is the variant and the extension. */
  lemma VariantFollowsSide(side: Side, variant: string)
    ensures LeafSrc(side, variant)[|"/leaf-" + SideName(side) + "-"|..] == variant + ".svg"
  {
    var prefix := "/leaf-" + SideName(side) + "-";
    assert LeafSrc(side, variant) == prefix + (variant + ".svg");
  }
}
