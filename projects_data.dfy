/** The project records of the v5 site and the two lookups over them. */
module ProjectsData {
  import opened Wrappers

  /** A project as the listing uses it; the optional colours may be absent. */
  datatype Project = Project(
    id: string, slug: string, title: string, description: string, image: string,
    backgroundColor: Option<string>, textColor: Option<string>)

  /** The four projects of `projectsData`, in order. */
  const ProjectsList: seq<Project> := [
    Project("livingshorelines", "livingshorelines", "Living Shorelines",
      "Environmental design and sustainability branding", "/gd-project-livingshorelines.png",
      Some("#FFF8EB"), Some("#121212")),
    Project("project-1", "project-1", "Project One", "A beautiful design project", "/project1.png",
      Some("#FEFDFA"), Some("#121212")),
    Project("project-2", "project-2", "Project Two", "Another amazing creation", "/project2.png",
      None, None),
    Project("project-3", "project-3", "Project Three", "Innovation meets tradition", "/project3.png",
      Some("#FFF5F5"), Some("#121212"))
  ]

  /** The position of the first project with that slug, or -1. */
  function FirstMatch(projects: seq<Project>, slug: string): (k: int)
    ensures -1 <= k < |projects|
    ensures k == -1 <==> forall p :: p in projects ==> p.slug != slug
    ensures k >= 0 ==> projects[k].slug == slug && forall j :: 0 <= j < k ==> projects[j].slug != slug
  {
    if projects == [] then -1
    else if projects[0].slug == slug then 0
    else
      var k := FirstMatch(projects[1..], slug);
      assert forall p :: p in projects ==> p == projects[0] || p in projects[1..];
      if k == -1 then -1 else k + 1
  }

  /** `getProjectBySlug(slug)`: `find` returns the first project with that slug, or undefined (None). */
  function FindBySlug(projects: seq<Project>, slug: string): (r: Option<Project>)
    ensures r.None? <==> forall p :: p in projects ==> p.slug != slug
    ensures r.Some? ==> r.value in projects && r.value.slug == slug
    ensures r.Some? ==> r.value == projects[FirstMatch(projects, slug)]
  {
    var k := FirstMatch(projects, slug);
    if k == -1 then None else Some(projects[k])
  }

  /** `getAllProjectSlugs()`: one slug per project, in data order. */
  function AllSlugs(projects: seq<Project>): (slugs: seq<string>)
    ensures |slugs| == |projects|
    ensures forall i :: 0 <= i < |projects| ==> slugs[i] == projects[i].slug
  {
    if projects == [] then [] else AllSlugs(projects[..|projects| - 1]) + [projects[|projects| - 1].slug]
  }

  /** Every listed slug leads back to a project with that slug. */
  lemma EverySlugIsFound(projects: seq<Project>, slug: string)
    requires slug in AllSlugs(projects)
    ensures FindBySlug(projects, slug).Some? && FindBySlug(projects, slug).value.slug == slug
  {
    var i :| 0 <= i < |projects| && AllSlugs(projects)[i] == slug;
    assert projects[i] in projects;
  }

  /** No two projects share a slug. */
  predicate DistinctSlugs(projects: seq<Project>) {
    forall i, j :: 0 <= i < j < |projects| ==> projects[i].slug != projects[j].slug
  }

  /** With distinct slugs, a project's slug finds that very project. */
  lemma SlugIdentifiesProject(projects: seq<Project>, i: int)
    requires DistinctSlugs(projects) && 0 <= i < |projects|
    ensures FindBySlug(projects, projects[i].slug) == Some(projects[i])
  {
    assert projects[i] in projects;
    var k := FirstMatch(projects, projects[i].slug);
    assert k == i;
  }

  /** The site's data: four projects, each keyed by equal id and slug, all slugs distinct. */
  lemma SiteDataInvariants()
    ensures |ProjectsList| == 4
    ensures forall p :: p in ProjectsList ==> p.id == p.slug
    ensures DistinctSlugs(ProjectsList)
    ensures AllSlugs(ProjectsList) == ["livingshorelines", "project-1", "project-2", "project-3"]
  {
  }
}
