/** The projects page: a category filter, a location filter and a search box
    over the project catalogue, and the "Clear Filters" button. */
module ProjectsGallery {
  import opened Seqs
  import opened Text

  /** The fields of a project that the filters read or the cards show. */
  datatype Project = Project(
    id: string,
    title: string,
    category: string,
    location: string,
    squareFootage: int,
    description: string,
    tags: seq<string>)

  /** The three filter controls. */
  datatype Filters = Filters(category: string, location: string, searchTerm: string)

  const AllCategories: string := "All"
  const AllLocations: string := "All Locations"

  /** The initial filter state, which "Clear Filters" restores. */
  const Cleared: Filters := Filters(AllCategories, AllLocations, "")

  /** The "Clear Filters" handler: whatever was selected, back to the defaults. */
  function ClearFilters(current: Filters): (f: Filters)
    ensures f.category == AllCategories && f.location == AllLocations && f.searchTerm == ""
  {
    Cleared
  }

  /** The predicate `filteredProjects` applies to each project. */
  predicate Matches(f: Filters, p: Project)
  {
    && (f.category == AllCategories || p.category == f.category)
    && (f.location == AllLocations || p.location == f.location)
    && SearchMatches(p.title, p.description, p.tags, f.searchTerm)
  }

  /** `filteredProjects`: sound (every shown project matches all three
      filters) and complete (every matching project is shown). */
  function FilteredProjects(projects: seq<Project>, f: Filters): (r: seq<Project>)
    ensures forall p :: p in r ==> p in projects && Matches(f, p)
    ensures forall p :: p in projects && Matches(f, p) ==> p in r
  {
    Filter(p => Matches(f, p), projects)
  }

  /** The shown projects keep the catalogue order, and each matching project
      is shown as often as it is listed. */
  lemma FilteredKeepsOrder(projects: seq<Project>, f: Filters, p: Project)
    ensures IsSubsequence(FilteredProjects(projects, f), projects)
    ensures multiset(FilteredProjects(projects, f))[p] == if Matches(f, p) then multiset(projects)[p] else 0
  {
    FilterIsSubsequence(p => Matches(f, p), projects);
    FilterMultiplicity(p => Matches(f, p), projects, p);
  }

  /** With the cleared filters every project is shown, in catalogue order. */
  lemma ClearedShowsAll(projects: seq<Project>)
    ensures FilteredProjects(projects, Cleared) == projects
  {
    forall p | p in projects ensures Matches(Cleared, p) {
      EmptySearchMatches(p.title, p.description, p.tags);
    }
    FilterKeepsAll(p => Matches(Cleared, p), projects);
  }

  /** After "Clear Filters", whatever the filters were, the whole catalogue is shown. */
  lemma ClearFiltersShowsAll(projects: seq<Project>, current: Filters)
    ensures FilteredProjects(projects, ClearFilters(current)) == projects
  {
    ClearedShowsAll(projects);
  }

  /** The search box ignores the case of what is typed. */
  lemma SearchIgnoresTermCase(projects: seq<Project>, f: Filters)
    ensures FilteredProjects(projects, f.(searchTerm := Lower(f.searchTerm))) == FilteredProjects(projects, f)
  {
    var g := f.(searchTerm := Lower(f.searchTerm));
    forall p | p in projects ensures Matches(g, p) == Matches(f, p) {
      SearchIgnoresCase(p.title, p.description, p.tags, f.searchTerm);
    }
    FilterAgrees(projects, f, g);
  }

  /** Two filter states that accept the same projects show the same list. */
  lemma {:induction false} FilterAgrees(projects: seq<Project>, f: Filters, g: Filters)
    requires forall p :: p in projects ==> Matches(f, p) == Matches(g, p)
    ensures FilteredProjects(projects, f) == FilteredProjects(projects, g)
  {
    if projects != [] {
      FilterAgrees(projects[1..], f, g);
    }
  }

  /** The "No projects found" message and its "Clear Filters" button appear
      exactly when no project matches. */
  predicate ShowsEmptyState(projects: seq<Project>, f: Filters)
  {
    |FilteredProjects(projects, f)| == 0
  }

  lemma EmptyStateMeansNoMatch(projects: seq<Project>, f: Filters)
    ensures ShowsEmptyState(projects, f) <==> forall p :: p in projects ==> !Matches(f, p)
  {
    if !ShowsEmptyState(projects, f) {
      assert FilteredProjects(projects, f)[0] in FilteredProjects(projects, f);
    }
  }
}
