// The projects listing page (src/components/ProjectsPage.tsx): the sorted tag list,
// the search, category and tag filters and their combination, the handlers that
// change them, and the truncated tech chips of a card.

module ProjectsPage {
  import opened Lists
  import opened Text

  /**
   * A project record of src/components/Projects.tsx, reduced to the fields the page's
   * logic reads. The records carry no `featured` flag, which reads as false.
   */
  datatype Project = Project(id: string, title: string, description: string, tech: seq<string>, featured: bool)

  /** The tech list of each project, in order. */
  function TechLists(projects: seq<Project>): (r: seq<seq<string>>)
    ensures |r| == |projects| && forall i :: 0 <= i < |projects| ==> r[i] == projects[i].tech
  {
    seq(|projects|, i requires 0 <= i < |projects| => projects[i].tech)
  }

  lemma LexLeIsOrder()
    ensures Total(LexLe) && Transitive(LexLe)
  {
    forall a, b ensures LexLe(a, b) || LexLe(b, a) {
      LexLeTotal(a, b);
    }
    forall a, b, c | LexLe(a, b) && LexLe(b, c) ensures LexLe(a, c) {
      LexLeTransitive(a, b, c);
    }
  }

  /** `allTags`: every tech entry of every project once, in code-unit order. */
  function AllTags(projects: seq<Project>): (r: seq<string>)
    ensures NoDuplicates(r)
    ensures forall t :: t in r <==> exists i :: 0 <= i < |projects| && t in projects[i].tech
    ensures forall i, j :: 0 <= i < j < |r| ==> LexLe(r[i], r[j]) && r[i] != r[j]
  {
    var d := Dedupe(Flatten(TechLists(projects)));
    LexLeIsOrder();
    var r := SortBy(d, LexLe);
    PermutationKeepsNoDuplicates(d, r);
    forall t ensures t in r <==> exists i :: 0 <= i < |projects| && t in projects[i].tech {
      assert t in r <==> t in multiset(d);
      assert t in d <==> exists i :: 0 <= i < |projects| && t in TechLists(projects)[i];
    }
    r
  }

  /** The search test: the lower-cased query occurs in the title, the description or a tech entry. */
  predicate SearchKeeps(p: Project, query: string) {
    var q := Lower(query);
    Includes(Lower(p.title), q) || Includes(Lower(p.description), q)
    || exists k :: 0 <= k < |p.tech| && Includes(Lower(p.tech[k]), q)
  }

  const WebTech: seq<string> := ["React", "Tailwind", "Netlify", "Supabase"]
  const AiTech: seq<string> := ["Cline", "RAG", "Vector DB", "Ollama", "VLLM", "Bolt.diy"]
  const HardwareTech: seq<string> := ["Threadripper PRO", "RTX 3090FE", "10G Networking", "NAS", "CUDA"]

  /** Some tech entry of the project is in the given set. */
  predicate UsesAny(p: Project, names: seq<string>) {
    exists k :: 0 <= k < |p.tech| && p.tech[k] in names
  }

  /** The category test: three categories by tech set, manufacturing by id, anything else keeps all. */
  predicate CategoryKeeps(p: Project, category: string) {
    if category == "web" then UsesAny(p, WebTech)
    else if category == "ai" then UsesAny(p, AiTech)
    else if category == "hardware" then UsesAny(p, HardwareTech)
    else if category == "manufacturing" then Includes(p.id, "3d-printing")
    else true
  }

  /** The tag test: the exact tag is one of the tech entries. */
  predicate TagKeeps(p: Project, tag: string) {
    tag in p.tech
  }

  /** A filter that is set ("" means unset, as a falsy string) must pass. */
  predicate Keeps(p: Project, query: string, category: string, tag: string) {
    (query == "" || SearchKeeps(p, query))
    && (category == "" || CategoryKeeps(p, category))
    && (tag == "" || TagKeeps(p, tag))
  }

  /** The list the page shows: the projects that pass all three filters, in their order. */
  function FilteredProjects(projects: seq<Project>, query: string, category: string, tag: string): (r: seq<Project>)
    ensures SubsequenceOf(r, projects)
    ensures forall p :: p in r <==> p in projects && Keeps(p, query, category, tag)
  {
    FilterSubsequence(projects, p => Keeps(p, query, category, tag));
    Filter(projects, p => Keeps(p, query, category, tag))
  }

  /** The shown list keeps every copy of a passing record and none of a failing one. */
  lemma FilteredProjectsCopies(projects: seq<Project>, query: string, category: string, tag: string)
    ensures forall p :: multiset(FilteredProjects(projects, query, category, tag))[p]
                     == if Keeps(p, query, category, tag) then multiset(projects)[p] else 0
  {
    FilterCopies(projects, p => Keeps(p, query, category, tag));
  }

  /** With no filter set the list is the project list itself. */
  lemma NoFiltersShowAll(projects: seq<Project>)
    ensures FilteredProjects(projects, "", "", "") == projects
  {
    FilterAll(projects, p => Keeps(p, "", "", ""));
  }

  /** An unknown category keeps everything, like no category at all. */
  lemma UnknownCategoryKeepsAll(projects: seq<Project>, query: string, category: string, tag: string)
    requires category !in ["web", "ai", "hardware", "manufacturing"]
    ensures FilteredProjects(projects, query, category, tag) == FilteredProjects(projects, query, "", tag)
  {
    FilterExt(projects, p => Keeps(p, query, category, tag), p => Keeps(p, query, "", tag));
  }

  /** The projects with the `featured` flag, in their order, every copy kept. */
  function FeaturedProjects(projects: seq<Project>): (r: seq<Project>)
    ensures SubsequenceOf(r, projects)
    ensures forall p :: p in r <==> p in projects && p.featured
    ensures forall p :: multiset(r)[p] == if p.featured then multiset(projects)[p] else 0
  {
    FilterSubsequence(projects, (p: Project) => p.featured);
    FilterCopies(projects, (p: Project) => p.featured);
    Filter(projects, (p: Project) => p.featured)
  }

  /** Records without the flag give an empty featured section. */
  lemma NoFlagNoFeatured(projects: seq<Project>)
    requires forall i :: 0 <= i < |projects| ==> !projects[i].featured
    ensures FeaturedProjects(projects) == []
  {
    FilterNone(projects, (p: Project) => p.featured);
  }

  /** `project.tech.slice(0, 3)`: at most the first three tech entries. */
  function TechChips(tech: seq<string>): (r: seq<string>)
    ensures r <= tech
    ensures |r| == if |tech| < 3 then |tech| else 3
  {
    if |tech| < 3 then tech else tech[..3]
  }

  /** The "+N more" chip, present exactly when some entries are not shown. */
  function MoreLabel(tech: seq<string>): (r: Option<string>)
    ensures r.Some? <==> |tech| > 3
    ensures r.Some? ==> r.value == "+" + NatToString(|tech| - |TechChips(tech)|) + " more"
  {
    if |tech| > 3 then Some("+" + NatToString(|tech| - 3) + " more") else None
  }

  /** A card accounts for every entry: the chips shown plus the number the extra chip names. */
  lemma ChipsAccountForAll(tech: seq<string>)
    ensures |TechChips(tech)| + (if MoreLabel(tech).Some? then |tech| - 3 else 0) == |tech|
    ensures MoreLabel(tech).None? ==> TechChips(tech) == tech
  {
  }

  /** The page state; the list is recomputed by the filter effect after every change. */
  class Page {
    const projects: seq<Project>
    var searchQuery: string
    var selectedCategory: string
    var selectedTag: string
    var filteredProjects: seq<Project>
    var isFilterOpen: bool

    /** The shown list is the one the three filters give. */
    predicate Valid()
      reads this
    {
      filteredProjects == FilteredProjects(projects, searchQuery, selectedCategory, selectedTag)
    }

    constructor(projects: seq<Project>)
      ensures this.projects == projects && Valid()
      ensures searchQuery == "" && selectedCategory == "" && selectedTag == ""
      ensures filteredProjects == projects && !isFilterOpen
    {
      this.projects := projects;
      searchQuery := "";
      selectedCategory := "";
      selectedTag := "";
      filteredProjects := projects;
      isFilterOpen := false;
      new;
      NoFiltersShowAll(projects);
    }

    /** The filter effect: narrows a copy of the list by each filter that is set, then stores it. */
    method ApplyFilters()
      modifies this
      ensures Valid()
      ensures searchQuery == old(searchQuery) && selectedCategory == old(selectedCategory)
      ensures selectedTag == old(selectedTag) && isFilterOpen == old(isFilterOpen)
    {
      var query, category, tag := searchQuery, selectedCategory, selectedTag;
      var result := projects;
      ghost var passed: Project -> bool := p => true;
      FilterAll(projects, passed);
      if query != "" {
        FilterFilter(projects, passed, p => SearchKeeps(p, query), p => SearchKeeps(p, query));
        result := Filter(result, p => SearchKeeps(p, query));
        passed := p => SearchKeeps(p, query);
      }
      assert result == Filter(projects, passed);
      if category != "" {
        ghost var before := passed;
        passed := p => before(p) && CategoryKeeps(p, category);
        FilterFilter(projects, before, p => CategoryKeeps(p, category), passed);
        result := Filter(result, p => CategoryKeeps(p, category));
      }
      assert result == Filter(projects, passed);
      if tag != "" {
        ghost var before := passed;
        passed := p => before(p) && TagKeeps(p, tag);
        FilterFilter(projects, before, p => TagKeeps(p, tag), passed);
        result := Filter(result, p => TagKeeps(p, tag));
      }
      assert result == Filter(projects, passed);
      FilterExt(projects, passed, p => Keeps(p, query, category, tag));
      filteredProjects := result;
    }

    /** The search input's change handler, followed by the effect. */
    method SetSearchQuery(q: string)
      modifies this
      ensures searchQuery == q && Valid()
      ensures selectedCategory == old(selectedCategory) && selectedTag == old(selectedTag)
      ensures isFilterOpen == old(isFilterOpen)
    {
      searchQuery := q;
      ApplyFilters();
    }

    /** A category button: re-clicking the selected category clears it, another one replaces it. */
    method ToggleCategory(id: string)
      modifies this
      ensures selectedCategory == if old(selectedCategory) == id then "" else id
      ensures Valid()
      ensures searchQuery == old(searchQuery) && selectedTag == old(selectedTag) && isFilterOpen == old(isFilterOpen)
    {
      selectedCategory := if selectedCategory == id then "" else id;
      ApplyFilters();
    }

    /** A tag button: re-clicking the selected tag clears it, another one replaces it. */
    method ToggleTag(tag: string)
      modifies this
      ensures selectedTag == if old(selectedTag) == tag then "" else tag
      ensures Valid()
      ensures searchQuery == old(searchQuery) && selectedCategory == old(selectedCategory)
      ensures isFilterOpen == old(isFilterOpen)
    {
      selectedTag := if selectedTag == tag then "" else tag;
      ApplyFilters();
    }

    /** `resetFilters`: clears all three filters, which shows every project again. */
    method ResetFilters()
      modifies this
      ensures searchQuery == "" && selectedCategory == "" && selectedTag == ""
      ensures filteredProjects == projects && Valid()
      ensures isFilterOpen == old(isFilterOpen)
    {
      searchQuery := "";
      selectedCategory := "";
      selectedTag := "";
      ApplyFilters();
      NoFiltersShowAll(projects);
    }

    /** The mobile filter panel's open/close button. */
    method ToggleFilterPanel()
      modifies this
      ensures isFilterOpen == !old(isFilterOpen)
      ensures searchQuery == old(searchQuery) && selectedCategory == old(selectedCategory)
      ensures selectedTag == old(selectedTag) && filteredProjects == old(filteredProjects)
    {
      isFilterOpen := !isFilterOpen;
    }

    /** The mobile filter panel's close button and its Apply button, which both only close it. */
    method CloseFilterPanel()
      modifies this
      ensures !isFilterOpen
      ensures searchQuery == old(searchQuery) && selectedCategory == old(selectedCategory)
      ensures selectedTag == old(selectedTag) && filteredProjects == old(filteredProjects)
    {
      isFilterOpen := false;
    }

    /** The "N results" line and its reset button appear while any filter is set. */
    predicate ShowsResultCount()
      reads this
    {
      searchQuery != "" || selectedCategory != "" || selectedTag != ""
    }
  }

  /** Clicking a category twice restores the list shown before the first click. */
  method CategoryTwiceScenario(projects: seq<Project>)
  {
    var page := new Page(projects);
    page.ToggleCategory("web");
    page.ToggleCategory("web");
    NoFiltersShowAll(projects);
    assert page.filteredProjects == projects;
  }
}
