/**
 * The project gallery: the three-stage filter over the project list, the
 * category buttons, the per-type tab counts, the type badge colours and the
 * truncated technology badges of each project card.
 */
module Projects {
  import opened Wrappers
  import opened Text
  import opened Lists

  /** The fields of a project record that the gallery's logic reads. */
  datatype Project = Project(
    id: int,
    title: string,
    category: string,
    projectType: string,
    shortDesc: string,
    description: string,
    technologies: seq<string>)

  /** The selector value that switches a filter off. */
  const All: string := "All"

  /** The type tabs, in display order. */
  const ProjectTypes: seq<string> := [All, "Company", "Freelance", "Key Project"]

  // ---------------------------------------------------------------------------
  // Filter pipeline
  // ---------------------------------------------------------------------------

  /** The search test: the lower-cased term occurs in the lower-cased title, description or some technology. */
  predicate MatchesSearch(p: Project, term: string)
  {
    var t := Lower(term);
    Includes(Lower(p.title), t)
    || Includes(Lower(p.description), t)
    || exists tech :: tech in p.technologies && Includes(Lower(tech), t)
  }

  /** The callbacks handed to the three `.filter` calls. */
  function InCategory(category: string): Project -> bool
  {
    (p: Project) => p.category == category
  }

  function OfType(projectType: string): Project -> bool
  {
    (p: Project) => p.projectType == projectType
  }

  function Matching(term: string): Project -> bool
  {
    (p: Project) => MatchesSearch(p, term)
  }

  /** The filtering effect: category, then type, then search; a stage whose selector is off passes the list through. */
  function FilterProjects(projects: seq<Project>, category: string, projectType: string, term: string): seq<Project>
  {
    var byCategory := if category != All then Filter(projects, InCategory(category)) else projects;
    var byType := if projectType != All then Filter(byCategory, OfType(projectType)) else byCategory;
    if term != "" then Filter(byType, Matching(term)) else byType
  }

  /** Reference definition of what the gallery shows: the three tests, each one vacuous when its selector is off. */
  predicate Selected(p: Project, category: string, projectType: string, term: string)
  {
    && (category == All || p.category == category)
    && (projectType == All || p.projectType == projectType)
    && (term == "" || MatchesSearch(p, term))
  }

  function Criteria(category: string, projectType: string, term: string): Project -> bool
  {
    (p: Project) => Selected(p, category, projectType, term)
  }

  function Passes(b: bool): Project -> bool
  {
    (p: Project) => b
  }

  /** The pipeline of three filters is one filter by the combined criteria. */
  lemma FilterProjectsIsOneFilter(projects: seq<Project>, category: string, projectType: string, term: string)
    ensures FilterProjects(projects, category, projectType, term) == Filter(projects, Criteria(category, projectType, term))
  {
    var c := if category != All then InCategory(category) else Passes(true);
    var t := if projectType != All then OfType(projectType) else Passes(true);
    var m := if term != "" then Matching(term) else Passes(true);
    var ct := (p: Project) => c(p) && t(p);
    FilterKeepsAll(projects, Passes(true));
    var byCategory := Filter(projects, c);
    FilterKeepsAll(byCategory, Passes(true));
    var byType := Filter(byCategory, t);
    FilterKeepsAll(byType, Passes(true));
    FilterFuse(projects, c, t, ct);
    FilterFuse(projects, ct, m, Criteria(category, projectType, term));
  }

  /** The result is the project list with items deleted: nothing is added, duplicated or reordered. */
  lemma FilterProjectsIsSubsequence(projects: seq<Project>, category: string, projectType: string, term: string)
    ensures IsSubsequence(FilterProjects(projects, category, projectType, term), projects)
    ensures multiset(FilterProjects(projects, category, projectType, term)) <= multiset(projects)
  {
    FilterProjectsIsOneFilter(projects, category, projectType, term);
  }

  /** Every project shown has the selected category and the selected type, unless that selector is 'All'. */
  lemma FilterProjectsSound(projects: seq<Project>, category: string, projectType: string, term: string)
    ensures forall p :: p in FilterProjects(projects, category, projectType, term) ==>
      && p in projects
      && (category != All ==> p.category == category)
      && (projectType != All ==> p.projectType == projectType)
      && (term != "" ==> MatchesSearch(p, term))
  {
    FilterProjectsIsOneFilter(projects, category, projectType, term);
    var r := FilterProjects(projects, category, projectType, term);
    forall p | p in r
      ensures p in projects && Selected(p, category, projectType, term)
    {
      var i :| 0 <= i < |r| && r[i] == p;
      assert multiset(r)[p] > 0;
    }
  }

  /** Every project of the list that passes the three tests is shown. */
  lemma FilterProjectsComplete(projects: seq<Project>, category: string, projectType: string, term: string, p: Project)
    requires p in projects
    requires category == All || p.category == category
    requires projectType == All || p.projectType == projectType
    requires term == "" || MatchesSearch(p, term)
    ensures p in FilterProjects(projects, category, projectType, term)
  {
    FilterProjectsIsOneFilter(projects, category, projectType, term);
    assert Criteria(category, projectType, term)(p);
  }

  /** With every selector off the whole list is shown. */
  lemma FilterProjectsUnfiltered(projects: seq<Project>)
    ensures FilterProjects(projects, All, All, "") == projects
  {
  }

  /** The search ignores letter case: a term and any case variant of it select the same projects. */
  lemma SearchIgnoresCase(projects: seq<Project>, category: string, projectType: string, term: string, variant: string)
    requires SameIgnoringCase(term, variant)
    ensures FilterProjects(projects, category, projectType, term) == FilterProjects(projects, category, projectType, variant)
  {
    SameIgnoringCaseLower(term, variant);
    var byCategory := if category != All then Filter(projects, InCategory(category)) else projects;
    var byType := if projectType != All then Filter(byCategory, OfType(projectType)) else byCategory;
    FilterSamePredicate(byType, Matching(term), Matching(variant));
  }

  // ---------------------------------------------------------------------------
  // Category buttons and type tabs
  // ---------------------------------------------------------------------------

  function CategoryColumn(projects: seq<Project>): (r: seq<string>)
    ensures |r| == |projects|
    ensures forall i :: 0 <= i < |projects| ==> r[i] == projects[i].category
  {
    seq(|projects|, i requires 0 <= i < |projects| => projects[i].category)
  }

  /** `['All', ...new Set(projects.map((p) => p.category))]`. */
  function Categories(projects: seq<Project>): seq<string>
  {
    [All] + Distinct(CategoryColumn(projects))
  }

  /**
   * The category buttons: 'All', then every category some project has, each
   * exactly once, in the order in which the categories first appear in the list.
   */
  lemma CategoriesSpec(projects: seq<Project>)
    ensures var r := Categories(projects);
      && |r| >= 1 && r[0] == All
      && (forall p :: p in projects ==> p.category in r[1..])
      && (forall c :: c in r[1..] ==> exists p :: p in projects && p.category == c)
      && NoDuplicates(r[1..])
      && (forall i, j :: 1 <= i < j < |r| ==>
            FirstIndex(CategoryColumn(projects), r[i]) < FirstIndex(CategoryColumn(projects), r[j]))
  {
    var col := CategoryColumn(projects);
    var d := Distinct(col);
    assert Categories(projects)[1..] == d;
    forall p | p in projects
      ensures p.category in d
    {
      var i :| 0 <= i < |projects| && projects[i] == p;
      assert col[i] == p.category;
    }
    forall c | c in d
      ensures exists p :: p in projects && p.category == c
    {
      var i :| 0 <= i < |col| && col[i] == c;
      assert projects[i] in projects;
    }
  }

  /** The number shown on a type tab. */
  function TabCount(projects: seq<Project>, tab: string): nat
  {
    if tab == All then |projects| else |Filter(projects, OfType(tab))|
  }

  function TypeColumn(projects: seq<Project>): (r: seq<string>)
    ensures |r| == |projects|
    ensures forall i :: 0 <= i < |projects| ==> r[i] == projects[i].projectType
  {
    seq(|projects|, i requires 0 <= i < |projects| => projects[i].projectType)
  }

  /** A tab other than 'All' counts the projects of that type: the multiplicity of the type in the list's types. */
  lemma {:induction false} TabCountIsMultiplicity(projects: seq<Project>, tab: string)
    requires tab != All
    ensures TabCount(projects, tab) == multiset(TypeColumn(projects))[tab]
    decreases |projects|
  {
    if projects != [] {
      TabCountIsMultiplicity(projects[1..], tab);
      assert TypeColumn(projects) == [projects[0].projectType] + TypeColumn(projects[1..]);
    }
  }

  /** Every tab's number is the length of the list the pipeline shows with that tab selected and no other selector on. */
  lemma TabCountIsResultLength(projects: seq<Project>, tab: string)
    ensures TabCount(projects, tab) == |FilterProjects(projects, All, tab, "")|
  {
  }

  /** When every project has one of the three types, the three type tabs add up to the 'All' tab. */
  lemma {:induction false} TabCountsPartition(projects: seq<Project>)
    requires forall p :: p in projects ==> p.projectType in ProjectTypes[1..]
    ensures TabCount(projects, "Company") + TabCount(projects, "Freelance") + TabCount(projects, "Key Project")
         == TabCount(projects, All)
    decreases |projects|
  {
    if projects != [] {
      var t := projects[0].projectType;
      assert projects[0] in projects;
      assert t == "Company" || t == "Freelance" || t == "Key Project";
      TabCountsPartition(projects[1..]);
      TabCountStep(projects, "Company");
      TabCountStep(projects, "Freelance");
      TabCountStep(projects, "Key Project");
    }
  }

  lemma TabCountStep(projects: seq<Project>, tab: string)
    requires projects != [] && tab != All
    ensures TabCount(projects, tab) == (if projects[0].projectType == tab then 1 else 0) + TabCount(projects[1..], tab)
  {
  }

  // ---------------------------------------------------------------------------
  // Project card
  // ---------------------------------------------------------------------------

  /** The colours of a type badge. */
  datatype BadgeStyle = BadgeStyle(bg: string, color: string, border: string)

  const CompanyStyle := BadgeStyle("rgba(99,102,241,0.15)", "#a5b4fc", "rgba(99,102,241,0.4)")
  const FreelanceStyle := BadgeStyle("rgba(16,185,129,0.15)", "#6ee7b7", "rgba(16,185,129,0.4)")
  const KeyProjectStyle := BadgeStyle("rgba(245,158,11,0.15)", "#fcd34d", "rgba(245,158,11,0.4)")

  const TypeColors: map<string, BadgeStyle> :=
    map["Company" := CompanyStyle, "Freelance" := FreelanceStyle, "Key Project" := KeyProjectStyle]

  /** `typeColors[projectType] || typeColors['Key Project']`. */
  function TypeStyle(projectType: string): (s: BadgeStyle)
    ensures s in TypeColors.Values
    ensures projectType in TypeColors ==> s == TypeColors[projectType]
    ensures s == KeyProjectStyle <==> projectType !in ["Company", "Freelance"]
  {
    if projectType in TypeColors then TypeColors[projectType] else TypeColors["Key Project"]
  }

  /** The technology badges of a card, and the count on the trailing "+N" badge if there is one. */
  datatype TechBadges = TechBadges(shown: seq<string>, more: Option<nat>)

  const MaxTechBadges: nat := 4

  /** `technologies.slice(0, 4)` and, when there are more than four, `+(technologies.length - 4)`. */
  function CardTechBadges(technologies: seq<string>): (b: TechBadges)
    ensures |b.shown| <= MaxTechBadges
    ensures b.shown <= technologies
    ensures |b.shown| == MaxTechBadges || b.shown == technologies
    ensures b.more.Some? <==> |technologies| > MaxTechBadges
    ensures b.more.Some? ==> b.more.value >= 1 && b.shown + technologies[|b.shown|..] == technologies
    ensures |b.shown| + (if b.more.Some? then b.more.value else 0) == |technologies|
  {
    var shown := if |technologies| <= MaxTechBadges then technologies else technologies[..MaxTechBadges];
    var more := if |technologies| > MaxTechBadges then Some(|technologies| - MaxTechBadges) else None;
    TechBadges(shown, more)
  }
}
