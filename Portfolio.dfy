/** The portfolio page of src/pages/Portfolio.jsx: every project of every role,
    with the research publications reshaped into project cards, de-duplicated by
    id, and a row of category filter buttons above a staggered card grid. */
module Portfolio {
  import opened Js
  import opened Lists

  /** A project record as the project card receives it. */
  datatype Project = Project(
    id: string, image: string, title: string, category: string,
    description: string, detailsLink: string, isInternalLink: bool)

  /** A research publication record. */
  datatype Publication = Publication(
    id: string, image: string, title: string, category: string, snippet: string, link: string)

  /** The project lists of the personal data the page draws on. */
  datatype Sources = Sources(
    homePortfolioPreviews: seq<Project>, accountant: seq<Project>,
    webDeveloper: seq<Project>, dataAnalyst: seq<Project>, publications: seq<Publication>)

  const ResearchPrefix: string := "Research: "
  const NoProjectsMessage: string := "No projects found for this category."

  function ProjectId(p: Project): string { p.id }
  function ProjectCategory(p: Project): string { p.category }

  /** A publication reshaped as a project card: its category gets the research
      prefix, its snippet becomes the description, its link the details link,
      and it is marked external. */
  function FromPublication(pub: Publication): (r: Project) {
    Project(pub.id, pub.image, pub.title, ResearchPrefix + pub.category, pub.snippet, pub.link, false)
  }

  /** The role projects before de-duplication, in spreading order. */
  function RoleProjects(src: Sources): (r: seq<Project>) {
    src.homePortfolioPreviews + src.accountant + src.webDeveloper + src.dataAnalyst
  }

  /** The spread array before de-duplication: the role projects, then the publications. */
  function Combined(src: Sources): (r: seq<Project>) {
    RoleProjects(src) + MapSeq(src.publications, FromPublication)
  }

  /** `allProjects`: the spread array with every later record of an already seen id dropped. */
  function AllProjects(src: Sources): (r: seq<Project>) {
    DedupBy(Combined(src), ProjectId)
  }

  /** The card a project is shown with: the project and its animation delay. */
  datatype Card = Card(project: Project, aosDelay: nat)

  /** The projects grid of a filtered list: a card per project in list order, or the message. */
  function ProjectGrid(projects: seq<Project>): (r: Section<Card>)
    ensures r.Grid? <==> |projects| > 0
    ensures r.EmptyMessage? ==> r.text == NoProjectsMessage
    ensures r.Grid? ==> |r.items| == |projects| && forall i :: 0 <= i < |projects| ==>
      r.items[i].project == projects[i] &&
      (r.items[i].aosDelay == 0 || r.items[i].aosDelay == 100 || r.items[i].aosDelay == 200)
  {
    GridOrMessage(seq(|projects|, i requires 0 <= i < |projects| => Card(projects[i], StaggerDelay(i))),
                  NoProjectsMessage)
  }

  /** The class of the filter button for `cat`. */
  function FilterButtonClass(filter: string, cat: string): (r: string)
    ensures r == "filter-button active" <==> filter == cat
  {
    "filter-button " + (if filter == cat then "active" else "")
  }

  /** The page's state: the list it was built from, the chosen filter and the list shown. */
  class PortfolioPage {
    const allProjects: seq<Project>
    const categories: seq<string>
    var filter: string
    var filteredProjects: seq<Project>

    /** First render: filter `'All'`, every project shown. */
    constructor (src: Sources)
      ensures allProjects == AllProjects(src)
      ensures categories == FilterOptions(AllProjects(src), ProjectCategory)
      ensures filter == All && filteredProjects == AllProjects(src)
    {
      allProjects := AllProjects(src);
      categories := FilterOptions(AllProjects(src), ProjectCategory);
      filter := All;
      filteredProjects := AllProjects(src);
    }

    /** A filter button's click and the effect it triggers. */
    method SelectFilter(cat: string)
      modifies this
      ensures filter == cat
      ensures filteredProjects == ApplyFilter(allProjects, ProjectCategory, cat)
    {
      filter := cat;
      if filter == All {
        filteredProjects := allProjects;
      } else {
        filteredProjects := FilterBy(allProjects, ProjectCategory, filter);
      }
    }

    function Grid(): (r: Section<Card>)
      reads this
    {
      ProjectGrid(filteredProjects)
    }
  }

  /** An array by identity: the `allProjects` literal built during render `n`, or
      the array `filter` returned in the effect that followed render `n`. Two
      arrays are `Object.is`-equal only when they are the same one. */
  datatype ArrayRef = Built(render: nat) | Filtered(render: nat)

  function RenderOf(a: ArrayRef): (r: nat) {
    match a
    case Built(n) => n
    case Filtered(n) => n
  }

  /** What React keeps for the page between renders: the filter, which array
      `filteredProjects` holds, and the effect's dependencies at its last run. */
  datatype Hooks = Hooks(filter: string, shown: ArrayRef, lastDeps: Option<(string, ArrayRef)>)

  /** The hooks after a render and its effect, and whether React renders again. */
  datatype Pass = Pass(hooks: Hooks, rerender: bool)

  /** Render `n` followed by the filter effect, where `list` is the `allProjects`
      that render sees. The effect stores `list` itself for `'All'` and a fresh
      array otherwise; storing a different array than the one held schedules a
      new render, storing the same one does not. */
  function RenderPass(h: Hooks, n: nat, list: ArrayRef): (r: Pass)
    ensures !EffectRuns(h.lastDeps, (h.filter, list)) ==> r == Pass(h, false)
    ensures EffectRuns(h.lastDeps, (h.filter, list)) ==>
      r.hooks.lastDeps == Some((h.filter, list)) && r.hooks.filter == h.filter &&
      r.hooks.shown == (if h.filter == All then list else Filtered(n)) &&
      (r.rerender <==> r.hooks.shown != h.shown)
  {
    var deps := (h.filter, list);
    if EffectRuns(h.lastDeps, deps) then
      var next := if h.filter == All then list else Filtered(n);
      Pass(Hooks(h.filter, next, Some(deps)), next != h.shown)
    else
      Pass(h, false)
  }

  /** As written: every render builds `allProjects` anew, and the effect depends on it. */
  function PassAsWritten(h: Hooks, n: nat): (r: Pass) {
    RenderPass(h, n, Built(n))
  }

  /** With `allProjects` built once (at module level or memoised), every render sees the same array. */
  function PassHoisted(h: Hooks, n: nat): (r: Pass) {
    RenderPass(h, n, Built(0))
  }

  /** The first render: `useState(allProjects)` holds render 0's array and no effect has run. */
  function Mounted(): (r: Hooks) {
    Hooks(All, Built(0), None)
  }

  /** Every array the hooks hold was made before render `n`. */
  predicate MadeBefore(h: Hooks, n: nat) {
    RenderOf(h.shown) < n && (h.lastDeps.Some? ==> RenderOf(h.lastDeps.value.1) < n)
  }

  /** `k` as-written passes from render `n` on. */
  function RunAsWritten(h: Hooks, n: nat, k: nat): (r: Hooks)
    decreases k
  {
    if k == 0 then h else RunAsWritten(PassAsWritten(h, n).hooks, n + 1, k - 1)
  }

  /** On mount both versions settle: the effect stores the array state already holds. */
  lemma MountSettles()
    ensures !PassAsWritten(Mounted(), 0).rerender
    ensures !PassHoisted(Mounted(), 0).rerender
    ensures PassAsWritten(Mounted(), 0).hooks == Hooks(All, Built(0), Some((All, Built(0))))
  {
  }

  /** As written, a pass over hooks made earlier stores a new array, so React renders
      again, and leaves hooks made before the next render. */
  lemma PassAsWrittenRerenders(h: Hooks, n: nat)
    requires MadeBefore(h, n)
    ensures PassAsWritten(h, n).rerender
    ensures MadeBefore(PassAsWritten(h, n).hooks, n + 1)
    ensures PassAsWritten(h, n).hooks.filter == h.filter
  {
  }

  /** As written, once a render follows the mount, the render-effect cycle never
      ends: after any number `k` of passes the next pass asks for another render. */
  lemma {:induction false} AsWrittenNeverSettles(h: Hooks, n: nat, k: nat)
    requires MadeBefore(h, n)
    ensures PassAsWritten(RunAsWritten(h, n, k), n + k).rerender
    decreases k
  {
    PassAsWrittenRerenders(h, n);
    if k > 0 {
      AsWrittenNeverSettles(PassAsWritten(h, n).hooks, n + 1, k - 1);
    }
  }

  /** Clicking a category other than `'All'` after the mount (render 1) starts the
      endless cycle. */
  lemma ClickNeverSettles(cat: string, k: nat)
    requires cat != All
    ensures PassAsWritten(RunAsWritten(Hooks(cat, Built(0), Some((All, Built(0)))), 1, k), 1 + k).rerender
  {
    AsWrittenNeverSettles(Hooks(cat, Built(0), Some((All, Built(0)))), 1, k);
  }

  /** With `allProjects` built once, the render after any pass runs no effect and
      asks for no further render: the cycle settles within two renders. */
  lemma HoistedSettles(h: Hooks, n: nat)
    ensures !PassHoisted(PassHoisted(h, n).hooks, n + 1).rerender
    ensures PassHoisted(PassHoisted(h, n).hooks, n + 1).hooks == PassHoisted(h, n).hooks
  {
  }

  /** The spread array holds the role projects unchanged, then one card per
      publication whose category is the publication's behind the research prefix,
      with the publication's id, snippet and link, marked external. */
  lemma CombinedLayout(src: Sources)
    ensures |Combined(src)| == |RoleProjects(src)| + |src.publications|
    ensures Combined(src)[..|RoleProjects(src)|] == RoleProjects(src)
    ensures forall k :: 0 <= k < |src.publications| ==>
      var card := Combined(src)[|RoleProjects(src)| + k];
      StartsWith(card.category, ResearchPrefix) &&
      card.category[|ResearchPrefix|..] == src.publications[k].category &&
      card.id == src.publications[k].id && card.image == src.publications[k].image &&
      card.title == src.publications[k].title && card.description == src.publications[k].snippet &&
      card.detailsLink == src.publications[k].link && !card.isInternalLink
  {
    var n := |RoleProjects(src)|;
    forall k | 0 <= k < |src.publications|
      ensures Combined(src)[n + k] == FromPublication(src.publications[k])
    {
    }
  }

  /** `allProjects` carries each id once, keeps every id of the spread array,
      keeps for each id its first record, and keeps spread order. */
  lemma AllProjectsSpec(src: Sources)
    ensures forall p, q :: 0 <= p < q < |AllProjects(src)| ==>
      ProjectId(AllProjects(src)[p]) != ProjectId(AllProjects(src)[q])
    ensures forall i :: 0 <= i < |Combined(src)| ==>
      ProjectId(Combined(src)[i]) in MapSeq(AllProjects(src), ProjectId)
    ensures forall j :: 0 <= j < |AllProjects(src)| ==>
      0 <= FindIndex(Combined(src), ProjectId, ProjectId(AllProjects(src)[j])) &&
      AllProjects(src)[j] == Combined(src)[FindIndex(Combined(src), ProjectId, ProjectId(AllProjects(src)[j]))]
    ensures forall p, q :: 0 <= p < q < |AllProjects(src)| ==>
      FindIndex(Combined(src), ProjectId, ProjectId(AllProjects(src)[p])) <
      FindIndex(Combined(src), ProjectId, ProjectId(AllProjects(src)[q]))
    ensures IsSubseq(AllProjects(src), Combined(src))
  {
    DedupBySpec(Combined(src), ProjectId);
  }

  /** When no id repeats, de-duplication changes nothing. */
  lemma DistinctIdsKeepAll(src: Sources)
    requires forall p, q :: 0 <= p < q < |Combined(src)| ==> Combined(src)[p].id != Combined(src)[q].id
    ensures AllProjects(src) == Combined(src)
  {
    DedupByDistinctUnchanged(Combined(src), ProjectId, 0);
  }

  /** The first render shows the grid exactly when there is some project. */
  lemma InitialGridNonEmpty(src: Sources)
    ensures ProjectGrid(ApplyFilter(AllProjects(src), ProjectCategory, All)).Grid? <==> |Combined(src)| > 0
  {
    DedupBySpec(Combined(src), ProjectId);
    if |Combined(src)| > 0 {
      assert Combined(src)[0].id in MapSeq(AllProjects(src), ProjectId);
    }
  }

  /** Every offered category button leads to a grid, never to the empty message. */
  lemma OfferedCategoryShowsProjects(src: Sources, cat: string)
    requires cat in FilterOptions(AllProjects(src), ProjectCategory) && cat != All
    ensures ProjectGrid(ApplyFilter(AllProjects(src), ProjectCategory, cat)).Grid?
  {
    OfferedFilterNonEmpty(AllProjects(src), ProjectCategory, cat);
  }

  /** With no project in a category called `'All'`, exactly one button is active
      whenever the filter is one of the offered categories. */
  lemma OneActiveButton(src: Sources, filter: string)
    requires filter in FilterOptions(AllProjects(src), ProjectCategory)
    requires All !in MapSeq(AllProjects(src), ProjectCategory)
    ensures exists p :: (0 <= p < |FilterOptions(AllProjects(src), ProjectCategory)| &&
      FilterButtonClass(filter, FilterOptions(AllProjects(src), ProjectCategory)[p]) == "filter-button active")
    ensures forall p, q :: 0 <= p < q < |FilterOptions(AllProjects(src), ProjectCategory)| ==>
      !(FilterButtonClass(filter, FilterOptions(AllProjects(src), ProjectCategory)[p]) == "filter-button active" &&
        FilterButtonClass(filter, FilterOptions(AllProjects(src), ProjectCategory)[q]) == "filter-button active")
  {
    var opts := FilterOptions(AllProjects(src), ProjectCategory);
    FilterOptionsSpec(AllProjects(src), ProjectCategory);
    forall p, q | 0 <= p < q < |opts|
      ensures opts[p] != opts[q]
    {
      if p == 0 {
        assert opts[q] == opts[1..][q - 1];
        assert opts[q] in MapSeq(AllProjects(src), ProjectCategory);
      }
    }
  }
}
