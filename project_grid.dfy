/** `ProjectGrid`: the dashboard's project list, searched, ordered and cut to
    the first ten */
module ProjectGrid {
  import opened Js
  import opened DashboardTypes
  import opened Sorting

  /** The sort select */
  datatype SortBy = Recent | Oldest | Clips | Name

  /** Code-unit order on titles, standing in for `localeCompare` */
  predicate TitleLe(a: string, b: string)
    decreases |a|
  {
    if a == [] then true
    else if b == [] then false
    else if a[0] != b[0] then a[0] < b[0]
    else TitleLe(a[1..], b[1..])
  }

  lemma {:induction false} TitleLeTotal(a: string, b: string)
    ensures TitleLe(a, b) || TitleLe(b, a)
    decreases |a|
  {
    if a != [] && b != [] && a[0] == b[0] {
      TitleLeTotal(a[1..], b[1..]);
    }
  }

  lemma {:induction false} TitleLeTransitive(a: string, b: string, c: string)
    requires TitleLe(a, b) && TitleLe(b, c)
    ensures TitleLe(a, c)
    decreases |a|
  {
    if a != [] && b != [] && c != [] && a[0] == b[0] && b[0] == c[0] {
      TitleLeTransitive(a[1..], b[1..], c[1..]);
    }
  }

  /** Newest upload first */
  function NewestFirst(a: Project, b: Project): bool { a.uploadDate >= b.uploadDate }
  /** Oldest upload first */
  function OldestFirst(a: Project, b: Project): bool { a.uploadDate <= b.uploadDate }
  /** Most clips first */
  function MostClipsFirst(a: Project, b: Project): bool { a.clipCount >= b.clipCount }
  /** Titles in ascending order */
  function ByTitle(a: Project, b: Project): bool { TitleLe(a.title, b.title) }

  /** The order each choice of the select sorts by */
  function OrderOf(sortBy: SortBy): (le: (Project, Project) -> bool)
  {
    match sortBy
    case Recent => NewestFirst
    case Oldest => OldestFirst
    case Clips => MostClipsFirst
    case Name => ByTitle
  }

  lemma OrdersTotal(sortBy: SortBy)
    ensures Total(OrderOf(sortBy)) && Transitive(OrderOf(sortBy))
  {
    if sortBy == Name {
      forall a: Project, b: Project ensures ByTitle(a, b) || ByTitle(b, a) {
        TitleLeTotal(a.title, b.title);
      }
      forall a: Project, b: Project, c: Project | ByTitle(a, b) && ByTitle(b, c) ensures ByTitle(a, c) {
        TitleLeTransitive(a.title, b.title, c.title);
      }
    }
  }

  /** The search: an empty query keeps everything, otherwise a project stays iff
      its lower-cased title contains the lower-cased query */
  function Search(projects: seq<Project>, query: string): (r: seq<Project>)
    ensures query == "" ==> r == projects
    ensures query != "" ==> forall p :: p in r <==> p in projects && Includes(Lower(p.title), Lower(query))
  {
    if query != "" then Filter(projects, (p: Project) => Includes(Lower(p.title), Lower(query)))
    else projects
  }

  /** `filteredProjects`: the search result in the chosen order */
  function FilteredProjects(projects: seq<Project>, query: string, sortBy: SortBy): (r: seq<Project>)
    ensures multiset(r) == multiset(Search(projects, query))
    ensures |r| == |Search(projects, query)|
  {
    Sort(Search(projects, query), OrderOf(sortBy))
  }

  /** The list shown is a permutation of the search result, and any two of its
      entries are in the chosen order */
  lemma FilteredProjectsOrdered(projects: seq<Project>, query: string, sortBy: SortBy)
    ensures var r := FilteredProjects(projects, query, sortBy);
      multiset(r) == multiset(Search(projects, query)) &&
      forall i, j :: 0 <= i < j < |r| ==> OrderOf(sortBy)(r[i], r[j])
  {
    var r := FilteredProjects(projects, query, sortBy);
    OrdersTotal(sortBy);
    SortSorted(Search(projects, query), OrderOf(sortBy));
    forall i, j | 0 <= i < j < |r| ensures OrderOf(sortBy)(r[i], r[j]) {
      SortedPairs(r, OrderOf(sortBy), i, j);
    }
  }

  /** "recent" lists uploads newest first, "oldest" oldest first and "clips"
      by falling clip count */
  lemma SortOrdersMean(projects: seq<Project>, query: string)
    ensures var r := FilteredProjects(projects, query, Recent);
      forall i, j :: 0 <= i < j < |r| ==> r[i].uploadDate >= r[j].uploadDate
    ensures var r := FilteredProjects(projects, query, Oldest);
      forall i, j :: 0 <= i < j < |r| ==> r[i].uploadDate <= r[j].uploadDate
    ensures var r := FilteredProjects(projects, query, Clips);
      forall i, j :: 0 <= i < j < |r| ==> r[i].clipCount >= r[j].clipCount
  {
    FilteredProjectsOrdered(projects, query, Recent);
    FilteredProjectsOrdered(projects, query, Oldest);
    FilteredProjectsOrdered(projects, query, Clips);
  }

  /** The grid: the first ten of the ordered list */
  function Displayed(projects: seq<Project>, query: string, sortBy: SortBy): (r: seq<Project>)
    ensures |r| == if |FilteredProjects(projects, query, sortBy)| < 10 then |FilteredProjects(projects, query, sortBy)| else 10
    ensures r == FilteredProjects(projects, query, sortBy)[..|r|]
  {
    var all := FilteredProjects(projects, query, sortBy);
    all[..if |all| < 10 then |all| else 10]
  }

  /** Every project shown matches the search, and with ten or fewer matches all
      of them are shown */
  lemma DisplayedMatches(projects: seq<Project>, query: string, sortBy: SortBy)
    ensures forall p :: p in Displayed(projects, query, sortBy) ==> p in Search(projects, query)
    ensures |Search(projects, query)| <= 10 ==>
      multiset(Displayed(projects, query, sortBy)) == multiset(Search(projects, query))
  {
    var all := FilteredProjects(projects, query, sortBy);
    FilteredProjectsOrdered(projects, query, sortBy);
    forall p | p in Displayed(projects, query, sortBy) ensures p in Search(projects, query) {
      assert p in all;
      assert p in multiset(all);
    }
    if |Search(projects, query)| <= 10 {
      assert |all| == |Search(projects, query)|;
      assert Displayed(projects, query, sortBy) == all;
    }
  }
}
