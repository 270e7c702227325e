/** The projects list page (src/pages/Projects.tsx): a non-manager only sees their own projects;
    the list is then searched, narrowed by the status, priority and assignee filters, sorted, and
    cut into pages of nine. The filters, the search text, the sort key and the current page are
    the page's state. Dates are timestamps given by `time`, and `localeCompare` on names is the
    collation key `rank`. */
module ProjectsPage {
  import opened Wrappers
  import opened Types
  import opened Seqs
  import opened Sorting
  import opened Search
  import opened ProjectCounts

  const ProjectsPerPage: nat := 9

  datatype Filters = Filters(status: seq<ProjectStatus>, priority: seq<PriorityLevel>, assignedTo: string)

  const NoFilters := Filters([], [], "")

  /** A call of `handleFilterChange(type, value)`; `Other` is a type the handler does not know. */
  datatype FilterChange =
    | StatusChange(status: ProjectStatus)
    | PriorityChange(priority: PriorityLevel)
    | AssigneeChange(id: string)
    | Other(kind: string)

  /** Flips membership: a present value is removed (every occurrence), an absent one appended. */
  function Toggle<T(==,!new)>(xs: seq<T>, v: T): (r: seq<T>)
    ensures v in r <==> v !in xs
    ensures forall x :: x != v ==> (x in r <==> x in xs)
    ensures v !in xs ==> r == xs + [v]
  {
    if v in xs then Filter(xs, (x: T) => x != v) else xs + [v]
  }

  /** Toggling the same value twice gives back the same set of values. */
  lemma ToggleTwice<T(!new)>(xs: seq<T>, v: T)
    ensures forall x :: x in Toggle(Toggle(xs, v), v) <==> x in xs
  {
  }

  /** The state update of `handleFilterChange`. */
  function ChangeFilters(f: Filters, change: FilterChange): (r: Filters)
    ensures change.StatusChange? ==> r == f.(status := Toggle(f.status, change.status))
    ensures change.PriorityChange? ==> r == f.(priority := Toggle(f.priority, change.priority))
    ensures change.AssigneeChange? ==>
      r == f.(assignedTo := if change.id == f.assignedTo then "" else change.id)
    ensures change.Other? ==> r == f
  {
    match change
    case StatusChange(s) => f.(status := Toggle(f.status, s))
    case PriorityChange(p) => f.(priority := Toggle(f.priority, p))
    case AssigneeChange(id) => f.(assignedTo := if id == f.assignedTo then "" else id)
    case Other(_) => f
  }

  /** `getActiveFilterCount`. */
  function ActiveFilterCount(f: Filters): nat
  {
    |f.status| + |f.priority| + (if f.assignedTo != "" then 1 else 0)
  }

  /** The role scoping: everything for a manager, otherwise the projects assigned to `userId`. */
  function BaseProjects(ps: seq<Project>, isManager: bool, userId: Option<string>): (r: seq<Project>)
    ensures forall p :: p in r <==> p in ps && (isManager || AssigneeId(p) == userId)
  {
    if isManager then ps else AssignedTo(ps, userId)
  }

  /** The three filter steps, each applied only when its filter is set. */
  function ApplyFilters(ps: seq<Project>, f: Filters): (r: seq<Project>)
    ensures forall p :: p in r <==>
      p in ps && (|f.status| == 0 || p.status in f.status) &&
      (|f.priority| == 0 || p.priority in f.priority) &&
      (f.assignedTo == "" || AssigneeId(p) == Some(f.assignedTo))
  {
    var byStatus := if |f.status| > 0 then Filter(ps, (p: Project) => p.status in f.status) else ps;
    var byPriority := if |f.priority| > 0 then Filter(byStatus, (p: Project) => p.priority in f.priority) else byStatus;
    if f.assignedTo != "" then Filter(byPriority, (p: Project) => AssigneeId(p) == Some(f.assignedTo))
    else byPriority
  }

  /** With no active filter the filter steps change nothing. */
  lemma NoActiveFilterKeepsAll(ps: seq<Project>, f: Filters)
    requires ActiveFilterCount(f) == 0
    ensures ApplyFilters(ps, f) == ps
  {
  }

  /** After `clearFilters` no filter is active. */
  lemma ClearedFiltersInactive()
    ensures ActiveFilterCount(NoFilters) == 0
  {
  }

  /** Filtering only drops projects and keeps the order of the rest. */
  lemma {:induction false} ApplyFiltersIsSubsequence(ps: seq<Project>, f: Filters)
    ensures IsSubsequence(ApplyFilters(ps, f), ps)
  {
    var byStatus := if |f.status| > 0 then Filter(ps, (p: Project) => p.status in f.status) else ps;
    var byPriority := if |f.priority| > 0 then Filter(byStatus, (p: Project) => p.priority in f.priority) else byStatus;
    if |f.status| > 0 {
      FilterIsSubsequence(ps, (p: Project) => p.status in f.status);
    } else {
      SubsequenceReflexive(ps);
    }
    if |f.priority| > 0 {
      FilterIsSubsequence(byStatus, (p: Project) => p.priority in f.priority);
    } else {
      SubsequenceReflexive(byStatus);
    }
    SubsequenceTransitive(byPriority, byStatus, ps);
    if f.assignedTo != "" {
      FilterIsSubsequence(byPriority, (p: Project) => AssigneeId(p) == Some(f.assignedTo));
      SubsequenceTransitive(ApplyFilters(ps, f), byPriority, ps);
    }
  }

  /** The sort key the `sortBy` select stands for; an unknown key compares everything equal. */
  function SortKey(sortBy: string, time: string -> int, rank: string -> int): Project -> int
  {
    match sortBy
    case "newest" => (p: Project) => -time(p.createdAt)
    case "oldest" => (p: Project) => time(p.createdAt)
    case "deadline" => (p: Project) => time(p.endDate)
    case "name" => (p: Project) => rank(p.name)
    case _ => (p: Project) => 0
  }

  /** `[...filteredProjects].sort(…)`: a reordering of the filtered list. */
  function SortProjects(ps: seq<Project>, sortBy: string, time: string -> int, rank: string -> int): (r: seq<Project>)
    ensures multiset(r) == multiset(ps)
    ensures SortedBy(r, SortKey(sortBy, time, rank))
  {
    SortBy(ps, SortKey(sortBy, time, rank))
  }

  /** An unknown sort key keeps the filtered order. */
  lemma UnknownSortKeepsOrder(ps: seq<Project>, sortBy: string, time: string -> int, rank: string -> int)
    requires sortBy !in {"newest", "oldest", "deadline", "name"}
    ensures SortProjects(ps, sortBy, time, rank) == ps
  {
    SortByConstantKey(ps, SortKey(sortBy, time, rank));
  }

  /** `Math.ceil(n / projectsPerPage)`. */
  function TotalPages(n: nat): (t: nat)
    ensures t * ProjectsPerPage >= n
    ensures t > 0 ==> (t - 1) * ProjectsPerPage < n
    ensures t == 0 <==> n == 0
  {
    PageCount(n, ProjectsPerPage)
  }

  /** `sortedProjects.slice((page - 1) * 9, (page - 1) * 9 + 9)`. */
  function PageSlice(ps: seq<Project>, page: int): (r: seq<Project>)
    ensures page >= 1 ==> |r| <= ProjectsPerPage
    ensures 1 <= page <= TotalPages(|ps|) ==>
      var start := (page - 1) * ProjectsPerPage;
      var end := if page * ProjectsPerPage < |ps| then page * ProjectsPerPage else |ps|;
      start < end && r == ps[start..end]
  {
    var start := (page - 1) * ProjectsPerPage;
    Slice(ps, start, start + ProjectsPerPage)
  }

  /** The pages cover the list: consecutive pages continue where the previous one stopped. */
  lemma {:induction false} PagesCoverList(ps: seq<Project>, pages: nat)
    requires pages <= TotalPages(|ps|)
    ensures PagesUpTo(ps, pages) == ps[..if pages * ProjectsPerPage < |ps| then pages * ProjectsPerPage else |ps|]
  {
    if pages > 0 {
      PagesCoverList(ps, pages - 1);
    }
  }

  /** Pages 1 … `pages` one after the other. */
  function PagesUpTo(ps: seq<Project>, pages: nat): seq<Project>
  {
    if pages == 0 then [] else PagesUpTo(ps, pages - 1) + PageSlice(ps, pages)
  }

  /** What the numbered pager shows for 1-based `page`. */
  datatype PagerEntry = Link | Gap | Nothing

  function PagerEntryFor(page: int, currentPage: int, totalPages: int): (e: PagerEntry)
    ensures e == Link <==>
      page == 1 || page == totalPages || -1 <= currentPage - page <= 1
    ensures e == Gap <==>
      !(page == 1 || page == totalPages || -1 <= currentPage - page <= 1) &&
      ((page == 2 && currentPage > 3) || (page == totalPages - 1 && currentPage < totalPages - 2))
  {
    if page == 1 || page == totalPages || (if currentPage >= page then currentPage - page else page - currentPage) <= 1 then Link
    else if (page == 2 && currentPage > 3) || (page == totalPages - 1 && currentPage < totalPages - 2) then Gap
    else Nothing
  }

  /** On a valid page the pager links the first, last and current pages and the current page's
      neighbours, and it marks a gap just after page 1 exactly when pages are skipped there. */
  lemma PagerAroundCurrent(currentPage: int, totalPages: int)
    requires 1 <= currentPage <= totalPages
    ensures PagerEntryFor(1, currentPage, totalPages) == Link
    ensures PagerEntryFor(totalPages, currentPage, totalPages) == Link
    ensures PagerEntryFor(currentPage, currentPage, totalPages) == Link
    ensures currentPage > 1 ==> PagerEntryFor(currentPage - 1, currentPage, totalPages) == Link
    ensures currentPage < totalPages ==> PagerEntryFor(currentPage + 1, currentPage, totalPages) == Link
    ensures totalPages > 2 ==>
      (PagerEntryFor(2, currentPage, totalPages) == Gap <==> currentPage > 3 && totalPages != 3)
    ensures forall page :: 2 < page < currentPage - 1 ==> PagerEntryFor(page, currentPage, totalPages) != Link
  {
  }

  /** Everything the page shows passes the role scope, the search and every filter. */
  function Visible(all: seq<Project>, isManager: bool, userId: Option<string>, query: string,
                   f: Filters, sortBy: string, page: int, time: string -> int, rank: string -> int): (r: seq<Project>)
    ensures forall p :: p in r ==>
      p in all && (isManager || AssigneeId(p) == userId) && ProjectMatches(p, query) &&
      (|f.status| == 0 || p.status in f.status) && (|f.priority| == 0 || p.priority in f.priority) &&
      (f.assignedTo == "" || AssigneeId(p) == Some(f.assignedTo))
    ensures page >= 1 ==> |r| <= ProjectsPerPage
  {
    var sorted := SortProjects(ApplyFilters(SearchProjects(BaseProjects(all, isManager, userId), query), f),
                               sortBy, time, rank);
    var r := PageSlice(sorted, page);
    assert forall p :: p in sorted ==> p in multiset(sorted);
    r
  }

  class ProjectsPageState {
    var filters: Filters
    var searchQuery: string
    var sortBy: string
    var currentPage: int

    /** The initial state: no filters, no search, newest first, page 1. */
    constructor()
      ensures filters == NoFilters && searchQuery == "" && sortBy == "newest" && currentPage == 1
    {
      filters := NoFilters;
      searchQuery := "";
      sortBy := "newest";
      currentPage := 1;
    }

    /** `handleFilterChange`: one filter changes and the page goes back to 1. */
    method HandleFilterChange(change: FilterChange)
      modifies this
      ensures filters == ChangeFilters(old(filters), change) && currentPage == 1
      ensures searchQuery == old(searchQuery) && sortBy == old(sortBy)
    {
      filters := ChangeFilters(filters, change);
      currentPage := 1;
    }

    /** `clearFilters`. */
    method ClearFilters()
      modifies this
      ensures filters == NoFilters && currentPage == 1
      ensures searchQuery == old(searchQuery) && sortBy == old(sortBy)
    {
      filters := NoFilters;
      currentPage := 1;
    }

    /** Typing in the search box: the query changes and the page goes back to 1. */
    method SetSearchQuery(query: string)
      modifies this
      ensures searchQuery == query && currentPage == 1
      ensures filters == old(filters) && sortBy == old(sortBy)
    {
      searchQuery := query;
      currentPage := 1;
    }

    /** The sort select; the page is kept. */
    method SetSortBy(key: string)
      modifies this
      ensures sortBy == key
      ensures filters == old(filters) && searchQuery == old(searchQuery) && currentPage == old(currentPage)
    {
      sortBy := key;
    }

    /** `handlePageChange`. */
    method HandlePageChange(page: int)
      modifies this
      ensures currentPage == page
      ensures filters == old(filters) && searchQuery == old(searchQuery) && sortBy == old(sortBy)
    {
      currentPage := page;
    }

    /** The "Clear all filters" button: search and filters are emptied together. */
    method ClearAll()
      modifies this
      ensures searchQuery == "" && filters == NoFilters && currentPage == 1 && sortBy == old(sortBy)
    {
      searchQuery := "";
      ClearFilters();
    }
  }
}
