/** The "My Tasks" page (src/pages/Tasks.tsx): one page of the signed-in user's projects, split
    into the three status groups; each group is searched and sorted on its own. The page's own
    fetch result is a page of projects with a total count, as the page expects it. */
module TasksPage {
  import opened Wrappers
  import opened Types
  import opened Seqs
  import opened Sorting
  import opened Search
  import opened ProjectCounts

  const PageSize: nat := 9

  /** The fetched page, when the fetch has produced one. */
  datatype ProjectPage = ProjectPage(content: seq<Project>, totalElements: nat)

  /** `projectsData?.content || []`. */
  function PageProjects(data: Option<ProjectPage>): (r: seq<Project>)
    ensures data.None? ==> r == []
    ensures data.Some? ==> r == data.value.content
  {
    if data.Some? then data.value.content else []
  }

  /** `Math.ceil((projectsData?.totalElements || 0) / pageSize)`. */
  function TotalPages(data: Option<ProjectPage>): (t: nat)
    ensures data.None? ==> t == 0
    ensures data.Some? ==> t * PageSize >= data.value.totalElements &&
                           (t > 0 ==> (t - 1) * PageSize < data.value.totalElements)
  {
    PageCount(if data.Some? then data.value.totalElements else 0, PageSize)
  }

  /** One status group of the page. */
  function Group(ps: seq<Project>, st: ProjectStatus): (r: seq<Project>)
    ensures forall p :: p in r <==> p in ps && p.status == st
    ensures |r| == StatusCount(ps, st)
  {
    Filter(ps, (p: Project) => p.status == st)
  }

  /** The three groups split the page: every project is in exactly the group of its status, and
      the group sizes add up to the page size. */
  lemma GroupsPartition(ps: seq<Project>)
    ensures |Group(ps, NOT_STARTED)| + |Group(ps, IN_PROGRESS)| + |Group(ps, COMPLETED)| == |ps|
    ensures forall p :: p in ps ==>
      (p in Group(ps, NOT_STARTED) <==> p.status == NOT_STARTED) &&
      (p in Group(ps, IN_PROGRESS) <==> p.status == IN_PROGRESS) &&
      (p in Group(ps, COMPLETED) <==> p.status == COMPLETED)
  {
    StatusCountsAddUp(ps);
  }

  /** `filterBySearch`: nothing happens for an empty query; otherwise the name or description
      must contain the query, ignoring case. */
  function FilterBySearch(ps: seq<Project>, query: string): (r: seq<Project>)
    ensures query == "" ==> r == ps
    ensures forall p :: p in r <==> p in ps && ProjectMatches(p, query)
  {
    if query == "" then EmptyProjectQueryKeepsAll(ps); ps else SearchProjects(ps, query)
  }

  /** The priority weights of the "priority" sort. */
  function PriorityRank(pr: PriorityLevel): (n: int)
    ensures 0 <= n <= 3
  {
    match pr
    case URGENT => 3
    case HIGH => 2
    case MEDIUM => 1
    case LOW => 0
  }

  /** The weights order the priorities from LOW up to URGENT, each weight naming one priority. */
  lemma PriorityRankOrdered()
    ensures PriorityRank(LOW) < PriorityRank(MEDIUM) < PriorityRank(HIGH) < PriorityRank(URGENT)
    ensures forall a, b :: PriorityRank(a) == PriorityRank(b) ==> a == b
  {
  }

  /** The sort key of each `sortBy` choice; "priority" sorts by descending weight, and an unknown
      choice compares everything equal. */
  function SortKey(sortBy: string, time: string -> int, rank: string -> int): Project -> int
  {
    match sortBy
    case "deadline" => (p: Project) => time(p.endDate)
    case "name" => (p: Project) => rank(p.name)
    case "priority" => (p: Project) => -PriorityRank(p.priority)
    case _ => (p: Project) => 0
  }

  /** `sortProjects`: a sorted copy with the same projects. */
  function SortProjects(ps: seq<Project>, sortBy: string, time: string -> int, rank: string -> int): (r: seq<Project>)
    ensures multiset(r) == multiset(ps)
    ensures SortedBy(r, SortKey(sortBy, time, rank))
  {
    SortBy(ps, SortKey(sortBy, time, rank))
  }

  /** The "priority" order puts more urgent projects first. */
  lemma PrioritySortDescending(ps: seq<Project>, time: string -> int, rank: string -> int)
    ensures var r := SortProjects(ps, "priority", time, rank);
            forall i, j :: 0 <= i < j < |r| ==> PriorityRank(r[i].priority) >= PriorityRank(r[j].priority)
  {
    var r := SortProjects(ps, "priority", time, rank);
    forall i, j | 0 <= i < j < |r|
      ensures PriorityRank(r[i].priority) >= PriorityRank(r[j].priority)
    {
      assert SortKey("priority", time, rank)(r[i]) <= SortKey("priority", time, rank)(r[j]);
    }
  }

  /** An unknown choice leaves the order as fetched. */
  lemma UnknownSortKeepsOrder(ps: seq<Project>, sortBy: string, time: string -> int, rank: string -> int)
    requires sortBy !in {"deadline", "name", "priority"}
    ensures SortProjects(ps, sortBy, time, rank) == ps
  {
    SortByConstantKey(ps, SortKey(sortBy, time, rank));
  }

  /** What a group tab shows: its projects that match the search, sorted. */
  function Shown(ps: seq<Project>, st: ProjectStatus, query: string, sortBy: string,
                 time: string -> int, rank: string -> int): (r: seq<Project>)
    ensures forall p :: p in r <==> p in ps && p.status == st && ProjectMatches(p, query)
  {
    var r := SortProjects(FilterBySearch(Group(ps, st), query), sortBy, time, rank);
    assert forall p :: p in r <==> p in multiset(r);
    r
  }

  /** The "No matching tasks" card: the page has projects but no group has a match. */
  predicate NoMatchingTasks(ps: seq<Project>, query: string, sortBy: string, time: string -> int, rank: string -> int)
  {
    |ps| > 0 &&
    |Shown(ps, NOT_STARTED, query, sortBy, time, rank)| == 0 &&
    |Shown(ps, IN_PROGRESS, query, sortBy, time, rank)| == 0 &&
    |Shown(ps, COMPLETED, query, sortBy, time, rank)| == 0
  }

  /** The card appears exactly when the page is not empty and no project on it matches the
      search; the sort choice plays no part. */
  lemma NoMatchingTasksIff(ps: seq<Project>, query: string, sortBy: string, time: string -> int, rank: string -> int)
    ensures NoMatchingTasks(ps, query, sortBy, time, rank) <==>
            |ps| > 0 && forall p :: p in ps ==> !ProjectMatches(p, query)
  {
    if |ps| > 0 && forall p :: p in ps ==> !ProjectMatches(p, query) {
      assert Shown(ps, NOT_STARTED, query, sortBy, time, rank) == [];
      assert Shown(ps, IN_PROGRESS, query, sortBy, time, rank) == [];
      assert Shown(ps, COMPLETED, query, sortBy, time, rank) == [];
    }
    if NoMatchingTasks(ps, query, sortBy, time, rank) {
      forall p | p in ps ensures !ProjectMatches(p, query) {
        assert |Shown(ps, p.status, query, sortBy, time, rank)| == 0;
      }
    }
  }

  /** With an empty search nothing is hidden: the three tabs together hold the whole page. */
  lemma EmptySearchShowsPage(ps: seq<Project>, sortBy: string, time: string -> int, rank: string -> int)
    ensures |Shown(ps, NOT_STARTED, "", sortBy, time, rank)| + |Shown(ps, IN_PROGRESS, "", sortBy, time, rank)| +
            |Shown(ps, COMPLETED, "", sortBy, time, rank)| == |ps|
  {
    GroupsPartition(ps);
    assert |Shown(ps, NOT_STARTED, "", sortBy, time, rank)| == |Group(ps, NOT_STARTED)|;
    assert |Shown(ps, IN_PROGRESS, "", sortBy, time, rank)| == |Group(ps, IN_PROGRESS)|;
    assert |Shown(ps, COMPLETED, "", sortBy, time, rank)| == |Group(ps, COMPLETED)|;
  }
}
