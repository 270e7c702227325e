/** The dashboard (src/pages/Dashboard.tsx): status counts over all projects for the manager
    view and over the signed-in user's own projects for the employee view, and the projects due
    within the next week, soonest first. `now` is the clock and `dateOf` is `new Date(s)`
    (`None` for an invalid date). */
module Dashboard {
  import opened Wrappers
  import opened Types
  import opened Seqs
  import opened Sorting
  import opened ProjectCounts

  /** `projects.filter(p => p.assignedTo?.id === user?.id)`. */
  function MyProjects(ps: seq<Project>, userId: Option<string>): (r: seq<Project>)
    ensures forall p :: p in r <==> p in ps && AssigneeId(p) == userId
    ensures IsSubsequence(r, ps)
  {
    AssignedToIsSubsequence(ps, userId);
    AssignedTo(ps, userId)
  }

  /** The four stat cards of one view. */
  datatype StatusStats = StatusStats(total: nat, completed: nat, inProgress: nat, notStarted: nat)

  function StatsOf(ps: seq<Project>): (st: StatusStats)
    ensures st.total == |ps|
    ensures st.completed + st.inProgress + st.notStarted == st.total
    ensures st.completed == StatusCount(ps, COMPLETED) && st.inProgress == StatusCount(ps, IN_PROGRESS) &&
            st.notStarted == StatusCount(ps, NOT_STARTED)
  {
    StatusCountsAddUp(ps);
    StatusStats(|ps|, StatusCount(ps, COMPLETED), StatusCount(ps, IN_PROGRESS), StatusCount(ps, NOT_STARTED))
  }

  /** The employee view's counts never exceed the manager view's. */
  lemma MyStatsWithinAll(ps: seq<Project>, userId: Option<string>)
    ensures var mine := StatsOf(MyProjects(ps, userId));
            var all := StatsOf(ps);
            mine.total <= all.total && mine.completed <= all.completed &&
            mine.inProgress <= all.inProgress && mine.notStarted <= all.notStarted
  {
    var mine := (p: Project) => AssigneeId(p) == userId;
    CountOfFiltered(ps, mine, (p: Project) => p.status == COMPLETED);
    CountOfFiltered(ps, mine, (p: Project) => p.status == IN_PROGRESS);
    CountOfFiltered(ps, mine, (p: Project) => p.status == NOT_STARTED);
  }

  /** Not completed and due strictly inside the coming week. */
  predicate DueSoon(p: Project, now: int, dateOf: string -> Option<int>)
  {
    EndsWithinWeek(p, now, dateOf) && p.status != COMPLETED
  }

  /** The sort key of the deadline list; every listed project has a valid end date. */
  function Deadline(dateOf: string -> Option<int>): Project -> int
  {
    (p: Project) => dateOf(p.endDate).GetOr(0)
  }

  /** `upcomingDeadlines`. */
  function Upcoming(ps: seq<Project>, now: int, dateOf: string -> Option<int>): (r: seq<Project>)
    ensures forall p :: p in r <==> p in ps && DueSoon(p, now, dateOf)
    ensures forall i :: 0 <= i < |r| ==> dateOf(r[i].endDate).Some? &&
                                         now < dateOf(r[i].endDate).value < now + WeekMillis
    ensures forall i, j :: 0 <= i < j < |r| ==> dateOf(r[i].endDate).value <= dateOf(r[j].endDate).value
    ensures multiset(r) == multiset(Filter(ps, (p: Project) => DueSoon(p, now, dateOf)))
  {
    var due := Filter(ps, (p: Project) => DueSoon(p, now, dateOf));
    var r := SortBy(due, Deadline(dateOf));
    assert forall p :: p in r <==> p in due by {
      forall p ensures p in r <==> p in due {
        SortByMembers(due, Deadline(dateOf), p);
      }
    }
    assert forall i :: 0 <= i < |r| ==> DueSoon(r[i], now, dateOf) by {
      forall i | 0 <= i < |r| ensures DueSoon(r[i], now, dateOf) {
        assert r[i] in due;
      }
    }
    r
  }

  /** `myUpcomingDeadlines`. */
  function MyUpcoming(ps: seq<Project>, now: int, dateOf: string -> Option<int>, userId: Option<string>): (r: seq<Project>)
    ensures forall p :: p in r <==> p in ps && DueSoon(p, now, dateOf) && AssigneeId(p) == userId
  {
    Filter(Upcoming(ps, now, dateOf), (p: Project) => AssigneeId(p) == userId)
  }

  /** The user's own deadlines are the whole list with the others' projects taken out: same
      order, so still soonest first. */
  lemma MyUpcomingIsSubsequence(ps: seq<Project>, now: int, dateOf: string -> Option<int>, userId: Option<string>)
    ensures IsSubsequence(MyUpcoming(ps, now, dateOf, userId), Upcoming(ps, now, dateOf))
    ensures var r := MyUpcoming(ps, now, dateOf, userId);
            forall i, j :: 0 <= i < j < |r| ==> dateOf(r[i].endDate).value <= dateOf(r[j].endDate).value
  {
    var up := Upcoming(ps, now, dateOf);
    FilterIsSubsequence(up, (p: Project) => AssigneeId(p) == userId);
    FilterSorted(up, (p: Project) => AssigneeId(p) == userId, Deadline(dateOf));
    var r := MyUpcoming(ps, now, dateOf, userId);
    forall i, j | 0 <= i < j < |r| ensures dateOf(r[i].endDate).value <= dateOf(r[j].endDate).value {
      assert r[i] in up && r[j] in up;
      assert Deadline(dateOf)(r[i]) <= Deadline(dateOf)(r[j]);
    }
  }

  /** The overview card shows the first three deadlines, the projects tab the first six
      projects. */
  function OverviewDeadlines(up: seq<Project>): (r: seq<Project>)
    ensures |r| <= 3
    ensures r == up[..if |up| < 3 then |up| else 3]
  {
    Slice(up, 0, 3)
  }

  function ProjectsTab(ps: seq<Project>): (r: seq<Project>)
    ensures |r| <= 6
    ensures r == ps[..if |ps| < 6 then |ps| else 6]
  {
    Slice(ps, 0, 6)
  }
}
