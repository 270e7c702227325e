/** The reports page (src/pages/Reports.tsx): status and priority tallies of all projects, the
    workload of each employee, the deadlines of the coming week and the completion rate. The
    tallies are the page's `forEach` loops over a count table; the rest are filters, maps and
    sorts. `dateOf` is `parseISO` (`None` for an invalid date), `now` the clock, and `nextWeek`
    the same time seven calendar days later. */
module Reports {
  import opened Wrappers
  import opened Types
  import opened Seqs
  import opened Sorting
  import opened Text
  import opened Dto
  import opened ProjectCounts

  /** `data?.content ?? []`. */
  function ContentOr<T>(data: Option<seq<T>>): (r: seq<T>)
    ensures data.None? ==> r == []
    ensures data.Some? ==> r == data.value
  {
    if data.Some? then data.value else []
  }

  function HasStatus(st: ProjectStatus): ProjectDto -> bool
  {
    (p: ProjectDto) => p.status == st
  }

  function HasPriority(pr: PriorityLevel): ProjectDto -> bool
  {
    (p: ProjectDto) => p.priority == pr
  }

  function StatusTally(ps: seq<ProjectDto>, st: ProjectStatus): nat
  {
    Count(ps, HasStatus(st))
  }

  function PriorityTally(ps: seq<ProjectDto>, pr: PriorityLevel): nat
  {
    Count(ps, HasPriority(pr))
  }

  lemma {:induction false} StatusTalliesAddUp(ps: seq<ProjectDto>)
    ensures StatusTally(ps, NOT_STARTED) + StatusTally(ps, IN_PROGRESS) + StatusTally(ps, COMPLETED) == |ps|
  {
    if ps != [] {
      StatusTalliesAddUp(ps[1..]);
    }
  }

  lemma {:induction false} PriorityTalliesAddUp(ps: seq<ProjectDto>)
    ensures PriorityTally(ps, LOW) + PriorityTally(ps, MEDIUM) + PriorityTally(ps, HIGH) +
            PriorityTally(ps, URGENT) == |ps|
  {
    if ps != [] {
      PriorityTalliesAddUp(ps[1..]);
    }
  }

  /** `statusData`: the count table starts at zero for each status and each project adds one to
      its own status. */
  method StatusData(ps: seq<ProjectDto>) returns (bars: seq<Bar>)
    ensures bars == [Bar("Not Started", StatusTally(ps, NOT_STARTED)),
                     Bar("In Progress", StatusTally(ps, IN_PROGRESS)),
                     Bar("Completed", StatusTally(ps, COMPLETED))]
    ensures BarTotal(bars) == |ps|
  {
    var counts: map<ProjectStatus, nat> := map[NOT_STARTED := 0, IN_PROGRESS := 0, COMPLETED := 0];
    var i := 0;
    assert ps[..0] == [];
    assert forall st: ProjectStatus :: st in counts by {
      forall st: ProjectStatus ensures st in counts {
        match st
        case NOT_STARTED =>
        case IN_PROGRESS =>
        case COMPLETED =>
      }
    }
    while i < |ps|
      invariant 0 <= i <= |ps|
      invariant forall st :: st in counts && counts[st] == StatusTally(ps[..i], st)
    {
      assert ps[..i + 1] == ps[..i] + [ps[i]];
      forall st ensures StatusTally(ps[..i + 1], st) == StatusTally(ps[..i], st) + (if ps[i].status == st then 1 else 0) {
        CountSnoc(ps[..i], ps[i], HasStatus(st));
      }
      counts := counts[ps[i].status := counts[ps[i].status] + 1];
      i := i + 1;
    }
    assert ps[..i] == ps;
    bars := [Bar("Not Started", counts[NOT_STARTED]), Bar("In Progress", counts[IN_PROGRESS]),
             Bar("Completed", counts[COMPLETED])];
    StatusTalliesAddUp(ps);
    assert BarTotal(bars) == bars[0].value + BarTotal(bars[1..]);
    assert BarTotal(bars[1..]) == bars[1].value + BarTotal(bars[2..]);
    assert BarTotal(bars[2..]) == bars[2].value + BarTotal(bars[3..]);
  }

  /** `priorityData`, by the same loop over the four priorities. */
  method PriorityData(ps: seq<ProjectDto>) returns (bars: seq<Bar>)
    ensures bars == [Bar("Low", PriorityTally(ps, LOW)), Bar("Medium", PriorityTally(ps, MEDIUM)),
                     Bar("High", PriorityTally(ps, HIGH)), Bar("Urgent", PriorityTally(ps, URGENT))]
    ensures BarTotal(bars) == |ps|
  {
    var counts: map<PriorityLevel, nat> := map[LOW := 0, MEDIUM := 0, HIGH := 0, URGENT := 0];
    var i := 0;
    assert ps[..0] == [];
    assert forall pr: PriorityLevel :: pr in counts by {
      forall pr: PriorityLevel ensures pr in counts {
        match pr
        case LOW =>
        case MEDIUM =>
        case HIGH =>
        case URGENT =>
      }
    }
    while i < |ps|
      invariant 0 <= i <= |ps|
      invariant forall pr :: pr in counts && counts[pr] == PriorityTally(ps[..i], pr)
    {
      assert ps[..i + 1] == ps[..i] + [ps[i]];
      forall pr ensures PriorityTally(ps[..i + 1], pr) == PriorityTally(ps[..i], pr) + (if ps[i].priority == pr then 1 else 0) {
        CountSnoc(ps[..i], ps[i], HasPriority(pr));
      }
      counts := counts[ps[i].priority := counts[ps[i].priority] + 1];
      i := i + 1;
    }
    assert ps[..i] == ps;
    bars := [Bar("Low", counts[LOW]), Bar("Medium", counts[MEDIUM]), Bar("High", counts[HIGH]),
             Bar("Urgent", counts[URGENT])];
    PriorityTalliesAddUp(ps);
    assert BarTotal(bars) == bars[0].value + BarTotal(bars[1..]);
    assert BarTotal(bars[1..]) == bars[1].value + BarTotal(bars[2..]);
    assert BarTotal(bars[2..]) == bars[2].value + BarTotal(bars[3..]);
    assert BarTotal(bars[3..]) == bars[3].value + BarTotal(bars[4..]);
  }

  /** `employees`: the users with the EMPLOYEE role, in their order. */
  function Employees(users: Option<seq<UserDto>>): (r: seq<UserDto>)
    ensures forall u :: u in r <==> u in ContentOr(users) && u.role == EMPLOYEE
    ensures users.None? ==> r == []
  {
    Filter(ContentOr(users), (u: UserDto) => u.role == EMPLOYEE)
  }

  /** One bar group of the workload chart. */
  datatype Workload = Workload(name: string, total: nat, inProgress: nat, notStarted: nat, completed: nat)

  /** `employeeName`: "first last" trimmed when either part is truthy, the username otherwise. */
  function EmployeeName(u: UserDto): string
  {
    if TruthyString(u.firstName) || TruthyString(u.lastName) then
      Trim(u.firstName.GetOr("") + " " + u.lastName.GetOr(""))
    else u.username
  }

  function AssignedProjects(ps: seq<ProjectDto>, id: int): (r: seq<ProjectDto>)
    ensures forall p :: p in r <==> p in ps && p.assignedToId == Some(id)
  {
    Filter(ps, (p: ProjectDto) => p.assignedToId == Some(id))
  }

  /** One employee's entry: the first word of the name, and the employee's projects counted in
      total and by status. */
  function WorkloadOf(u: UserDto, ps: seq<ProjectDto>): (w: Workload)
    ensures w.total == |AssignedProjects(ps, u.id)|
    ensures w.total == w.notStarted + w.inProgress + w.completed
    ensures w.inProgress == StatusTally(AssignedProjects(ps, u.id), IN_PROGRESS)
    ensures w.notStarted == StatusTally(AssignedProjects(ps, u.id), NOT_STARTED)
    ensures w.completed == StatusTally(AssignedProjects(ps, u.id), COMPLETED)
    ensures ' ' !in w.name
  {
    var mine := AssignedProjects(ps, u.id);
    StatusTalliesAddUp(mine);
    Workload(FirstToken(EmployeeName(u)), |mine|, StatusTally(mine, IN_PROGRESS),
             StatusTally(mine, NOT_STARTED), StatusTally(mine, COMPLETED))
  }

  /** An employee without a first or last name is shown by the first word of the username. */
  lemma UnnamedEmployeeShownByUsername(u: UserDto, ps: seq<ProjectDto>)
    requires !TruthyString(u.firstName) && !TruthyString(u.lastName)
    ensures WorkloadOf(u, ps).name == FirstToken(u.username)
  {
  }

  /** The entries in employee order, before sorting. */
  function Workloads(es: seq<UserDto>, ps: seq<ProjectDto>): (r: seq<Workload>)
    ensures |r| == |es|
    ensures forall i :: 0 <= i < |es| ==> r[i] == WorkloadOf(es[i], ps)
  {
    if es == [] then [] else [WorkloadOf(es[0], ps)] + Workloads(es[1..], ps)
  }

  function ByTotalDescending(w: Workload): int
  {
    -(w.total as int)
  }

  /** Sorting the entries by descending total keeps each entry's sum and orders the totals. */
  lemma SortedWorkloads(ws: seq<Workload>)
    requires forall w :: w in ws ==> w.total == w.notStarted + w.inProgress + w.completed
    ensures var r := SortBy(ws, ByTotalDescending);
            (forall i, j :: 0 <= i < j < |r| ==> r[i].total >= r[j].total) &&
            (forall w :: w in r ==> w.total == w.notStarted + w.inProgress + w.completed)
  {
    var r := SortBy(ws, ByTotalDescending);
    forall i, j | 0 <= i < j < |r| ensures r[i].total >= r[j].total {
      assert ByTotalDescending(r[i]) <= ByTotalDescending(r[j]);
    }
    forall w | w in r ensures w.total == w.notStarted + w.inProgress + w.completed {
      SortByMembers(ws, ByTotalDescending, w);
    }
  }

  /** `workloadData`: nothing without employees, otherwise one entry per employee, busiest
      first. */
  function WorkloadData(es: seq<UserDto>, ps: seq<ProjectDto>): (r: seq<Workload>)
    ensures |es| == 0 ==> r == []
    ensures |r| == |es|
    ensures multiset(r) == multiset(Workloads(es, ps))
    ensures forall i, j :: 0 <= i < j < |r| ==> r[i].total >= r[j].total
    ensures forall w :: w in r ==> w.total == w.notStarted + w.inProgress + w.completed
  {
    if |es| == 0 then []
    else
      var ws := Workloads(es, ps);
      assert forall w :: w in ws ==> w.total == w.notStarted + w.inProgress + w.completed by {
        forall w | w in ws ensures w.total == w.notStarted + w.inProgress + w.completed {
          var k :| 0 <= k < |ws| && ws[k] == w;
        }
      }
      SortedWorkloads(ws);
      SortBy(ws, ByTotalDescending)
  }

  /** A project of the coming-week list: not completed, with a valid end date between now and
      the same time next week, both ends included. */
  predicate DueThisWeek(p: ProjectDto, now: int, nextWeek: int, dateOf: string -> Option<int>)
  {
    p.status != COMPLETED && TruthyString(p.endDate) && dateOf(p.endDate.value).Some? &&
    now <= dateOf(p.endDate.value).value <= nextWeek
  }

  /** The sort key of the deadline list; every listed project has a valid end date. */
  function EndTime(dateOf: string -> Option<int>): ProjectDto -> int
  {
    (p: ProjectDto) => if p.endDate.Some? && dateOf(p.endDate.value).Some? then dateOf(p.endDate.value).value else 0
  }

  /** `upcomingDeadlines`. */
  function UpcomingDeadlines(ps: seq<ProjectDto>, now: int, nextWeek: int, dateOf: string -> Option<int>): (r: seq<ProjectDto>)
    ensures forall p :: p in r <==> p in ps && DueThisWeek(p, now, nextWeek, dateOf)
    ensures forall i :: 0 <= i < |r| ==> DueThisWeek(r[i], now, nextWeek, dateOf)
    ensures forall i, j :: 0 <= i < j < |r| ==>
      DueThisWeek(r[i], now, nextWeek, dateOf) && DueThisWeek(r[j], now, nextWeek, dateOf) &&
      dateOf(r[i].endDate.value).value <= dateOf(r[j].endDate.value).value
    ensures multiset(r) == multiset(Filter(ps, (p: ProjectDto) => DueThisWeek(p, now, nextWeek, dateOf)))
  {
    var due := Filter(ps, (p: ProjectDto) => DueThisWeek(p, now, nextWeek, dateOf));
    var r := SortBy(due, EndTime(dateOf));
    assert forall p :: p in r <==> p in due by {
      forall p ensures p in r <==> p in due {
        SortByMembers(due, EndTime(dateOf), p);
      }
    }
    assert forall i :: 0 <= i < |r| ==> DueThisWeek(r[i], now, nextWeek, dateOf) by {
      forall i | 0 <= i < |r| ensures DueThisWeek(r[i], now, nextWeek, dateOf) {
        assert r[i] in due;
      }
    }
    r
  }

  /** `Math.round(completed / total * 100)` when there are projects, 0 otherwise; the quotient is
      taken exactly and rounded half up. */
  function CompletionPercentage(completed: nat, total: nat): (r: nat)
    ensures total == 0 ==> r == 0
    ensures total > 0 ==> 2 * total * r <= 200 * completed + total < 2 * total * (r + 1)
    ensures completed <= total ==> r <= 100
    ensures total > 0 && completed == total ==> r == 100
  {
    if total == 0 then 0
    else
      var r := (200 * completed + total) / (2 * total);
      RoundedPercentBounds(completed, total, r);
      r
  }

  /** The bounds of the rounded quotient, by the multiplication facts the solver does not find
      alone. */
  lemma RoundedPercentBounds(completed: nat, total: nat, r: nat)
    requires total > 0 && r == (200 * completed + total) / (2 * total)
    ensures 2 * total * r <= 200 * completed + total < 2 * total * (r + 1)
    ensures completed <= total ==> r <= 100
    ensures completed == total ==> r == 100
  {
    var n := 200 * completed + total;
    var d := 2 * total;
    assert n == d * r + n % d && 0 <= n % d < d;
    if completed <= total && r > 100 {
      assert d * r >= d * 101 by { MultiplyMonotone(d, 101, r); }
      assert false;
    }
    if completed == total && r < 100 {
      assert d * (r + 1) <= d * 100 by { MultiplyMonotone(d, r + 1, 100); }
      assert false;
    }
  }

  lemma MultiplyMonotone(d: nat, a: int, b: int)
    requires a <= b
    ensures d * a <= d * b
  {
    assert d * b - d * a == d * (b - a);
  }

  /** The completion card over the page's projects. */
  function CompletionRate(ps: seq<ProjectDto>): (r: nat)
    ensures r <= 100
    ensures ps == [] ==> r == 0
  {
    CompletionPercentage(StatusTally(ps, COMPLETED), |ps|)
  }
}
