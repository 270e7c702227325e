/** The counts the dashboard, the reports page and the mock statistics take over a project list:
    how many projects have a status, a priority, or a given assignee. */
module ProjectCounts {
  import opened Wrappers
  import opened Types
  import opened Seqs

  function StatusCount(ps: seq<Project>, st: ProjectStatus): (n: nat)
    ensures n <= |ps|
  {
    Count(ps, (p: Project) => p.status == st)
  }

  function PriorityCount(ps: seq<Project>, pr: PriorityLevel): (n: nat)
    ensures n <= |ps|
  {
    Count(ps, (p: Project) => p.priority == pr)
  }

  /** Every project has exactly one of the three statuses. */
  lemma {:induction false} StatusCountsAddUp(ps: seq<Project>)
    ensures StatusCount(ps, NOT_STARTED) + StatusCount(ps, IN_PROGRESS) + StatusCount(ps, COMPLETED) == |ps|
  {
    if ps != [] {
      StatusCountsAddUp(ps[1..]);
    }
  }

  /** Every project has exactly one of the four priorities. */
  lemma {:induction false} PriorityCountsAddUp(ps: seq<Project>)
    ensures PriorityCount(ps, LOW) + PriorityCount(ps, MEDIUM) + PriorityCount(ps, HIGH) +
            PriorityCount(ps, URGENT) == |ps|
  {
    if ps != [] {
      PriorityCountsAddUp(ps[1..]);
    }
  }

  /** `project.assignedTo?.id`: `None` stands for `undefined`. */
  function AssigneeId(p: Project): (r: Option<string>)
    ensures r.Some? <==> p.assignedTo.Some?
  {
    if p.assignedTo.Some? then Some(p.assignedTo.value.id) else None
  }

  /** `projects.filter(p => p.assignedTo?.id === userId)`, with `userId` being `user?.id`. Both
      sides may be `undefined`, so without a user the unassigned projects are selected. */
  function AssignedTo(ps: seq<Project>, userId: Option<string>): (r: seq<Project>)
    ensures forall p :: p in r <==> p in ps && AssigneeId(p) == userId
  {
    Filter(ps, (p: Project) => AssigneeId(p) == userId)
  }

  /** The selection is the order-preserving sublist of exactly those projects. */
  lemma AssignedToIsSubsequence(ps: seq<Project>, userId: Option<string>)
    ensures IsSubsequence(AssignedTo(ps, userId), ps)
    ensures userId.Some? ==> forall p :: p in AssignedTo(ps, userId) ==> p.assignedTo.Some?
  {
    FilterIsSubsequence(ps, (p: Project) => AssigneeId(p) == userId);
  }

  /** How many projects are assigned to the user with this id. */
  function LoadOf(ps: seq<Project>, id: string): (n: nat)
    ensures n <= |ps|
  {
    |AssignedTo(ps, Some(id))|
  }

  /** The loads of a list of users, added up. */
  function TotalLoad(ps: seq<Project>, ids: seq<string>): nat
  {
    if ids == [] then 0 else LoadOf(ps, ids[0]) + TotalLoad(ps, ids[1..])
  }

  /** How many of `ids` a project is assigned to. */
  function Hits(p: Project, ids: seq<string>): nat
  {
    if ids == [] then 0 else (if AssigneeId(p) == Some(ids[0]) then 1 else 0) + Hits(p, ids[1..])
  }

  lemma {:induction false} HitsNone(p: Project, ids: seq<string>)
    requires forall i :: 0 <= i < |ids| ==> AssigneeId(p) != Some(ids[i])
    ensures Hits(p, ids) == 0
  {
    if ids != [] {
      HitsNone(p, ids[1..]);
    }
  }

  /** A project is assigned to at most one of several distinct users. */
  lemma {:induction false} HitsAtMostOne(p: Project, ids: seq<string>)
    requires Distinct(ids)
    ensures Hits(p, ids) <= 1
  {
    if ids != [] {
      if AssigneeId(p) == Some(ids[0]) {
        assert forall i :: 0 <= i < |ids[1..]| ==> AssigneeId(p) != Some(ids[1..][i]) by {
          forall i | 0 <= i < |ids[1..]| ensures AssigneeId(p) != Some(ids[1..][i]) {
            assert ids[1..][i] == ids[i + 1] != ids[0];
          }
        }
        HitsNone(p, ids[1..]);
      } else {
        HitsAtMostOne(p, ids[1..]);
      }
    }
  }

  lemma {:induction false} TotalLoadOfNothing(ids: seq<string>)
    ensures TotalLoad([], ids) == 0
  {
    if ids != [] {
      TotalLoadOfNothing(ids[1..]);
    }
  }

  lemma {:induction false} TotalLoadStep(ps: seq<Project>, ids: seq<string>)
    requires ps != []
    ensures TotalLoad(ps, ids) == Hits(ps[0], ids) + TotalLoad(ps[1..], ids)
  {
    if ids != [] {
      TotalLoadStep(ps, ids[1..]);
    }
  }

  /** The loads of distinct users never add up to more than the number of projects: no project
      is counted for two people. */
  lemma {:induction false} TotalLoadBounded(ps: seq<Project>, ids: seq<string>)
    requires Distinct(ids)
    ensures TotalLoad(ps, ids) <= |ps|
  {
    if ps == [] {
      TotalLoadOfNothing(ids);
    } else {
      TotalLoadStep(ps, ids);
      HitsAtMostOne(ps[0], ids);
      TotalLoadBounded(ps[1..], ids);
    }
  }

  /** `a < b` on two dates given as timestamps: false when either is invalid (`NaN`). */
  predicate Before(a: Option<int>, b: Option<int>)
  {
    a.Some? && b.Some? && a.value < b.value
  }

  const WeekMillis: int := 7 * 24 * 60 * 60 * 1000

  /** `new Date(p.endDate) > new Date() && new Date(p.endDate) < new Date(now + week)`. */
  predicate EndsWithinWeek(p: Project, now: int, dateOf: string -> Option<int>)
  {
    Before(Some(now), dateOf(p.endDate)) && Before(dateOf(p.endDate), Some(now + WeekMillis))
  }

  /** A named value of a chart series. */
  datatype Bar = Bar(name: string, value: nat)

  function BarTotal(bars: seq<Bar>): nat
  {
    if bars == [] then 0 else bars[0].value + BarTotal(bars[1..])
  }

}
