/** The client's fixtures and the statistics derived from them (src/services/mockData.ts): six
    users, ten projects made by `createMockProject`, the `mockStatistics` counts and the
    `mockChartData` series. The two random timestamps of each project are the `stamp` parameter;
    `Date.now()` is `now` and `new Date(s).getTime()` is `dateOf`. */
module MockData {
  import opened Wrappers
  import opened Types
  import opened Seqs
  import opened ProjectCounts
  import opened ApiStore

  const AvatarQuery: string :=
    "?ixlib=rb-4.0.3&ixid=MnwxMjA3fDB8MHxwaG90by1wYWdlfHx8fGVufDB8fHx8&auto=format&fit=crop&w=256&q=80"

  function Avatar(photo: string): Option<string>
  {
    Some("https://images.unsplash.com/" + photo + AvatarQuery)
  }

  const MockUsers: seq<User> := [
    User("1", "Alex Johnson", "manager@example.com", MANAGER,
         Avatar("photo-1633332755192-727a05c4013d"), Some("Engineering"), Some("Engineering Manager")),
    User("2", "Sam Davis", "employee@example.com", EMPLOYEE,
         Avatar("photo-1494790108377-be9c29b29330"), Some("Development"), Some("Senior Developer")),
    User("3", "Jamie Wilson", "jamie@example.com", EMPLOYEE,
         Avatar("photo-1607746882042-944635dfe10e"), Some("Design"), Some("Product Designer")),
    User("4", "Taylor Reed", "taylor@example.com", EMPLOYEE,
         Avatar("photo-1472099645785-5658abf4ff4e"), Some("Development"), Some("Frontend Engineer")),
    User("5", "Morgan Smith", "morgan@example.com", MANAGER,
         Avatar("photo-1573497019940-1c28c88b4f3e"), Some("Product"), Some("Product Manager")),
    User("6", "Casey Brown", "casey@example.com", EMPLOYEE,
         Avatar("photo-1580489944761-15a19d654956"), Some("Development"), Some("Backend Developer"))
  ]

  /** `createMockProject`: the eight arguments go into the record as they are; only the two
      timestamps are generated (here: given). */
  function CreateMockProject(id: string, name: string, description: string, startDate: string,
                             endDate: string, assignedTo: Option<User>, priority: PriorityLevel,
                             status: ProjectStatus, stamps: (string, string)): (p: Project)
    ensures p.id == id && p.name == name && p.description == description
    ensures p.startDate == startDate && p.endDate == endDate && p.assignedTo == assignedTo
    ensures p.priority == priority && p.status == status
    ensures p.createdAt == stamps.0 && p.updatedAt == stamps.1
  {
    Project(id, name, description, startDate, endDate, assignedTo, priority, status, stamps.0, stamps.1)
  }

  /** `mockUsers.find(u => u.id === id) || null`. */
  function FixtureUser(id: string): Option<User>
  {
    FindFirst(MockUsers, (u: User) => u.id == id)
  }

  /** The ten fixture projects; `stamp(id)` is the (createdAt, updatedAt) pair drawn for `id`. */
  function MockProjects(stamp: string -> (string, string)): (ps: seq<Project>)
    ensures |ps| == 10
  {
    [Project1(stamp), Project2(stamp), Project3(stamp), Project4(stamp), Project5(stamp),
     Project6(stamp), Project7(stamp), Project8(stamp), Project9(stamp), Project10(stamp)]
  }

  function Project1(stamp: string -> (string, string)): (p: Project)
    ensures p.id == "p1"
  {
    CreateMockProject("p1", "Website Redesign",
      "Complete overhaul of the company website with new branding and improved UX",
      "2025-03-01", "2025-05-15", FixtureUser("3"), HIGH, IN_PROGRESS, stamp("p1"))
  }

  function Project2(stamp: string -> (string, string)): (p: Project)
    ensures p.id == "p2"
  {
    CreateMockProject("p2", "Mobile App Development",
      "Develop a cross-platform mobile app for customer engagement",
      "2025-02-15", "2025-06-30", FixtureUser("2"), MEDIUM, IN_PROGRESS, stamp("p2"))
  }

  function Project3(stamp: string -> (string, string)): (p: Project)
    ensures p.id == "p3"
  {
    CreateMockProject("p3", "Database Migration",
      "Migrate from MySQL to PostgreSQL for improved performance",
      "2025-04-01", "2025-04-30", FixtureUser("6"), URGENT, NOT_STARTED, stamp("p3"))
  }

  function Project4(stamp: string -> (string, string)): (p: Project)
    ensures p.id == "p4"
  {
    CreateMockProject("p4", "Security Audit", "Comprehensive security review of all systems",
      "2025-01-10", "2025-02-28", FixtureUser("4"), HIGH, COMPLETED, stamp("p4"))
  }

  function Project5(stamp: string -> (string, string)): (p: Project)
    ensures p.id == "p5"
  {
    CreateMockProject("p5", "Content Strategy", "Develop content strategy for Q3 marketing campaigns",
      "2025-03-15", "2025-04-15", None, LOW, NOT_STARTED, stamp("p5"))
  }

  function Project6(stamp: string -> (string, string)): (p: Project)
    ensures p.id == "p6"
  {
    CreateMockProject("p6", "API Integration", "Integrate with third-party payment processors",
      "2025-02-01", "2025-03-15", FixtureUser("2"), MEDIUM, COMPLETED, stamp("p6"))
  }

  function Project7(stamp: string -> (string, string)): (p: Project)
    ensures p.id == "p7"
  {
    CreateMockProject("p7", "UI Component Library",
      "Build reusable UI component library using React and Tailwind",
      "2025-04-10", "2025-06-01", FixtureUser("4"), MEDIUM, NOT_STARTED, stamp("p7"))
  }

  function Project8(stamp: string -> (string, string)): (p: Project)
    ensures p.id == "p8"
  {
    CreateMockProject("p8", "Analytics Dashboard", "Create real-time analytics dashboard for management",
      "2025-03-01", "2025-05-01", FixtureUser("3"), HIGH, IN_PROGRESS, stamp("p8"))
  }

  function Project9(stamp: string -> (string, string)): (p: Project)
    ensures p.id == "p9"
  {
    CreateMockProject("p9", "Documentation Update", "Update all API documentation to the new standard",
      "2025-04-01", "2025-04-15", FixtureUser("6"), LOW, NOT_STARTED, stamp("p9"))
  }

  function Project10(stamp: string -> (string, string)): (p: Project)
    ensures p.id == "p10"
  {
    CreateMockProject("p10", "Infrastructure Upgrade",
      "Upgrade server infrastructure to handle increased load",
      "2025-01-15", "2025-03-15", None, URGENT, COMPLETED, stamp("p10"))
  }

  lemma FixtureUserIds()
    ensures UserIds(MockUsers) == ["1", "2", "3", "4", "5", "6"]
  {
  }

  /** User ids "1".."6" are pairwise distinct. */
  lemma FixtureUserIdsDistinct()
    ensures Distinct(UserIds(MockUsers))
  {
    FixtureUserIds();
    assert Distinct(["1", "2", "3", "4", "5", "6"]);
  }

  /** Each element's key is below the next one's. */
  predicate KeysIncrease(s: seq<string>, key: string -> int)
  {
    |s| <= 1 || (key(s[0]) < key(s[1]) && KeysIncrease(s[1..], key))
  }

  /** A list whose keys strictly increase has no repeated element. */
  lemma {:induction false} IncreasingKeysDistinct(s: seq<string>, key: string -> int)
    requires KeysIncrease(s, key)
    ensures forall i, j :: 0 <= i < j < |s| ==> key(s[i]) < key(s[j])
    ensures Distinct(s)
  {
    if |s| > 1 {
      IncreasingKeysDistinct(s[1..], key);
      forall i, j | 0 <= i < j < |s| ensures key(s[i]) < key(s[j]) {
        assert s[1..][j - 1] == s[j];
        if i > 0 {
          assert s[1..][i - 1] == s[i];
        }
      }
    }
  }

  /** Orders "p1" < "p2" < ... < "p9" < "p10": by length, then by the last character. */
  function IdKey(id: string): int
  {
    if id == [] then 0 else |id| * 256 + id[|id| - 1] as int
  }

  /** Ten projects carrying the ids "p1".."p10", in that order, have pairwise distinct ids. */
  lemma TenIdsDistinct(p1: Project, p2: Project, p3: Project, p4: Project, p5: Project,
                       p6: Project, p7: Project, p8: Project, p9: Project, p10: Project)
    requires p1.id == "p1" && p2.id == "p2" && p3.id == "p3" && p4.id == "p4" && p5.id == "p5"
    requires p6.id == "p6" && p7.id == "p7" && p8.id == "p8" && p9.id == "p9" && p10.id == "p10"
    ensures Distinct(ProjectIds([p1, p2, p3, p4, p5, p6, p7, p8, p9, p10]))
  {
    var ids := ProjectIds([p1, p2, p3, p4, p5, p6, p7, p8, p9, p10]);
    assert KeysIncrease(ids[9..], IdKey);
    assert KeysIncrease(ids[8..], IdKey);
    assert KeysIncrease(ids[7..], IdKey);
    assert KeysIncrease(ids[6..], IdKey);
    assert KeysIncrease(ids[5..], IdKey);
    assert KeysIncrease(ids[4..], IdKey);
    assert KeysIncrease(ids[3..], IdKey);
    assert KeysIncrease(ids[2..], IdKey);
    assert KeysIncrease(ids[1..], IdKey);
    assert KeysIncrease(ids[0..], IdKey);
    assert ids[0..] == ids;
    IncreasingKeysDistinct(ids, IdKey);
  }

  /** Project ids "p1".."p10" are pairwise distinct. */
  lemma FixtureProjectIdsDistinct(stamp: string -> (string, string))
    ensures Distinct(ProjectIds(MockProjects(stamp)))
  {
    TenIdsDistinct(Project1(stamp), Project2(stamp), Project3(stamp), Project4(stamp), Project5(stamp),
                   Project6(stamp), Project7(stamp), Project8(stamp), Project9(stamp), Project10(stamp));
  }

  /** Looking a fixture user up by its own id finds that user: each assignee above is the
      fixture user with that id. */
  lemma FixtureUserFound(k: nat)
    requires k < |MockUsers|
    ensures FixtureUser(MockUsers[k].id) == Some(MockUsers[k])
  {
    FixtureUserIdsDistinct();
    var ids := UserIds(MockUsers);
    forall j | 0 <= j < k ensures MockUsers[j].id != MockUsers[k].id {
      assert ids[j] != ids[k];
    }
    FindFirstAt(MockUsers, (u: User) => u.id == MockUsers[k].id, k);
  }

  datatype Statistics = Statistics(
    totalProjects: nat,
    completedProjects: nat,
    inProgressProjects: nat,
    notStartedProjects: nat,
    urgentProjects: nat,
    highPriorityProjects: nat,
    upcomingDeadlines: nat,
    totalEmployees: nat)

  /** `mockStatistics` over a project and a user list. */
  function StatisticsOf(ps: seq<Project>, us: seq<User>, now: int, dateOf: string -> Option<int>): (st: Statistics)
    ensures st.completedProjects + st.inProgressProjects + st.notStartedProjects == st.totalProjects
    ensures st.urgentProjects + st.highPriorityProjects <= st.totalProjects
    ensures st.upcomingDeadlines <= st.totalProjects
    ensures st.totalEmployees == |Employees(us)|
  {
    StatusCountsAddUp(ps);
    PriorityCountsAddUp(ps);
    Statistics(|ps|, StatusCount(ps, COMPLETED), StatusCount(ps, IN_PROGRESS), StatusCount(ps, NOT_STARTED),
               PriorityCount(ps, URGENT), PriorityCount(ps, HIGH),
               Count(ps, (p: Project) => EndsWithinWeek(p, now, dateOf)),
               Count(us, (u: User) => u.role == EMPLOYEE))
  }

  /** `projectStatusCount`: the three status counts as bars. */
  function StatusBars(st: Statistics): (r: seq<Bar>)
    ensures |r| == 3
    ensures BarTotal(r) == st.notStartedProjects + st.inProgressProjects + st.completedProjects
  {
    var r := [Bar("Not Started", st.notStartedProjects), Bar("In Progress", st.inProgressProjects),
              Bar("Completed", st.completedProjects)];
    assert BarTotal(r) == st.notStartedProjects + BarTotal(r[1..]);
    assert BarTotal(r[1..]) == st.inProgressProjects + BarTotal(r[2..]);
    assert BarTotal(r[2..]) == st.completedProjects + BarTotal(r[3..]);
    assert r[3..] == [];
    r
  }

  /** Over any project list, the status bars add up to the number of projects. */
  lemma StatusBarsCoverProjects(ps: seq<Project>, us: seq<User>, now: int, dateOf: string -> Option<int>)
    ensures BarTotal(StatusBars(StatisticsOf(ps, us, now, dateOf))) == |ps|
  {
  }

  /** `projectPriorityCount`: its four bars add up to the number of projects. */
  function PriorityBars(ps: seq<Project>): (r: seq<Bar>)
    ensures |r| == 4 && BarTotal(r) == |ps|
  {
    PriorityCountsAddUp(ps);
    var r := [Bar("Low", PriorityCount(ps, LOW)), Bar("Medium", PriorityCount(ps, MEDIUM)),
              Bar("High", PriorityCount(ps, HIGH)), Bar("Urgent", PriorityCount(ps, URGENT))];
    assert BarTotal(r) == r[0].value + BarTotal(r[1..]);
    assert BarTotal(r[1..]) == r[1].value + BarTotal(r[2..]);
    assert BarTotal(r[2..]) == r[2].value + BarTotal(r[3..]);
    assert BarTotal(r[3..]) == r[3].value + BarTotal(r[4..]);
    assert r[4..] == [];
    r
  }

  /** One bar per user of the list, in order, counting the projects assigned to that user. */
  function LoadBars(es: seq<User>, ps: seq<Project>): (r: seq<Bar>)
    ensures |r| == |es|
    ensures forall i :: 0 <= i < |es| ==> r[i] == Bar(es[i].name, LoadOf(ps, es[i].id))
  {
    if es == [] then [] else [Bar(es[0].name, LoadOf(ps, es[0].id))] + LoadBars(es[1..], ps)
  }

  /** `employeeProjectLoad`: one bar per employee, in order, with that employee's load. */
  function EmployeeProjectLoad(us: seq<User>, ps: seq<Project>): (r: seq<Bar>)
    ensures |r| == |Employees(us)|
    ensures forall i :: 0 <= i < |r| ==> r[i] == Bar(Employees(us)[i].name, LoadOf(ps, Employees(us)[i].id))
  {
    LoadBars(Employees(us), ps)
  }

  lemma {:induction false} LoadBarsTotal(es: seq<User>, ps: seq<Project>)
    ensures BarTotal(LoadBars(es, ps)) == TotalLoad(ps, UserIds(es))
  {
    if es != [] {
      assert UserIds(es)[1..] == UserIds(es[1..]);
      LoadBarsTotal(es[1..], ps);
    }
  }

  /** When employee ids are distinct, the load bars never add up to more than the projects. */
  lemma EmployeeLoadBounded(us: seq<User>, ps: seq<Project>)
    requires Distinct(UserIds(Employees(us)))
    ensures BarTotal(EmployeeProjectLoad(us, ps)) <= |ps|
  {
    LoadBarsTotal(Employees(us), ps);
    TotalLoadBounded(ps, UserIds(Employees(us)));
  }

  /** The hard-coded `monthlyCompletionRate` series. */
  datatype MonthRate = MonthRate(name: string, completed: nat, total: nat)

  const MonthlyCompletionRate: seq<MonthRate> := [
    MonthRate("Jan", 5, 8), MonthRate("Feb", 7, 10), MonthRate("Mar", 4, 6), MonthRate("Apr", 2, 8)
  ]
}
