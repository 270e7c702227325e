/** The in-memory project and user stores behind `projectsApi` and `usersApi`
    (src/services/api.ts). Each store is an object whose list is replaced by `push`, `splice` and
    index assignment; a thrown `Error` is a `Failure` carrying its message. The clock is the `now`
    parameter and `new Date(s).getTime()` is the `dateOf` parameter (`None` for an invalid date). */
module ApiStore {
  import opened Wrappers
  import opened Types
  import opened Text
  import opened Seqs
  import opened Search
  import opened ProjectCounts

  function NotFound(kind: string, id: string): string
  {
    kind + " with id " + id + " not found"
  }

  /** `findIndex(p => p.id === id)`. */
  function ProjectIndex(ps: seq<Project>, id: string): int
  {
    FindIndex(ps, (p: Project) => p.id == id)
  }

  function UserIndex(us: seq<User>, id: string): int
  {
    FindIndex(us, (u: User) => u.id == id)
  }

  /** The ids of a list of records, in order: `map(x => x.id)`. */
  function Ids<T>(xs: seq<T>, idOf: T -> string): (r: seq<string>)
    ensures |r| == |xs| && forall i :: 0 <= i < |xs| ==> r[i] == idOf(xs[i])
  {
    seq(|xs|, i requires 0 <= i < |xs| => idOf(xs[i]))
  }

  function ProjectIds(ps: seq<Project>): seq<string>
  {
    Ids(ps, (p: Project) => p.id)
  }

  function UserIds(us: seq<User>): seq<string>
  {
    Ids(us, (u: User) => u.id)
  }

  // ----- New ids -----

  /** The id `create` writes: the prefix followed by the list's length plus one. */
  function WrittenNewId(prefix: string, length: nat): string
  {
    prefix + NatToString(length + 1)
  }

  /** The number an id carries after `prefix`, read as `parseInt` would, or 0. */
  function IdNumber(prefix: string, id: string): nat
  {
    if StartsWith(id, prefix) then
      match ParseInt(id[|prefix|..])
      case Some(n) => if n >= 0 then n else 0
      case None => 0
    else 0
  }

  /** The largest of a list of numbers, 0 for none. */
  function MaxOf(ns: seq<nat>): (m: nat)
    ensures forall i :: 0 <= i < |ns| ==> ns[i] <= m
  {
    if ns == [] then 0
    else
      var rest := MaxOf(ns[..|ns| - 1]);
      if ns[|ns| - 1] > rest then ns[|ns| - 1] else rest
  }

  /** The largest number in use after `prefix`. */
  function MaxIdNumber(prefix: string, ids: seq<string>): (m: nat)
    ensures forall i :: 0 <= i < |ids| ==> IdNumber(prefix, ids[i]) <= m
  {
    var ns := seq(|ids|, i requires 0 <= i < |ids| => IdNumber(prefix, ids[i]));
    assert forall i :: 0 <= i < |ids| ==> ns[i] == IdNumber(prefix, ids[i]);
    MaxOf(ns)
  }

  /** The corrected id: one past both the length and every number already in use. */
  function NextId(prefix: string, ids: seq<string>): (r: string)
    ensures r !in ids
  {
    var n := if |ids| > MaxIdNumber(prefix, ids) then |ids| else MaxIdNumber(prefix, ids);
    var r := prefix + NatToString(n + 1);
    assert IdNumber(prefix, r) == n + 1 by {
      assert r[|prefix|..] == NatToString(n + 1);
      ParseIntOfNatToString(n + 1);
    }
    r
  }

  /** No number in use after `prefix` exceeds the list's length: the fixtures start so, and
      every `create` keeps it so (`WrittenNewIdKeepsBound`); a `delete` can break it. */
  predicate IdsBounded(prefix: string, ids: seq<string>)
  {
    MaxIdNumber(prefix, ids) <= |ids|
  }

  /** While the ids are bounded, the corrected id is the one `create` writes. */
  lemma NextIdAsWritten(prefix: string, ids: seq<string>)
    requires IdsBounded(prefix, ids)
    ensures NextId(prefix, ids) == WrittenNewId(prefix, |ids|)
  {
    var m := MaxIdNumber(prefix, ids);
    assert m <= |ids|;
    assert NextId(prefix, ids) == prefix + NatToString(|ids| + 1);
  }

  /** The written id carries the number it was made from. */
  lemma IdNumberOfWrittenNewId(prefix: string, length: nat)
    ensures IdNumber(prefix, WrittenNewId(prefix, length)) == length + 1
  {
    var r := WrittenNewId(prefix, length);
    assert r[|prefix|..] == NatToString(length + 1);
    ParseIntOfNatToString(length + 1);
  }

  /** While the ids are bounded, the id `create` writes is fresh, and appending it keeps the ids
      bounded. */
  lemma {:induction false} WrittenNewIdKeepsBound(prefix: string, ids: seq<string>)
    requires IdsBounded(prefix, ids)
    ensures WrittenNewId(prefix, |ids|) !in ids
    ensures IdsBounded(prefix, ids + [WrittenNewId(prefix, |ids|)])
  {
    NextIdAsWritten(prefix, ids);
    var id := WrittenNewId(prefix, |ids|);
    var next := ids + [id];
    var ns := seq(|ids|, i requires 0 <= i < |ids| => IdNumber(prefix, ids[i]));
    var ns' := seq(|next|, i requires 0 <= i < |next| => IdNumber(prefix, next[i]));
    assert ns'[..|ns'| - 1] == ns;
    IdNumberOfWrittenNewId(prefix, |ids|);
    assert ns'[|ns'| - 1] == |ids| + 1;
  }

  /** As written, `create` after a `delete` can reuse a live id: with "p1" and "p2" stored and
      "p1" deleted, the next project is given "p2" again. */
  lemma WrittenNewIdCollides()
    ensures var before := ["p1", "p2"];
            var after := before[..0] + before[1..];
            WrittenNewId("p", |after|) in after
  {
    var after := ["p2"];
    assert NatToString(2) == "2";
    assert WrittenNewId("p", 1) == "p2";
  }

  /** Appending a record under a fresh id keeps ids distinct. */
  lemma DistinctAppend(ids: seq<string>, id: string)
    requires Distinct(ids) && id !in ids
    ensures Distinct(ids + [id])
  {
  }

  // ----- Projects -----

  /** The fields `create` takes: a project without id and timestamps. */
  datatype ProjectDraft = ProjectDraft(
    name: string,
    description: string,
    startDate: string,
    endDate: string,
    assignedTo: Option<User>,
    priority: PriorityLevel,
    status: ProjectStatus)

  /** A `Partial<Project>`: `None` is an absent key; `assignedTo` may be given as `undefined`. */
  datatype ProjectPatch = ProjectPatch(
    id: Option<string>,
    name: Option<string>,
    description: Option<string>,
    startDate: Option<string>,
    endDate: Option<string>,
    assignedTo: Option<Option<User>>,
    priority: Option<PriorityLevel>,
    status: Option<ProjectStatus>,
    createdAt: Option<string>,
    updatedAt: Option<string>)

  const EmptyProjectPatch := ProjectPatch(None, None, None, None, None, None, None, None, None, None)

  function StatusPatch(status: ProjectStatus): ProjectPatch
  {
    EmptyProjectPatch.(status := Some(status))
  }

  function NewProject(draft: ProjectDraft, id: string, now: string): (p: Project)
    ensures p.id == id && p.createdAt == now && p.updatedAt == now
  {
    Project(id, draft.name, draft.description, draft.startDate, draft.endDate, draft.assignedTo,
            draft.priority, draft.status, now, now)
  }

  /** `{ ...project, ...patch, updatedAt: now }`. */
  function MergeProject(p: Project, patch: ProjectPatch, now: string): (r: Project)
    ensures r.updatedAt == now
    ensures patch.id.None? ==> r.id == p.id
  {
    Project(patch.id.GetOr(p.id), patch.name.GetOr(p.name), patch.description.GetOr(p.description),
            patch.startDate.GetOr(p.startDate), patch.endDate.GetOr(p.endDate),
            patch.assignedTo.GetOr(p.assignedTo), patch.priority.GetOr(p.priority),
            patch.status.GetOr(p.status), patch.createdAt.GetOr(p.createdAt), now)
  }

  /** An empty patch only refreshes the timestamp. */
  lemma MergeEmptyPatch(p: Project, now: string)
    ensures MergeProject(p, EmptyProjectPatch, now) == p.(updatedAt := now)
  {
  }

  /** `updateStatus` changes the status and the timestamp and nothing else. */
  lemma MergeStatusPatch(p: Project, status: ProjectStatus, now: string)
    ensures MergeProject(p, StatusPatch(status), now) == p.(status := status, updatedAt := now)
  {
  }

  /** Applying the same patch twice is applying it once. */
  lemma MergeIdempotent(p: Project, patch: ProjectPatch, now: string)
    ensures MergeProject(MergeProject(p, patch, now), patch, now) == MergeProject(p, patch, now)
  {
  }

  datatype DateRange = DateRange(start: Option<string>, end: Option<string>)

  datatype ProjectFilters = ProjectFilters(
    status: Option<seq<ProjectStatus>>,
    priority: Option<seq<PriorityLevel>>,
    assignedTo: Option<string>,
    dateRange: Option<DateRange>)

  predicate StatusAllowed(p: Project, f: ProjectFilters)
  {
    f.status.None? || |f.status.value| == 0 || p.status in f.status.value
  }

  predicate PriorityAllowed(p: Project, f: ProjectFilters)
  {
    f.priority.None? || |f.priority.value| == 0 || p.priority in f.priority.value
  }

  /** An unassigned project has `assignedTo?.id === undefined`, which differs from any given id. */
  predicate AssigneeAllowed(p: Project, f: ProjectFilters)
  {
    f.assignedTo.None? || f.assignedTo.value == "" ||
    (p.assignedTo.Some? && p.assignedTo.value.id == f.assignedTo.value)
  }

  /** A project is dropped when it ends before the range starts or starts after the range ends. */
  predicate DatesAllowed(p: Project, f: ProjectFilters, dateOf: string -> Option<int>)
  {
    f.dateRange.None? ||
    var range := f.dateRange.value;
    (range.start.None? || range.start.value == "" || !Before(dateOf(p.endDate), dateOf(range.start.value))) &&
    (range.end.None? || range.end.value == "" || !Before(dateOf(range.end.value), dateOf(p.startDate)))
  }

  predicate MatchesFilters(p: Project, f: ProjectFilters, dateOf: string -> Option<int>)
  {
    StatusAllowed(p, f) && PriorityAllowed(p, f) && AssigneeAllowed(p, f) && DatesAllowed(p, f, dateOf)
  }

  function FilterProjects(ps: seq<Project>, f: ProjectFilters, dateOf: string -> Option<int>): (r: seq<Project>)
    ensures forall p :: p in r <==> p in ps && MatchesFilters(p, f, dateOf)
  {
    Filter(ps, (p: Project) => MatchesFilters(p, f, dateOf))
  }

  /** No filter given, or only empty lists and "": every project is kept, in order. */
  lemma EmptyFiltersKeepAll(ps: seq<Project>, dateOf: string -> Option<int>)
    ensures FilterProjects(ps, ProjectFilters(Some([]), Some([]), Some(""), None), dateOf) == ps
    ensures FilterProjects(ps, ProjectFilters(None, None, None, None), dateOf) == ps
  {
    FilterAll(ps, (p: Project) => MatchesFilters(p, ProjectFilters(Some([]), Some([]), Some(""), None), dateOf));
    FilterAll(ps, (p: Project) => MatchesFilters(p, ProjectFilters(None, None, None, None), dateOf));
  }

  /** Filtering by an assignee never returns an unassigned project, nor one assigned to another. */
  lemma AssigneeFilterIsExact(ps: seq<Project>, f: ProjectFilters, dateOf: string -> Option<int>, p: Project)
    requires f.assignedTo.Some? && f.assignedTo.value != ""
    requires p in FilterProjects(ps, f, dateOf)
    ensures p.assignedTo.Some? && p.assignedTo.value.id == f.assignedTo.value
  {
  }

  class ProjectStore {
    var projects: seq<Project>

    constructor(initial: seq<Project>)
      ensures projects == initial
    {
      projects := initial;
    }

    /** `getAll`: a copy of the list. */
    method GetAll() returns (r: seq<Project>)
      ensures r == projects
    {
      r := projects;
    }

    /** `getById`: the first project with that id, or the "not found" error. */
    method GetById(id: string) returns (r: Result<Project, string>)
      ensures r.Failure? <==> forall k :: 0 <= k < |projects| ==> projects[k].id != id
      ensures r.Failure? ==> r.error == NotFound("Project", id)
      ensures r.Success? ==> r.value.id == id && r.value == projects[ProjectIndex(projects, id)]
    {
      var i := ProjectIndex(projects, id);
      if i == -1 {
        r := Failure(NotFound("Project", id));
      } else {
        r := Success(projects[i]);
      }
    }

    /** `create`: appends the draft under "p" followed by the list's length plus one; earlier
        projects are untouched. While the ids are bounded the new id is fresh and the ids stay
        distinct and bounded; after a `delete` they need not be (`WrittenNewIdCollides`). */
    method Create(draft: ProjectDraft, now: string) returns (p: Project)
      modifies this
      ensures p == NewProject(draft, WrittenNewId("p", |old(projects)|), now)
      ensures projects == old(projects) + [p]
      ensures IdsBounded("p", ProjectIds(old(projects))) ==>
        p.id !in ProjectIds(old(projects)) && IdsBounded("p", ProjectIds(projects)) &&
        (Distinct(ProjectIds(old(projects))) ==> Distinct(ProjectIds(projects)))
    {
      ghost var ids := ProjectIds(projects);
      p := NewProject(draft, WrittenNewId("p", |projects|), now);
      projects := projects + [p];
      assert ProjectIds(projects) == ids + [p.id];
      if IdsBounded("p", ids) {
        WrittenNewIdKeepsBound("p", ids);
        if Distinct(ids) {
          DistinctAppend(ids, p.id);
        }
      }
    }

    /** The corrected `create`: appends the draft under an id not already stored, whatever was
        deleted before. */
    method CreateFresh(draft: ProjectDraft, now: string) returns (p: Project)
      modifies this
      ensures p == NewProject(draft, NextId("p", ProjectIds(old(projects))), now)
      ensures projects == old(projects) + [p]
      ensures p.id !in ProjectIds(old(projects))
      ensures Distinct(ProjectIds(old(projects))) ==> Distinct(ProjectIds(projects))
    {
      ghost var ids := ProjectIds(projects);
      p := NewProject(draft, NextId("p", ProjectIds(projects)), now);
      projects := projects + [p];
      assert ProjectIds(projects) == ids + [p.id];
      if Distinct(ids) {
        DistinctAppend(ids, p.id);
      }
    }

    /** `update`: replaces the first project with that id by the merge; a missing id changes
        nothing. */
    method Update(id: string, patch: ProjectPatch, now: string) returns (r: Result<Project, string>)
      modifies this
      ensures ProjectIndex(old(projects), id) == -1 ==>
        r == Failure(NotFound("Project", id)) && projects == old(projects)
      ensures ProjectIndex(old(projects), id) >= 0 ==>
        var i := ProjectIndex(old(projects), id);
        r == Success(MergeProject(old(projects)[i], patch, now)) &&
        projects == old(projects)[i := r.value]
    {
      var i := ProjectIndex(projects, id);
      if i == -1 {
        r := Failure(NotFound("Project", id));
      } else {
        var updated := MergeProject(projects[i], patch, now);
        projects := projects[i := updated];
        r := Success(updated);
      }
    }

    /** `updateStatus`: the update of the status alone. */
    method UpdateStatus(id: string, status: ProjectStatus, now: string) returns (r: Result<Project, string>)
      modifies this
      ensures ProjectIndex(old(projects), id) == -1 ==>
        r == Failure(NotFound("Project", id)) && projects == old(projects)
      ensures ProjectIndex(old(projects), id) >= 0 ==>
        var i := ProjectIndex(old(projects), id);
        r == Success(old(projects)[i].(status := status, updatedAt := now)) &&
        projects == old(projects)[i := r.value]
    {
      ghost var i := ProjectIndex(projects, id);
      if i >= 0 {
        MergeStatusPatch(projects[i], status, now);
      }
      r := Update(id, StatusPatch(status), now);
    }

    /** `delete`: removes the first project with that id, keeping the others in order. */
    method Delete(id: string) returns (r: Result<bool, string>)
      modifies this
      ensures ProjectIndex(old(projects), id) == -1 ==>
        r == Failure(NotFound("Project", id)) && projects == old(projects)
      ensures ProjectIndex(old(projects), id) >= 0 ==>
        var i := ProjectIndex(old(projects), id);
        r == Success(true) && projects == old(projects)[..i] + old(projects)[i + 1..]
    {
      var i := ProjectIndex(projects, id);
      if i == -1 {
        r := Failure(NotFound("Project", id));
      } else {
        projects := projects[..i] + projects[i + 1..];
        r := Success(true);
      }
    }

    /** `search`. */
    method SearchAll(query: string) returns (r: seq<Project>)
      ensures r == SearchProjects(projects, query)
    {
      r := SearchProjects(projects, query);
    }

    /** `filter`. */
    method FilterAll(f: ProjectFilters, dateOf: string -> Option<int>) returns (r: seq<Project>)
      ensures r == FilterProjects(projects, f, dateOf)
    {
      r := FilterProjects(projects, f, dateOf);
    }
  }

  /** Removing the first record with an id from a list of distinct ids leaves none with it. */
  lemma DeleteRemovesId(ps: seq<Project>, id: string)
    requires Distinct(ProjectIds(ps)) && ProjectIndex(ps, id) >= 0
    ensures var i := ProjectIndex(ps, id);
            var rest := ps[..i] + ps[i + 1..];
            |rest| == |ps| - 1 && ProjectIndex(rest, id) == -1 && Distinct(ProjectIds(rest))
  {
    var i := ProjectIndex(ps, id);
    var rest := ps[..i] + ps[i + 1..];
    forall k | 0 <= k < |rest| ensures rest[k].id != id {
      if k < i {
        assert rest[k] == ps[k];
      } else {
        assert rest[k] == ps[k + 1];
        assert ProjectIds(ps)[i] != ProjectIds(ps)[k + 1];
      }
    }
    forall a, b | 0 <= a < b < |rest| ensures ProjectIds(rest)[a] != ProjectIds(rest)[b] {
      var a' := if a < i then a else a + 1;
      var b' := if b < i then b else b + 1;
      assert rest[a] == ps[a'] && rest[b] == ps[b'];
      assert ProjectIds(ps)[a'] != ProjectIds(ps)[b'];
    }
  }

  // ----- Users -----

  /** The fields `create` takes: a user without id. */
  datatype UserDraft = UserDraft(
    name: string,
    email: string,
    role: UserRole,
    avatar: Option<string>,
    department: Option<string>,
    title: Option<string>)

  /** A `Partial<User>`: `None` is an absent key; optional fields may be given as `undefined`. */
  datatype UserPatch = UserPatch(
    id: Option<string>,
    name: Option<string>,
    email: Option<string>,
    role: Option<UserRole>,
    avatar: Option<Option<string>>,
    department: Option<Option<string>>,
    title: Option<Option<string>>)

  function NewUser(draft: UserDraft, id: string): (u: User)
    ensures u.id == id
  {
    User(id, draft.name, draft.email, draft.role, draft.avatar, draft.department, draft.title)
  }

  /** `{ ...user, ...patch }`. */
  function MergeUser(u: User, patch: UserPatch): (r: User)
    ensures patch.id.None? ==> r.id == u.id
  {
    User(patch.id.GetOr(u.id), patch.name.GetOr(u.name), patch.email.GetOr(u.email),
         patch.role.GetOr(u.role), patch.avatar.GetOr(u.avatar),
         patch.department.GetOr(u.department), patch.title.GetOr(u.title))
  }

  /** A patch with no keys leaves the user as it was; any patch applied twice is applied once. */
  lemma MergeUserLaws(u: User, patch: UserPatch)
    ensures MergeUser(u, UserPatch(None, None, None, None, None, None, None)) == u
    ensures MergeUser(MergeUser(u, patch), patch) == MergeUser(u, patch)
  {
  }

  function Employees(us: seq<User>): (r: seq<User>)
    ensures forall u :: u in r <==> u in us && u.role == EMPLOYEE
  {
    Filter(us, (u: User) => u.role == EMPLOYEE)
  }

  function Managers(us: seq<User>): (r: seq<User>)
    ensures forall u :: u in r <==> u in us && u.role == MANAGER
  {
    Filter(us, (u: User) => u.role == MANAGER)
  }

  /** Employees and managers split the users: every user is in exactly one, and the sizes add up. */
  lemma RolesPartitionUsers(us: seq<User>)
    ensures |Employees(us)| + |Managers(us)| == |us|
    ensures IsSubsequence(Employees(us), us) && IsSubsequence(Managers(us), us)
  {
    var isEmployee := (u: User) => u.role == EMPLOYEE;
    CountComplement(us, isEmployee, (u: User) => u.role == MANAGER);
    FilterIsSubsequence(us, isEmployee);
    FilterIsSubsequence(us, (u: User) => u.role == MANAGER);
  }

  class UserStore {
    var users: seq<User>

    constructor(initial: seq<User>)
      ensures users == initial
    {
      users := initial;
    }

    method GetAll() returns (r: seq<User>)
      ensures r == users
    {
      r := users;
    }

    method GetById(id: string) returns (r: Result<User, string>)
      ensures r.Failure? <==> forall k :: 0 <= k < |users| ==> users[k].id != id
      ensures r.Failure? ==> r.error == NotFound("User", id)
      ensures r.Success? ==> r.value.id == id && r.value == users[UserIndex(users, id)]
    {
      var i := UserIndex(users, id);
      if i == -1 {
        r := Failure(NotFound("User", id));
      } else {
        r := Success(users[i]);
      }
    }

    /** `create`: appends the draft under "u" followed by the list's length plus one, with the
        same freshness caveat as the project store. */
    method Create(draft: UserDraft) returns (u: User)
      modifies this
      ensures u == NewUser(draft, WrittenNewId("u", |old(users)|))
      ensures users == old(users) + [u]
      ensures IdsBounded("u", UserIds(old(users))) ==>
        u.id !in UserIds(old(users)) && IdsBounded("u", UserIds(users)) &&
        (Distinct(UserIds(old(users))) ==> Distinct(UserIds(users)))
    {
      ghost var ids := UserIds(users);
      u := NewUser(draft, WrittenNewId("u", |users|));
      users := users + [u];
      assert UserIds(users) == ids + [u.id];
      if IdsBounded("u", ids) {
        WrittenNewIdKeepsBound("u", ids);
        if Distinct(ids) {
          DistinctAppend(ids, u.id);
        }
      }
    }

    /** The corrected `create`: appends the draft under an id not already stored. */
    method CreateFresh(draft: UserDraft) returns (u: User)
      modifies this
      ensures u == NewUser(draft, NextId("u", UserIds(old(users))))
      ensures users == old(users) + [u]
      ensures u.id !in UserIds(old(users))
      ensures Distinct(UserIds(old(users))) ==> Distinct(UserIds(users))
    {
      ghost var ids := UserIds(users);
      u := NewUser(draft, NextId("u", UserIds(users)));
      users := users + [u];
      assert UserIds(users) == ids + [u.id];
      if Distinct(ids) {
        DistinctAppend(ids, u.id);
      }
    }

    method Update(id: string, patch: UserPatch) returns (r: Result<User, string>)
      modifies this
      ensures UserIndex(old(users), id) == -1 ==>
        r == Failure(NotFound("User", id)) && users == old(users)
      ensures UserIndex(old(users), id) >= 0 ==>
        var i := UserIndex(old(users), id);
        r == Success(MergeUser(old(users)[i], patch)) && users == old(users)[i := r.value]
    {
      var i := UserIndex(users, id);
      if i == -1 {
        r := Failure(NotFound("User", id));
      } else {
        var updated := MergeUser(users[i], patch);
        users := users[i := updated];
        r := Success(updated);
      }
    }

    method Delete(id: string) returns (r: Result<bool, string>)
      modifies this
      ensures UserIndex(old(users), id) == -1 ==>
        r == Failure(NotFound("User", id)) && users == old(users)
      ensures UserIndex(old(users), id) >= 0 ==>
        var i := UserIndex(old(users), id);
        r == Success(true) && users == old(users)[..i] + old(users)[i + 1..]
    {
      var i := UserIndex(users, id);
      if i == -1 {
        r := Failure(NotFound("User", id));
      } else {
        users := users[..i] + users[i + 1..];
        r := Success(true);
      }
    }

    method SearchAll(query: string) returns (r: seq<User>)
      ensures r == SearchUsers(users, query)
    {
      r := SearchUsers(users, query);
    }

    method GetEmployees() returns (r: seq<User>)
      ensures r == Employees(users)
    {
      r := Employees(users);
    }

    method GetManagers() returns (r: seq<User>)
      ensures r == Managers(users)
    {
      r := Managers(users);
    }
  }
}
