/** `ProjectServiceImpl`: managers create, update and delete projects; anyone may read or change
    the status of a project assigned to them; employees see their own projects a page at a time.
    Each operation's thrown exception is a `Failure`. A failure leaves the repository as it was:
    writes happen only at the final `save`, and the methods are transactional. */
module ProjectService {
  import opened Wrappers
  import opened Types
  import opened Seqs
  import opened Entities
  import opened BackendDto
  import opened ProjectMapper
  import opened Repositories
  import opened SecurityUtils
  import opened ExceptionHandler

  /** `isUserAssignedToProject`: the project's assignee has the caller's username. */
  predicate IsAssigned(p: ProjectRow, auth: Option<Authentication>)
  {
    p.assignedTo.Some? && p.assignedTo.value.username.Some? && p.assignedTo.value.username == CurrentUsername(auth)
  }

  /** An unassigned project is nobody's, and nobody's when no one is signed in. */
  lemma AssignedNeedsBoth(p: ProjectRow, auth: Option<Authentication>)
    ensures p.assignedTo.None? ==> !IsAssigned(p, auth)
    ensures auth.None? ==> !IsAssigned(p, auth)
  {
  }

  /** The row `createProject` saves under identity `id`. */
  function CreatedRow(q: ProjectRequest, users: map<int, UserRow>, id: int): (r: ProjectRow)
    requires q.assignedToId.Some? ==> q.assignedToId.value in users
    ensures r.id == Some(id) && r.status == Some(NOT_STARTED)
    ensures r.name == q.name && r.description == q.description && r.priority == q.priority
    ensures r.startDate == q.startDate && r.endDate == q.endDate
    ensures q.assignedToId.None? ==> r.assignedTo.None?
    ensures q.assignedToId.Some? ==>
      r.assignedTo == Some(AssigneeOf(users[q.assignedToId.value], q.assignedToId.value))
  {
    var entity := RequestRow(q);
    var withUser := if q.assignedToId.Some?
                    then entity.(assignedTo := Some(AssigneeOf(users[q.assignedToId.value], q.assignedToId.value)))
                    else entity;
    ProjectPrePersisted(withUser).(id := Some(id))
  }

  /** The row `updateProject` saves: the mapper's update, then the looked-up assignee. */
  function UpdatedRow(p: ProjectRow, q: ProjectRequest, users: map<int, UserRow>): (r: ProjectRow)
    requires q.assignedToId.Some? ==> q.assignedToId.value in users
    ensures r.id == p.id && r.status == p.status
    ensures r.name == (if q.name.Some? then q.name else p.name)
    ensures r.description == (if q.description.Some? then q.description else p.description)
    ensures r.startDate == (if q.startDate.Some? then q.startDate else p.startDate)
    ensures r.endDate == (if q.endDate.Some? then q.endDate else p.endDate)
    ensures r.priority == (if q.priority.Some? then q.priority else p.priority)
    ensures q.assignedToId.None? ==> r.assignedTo == p.assignedTo
    ensures q.assignedToId.Some? ==>
      r.assignedTo == Some(AssigneeOf(users[q.assignedToId.value], q.assignedToId.value))
  {
    var updated := Updated(p, q);
    if q.assignedToId.Some?
    then updated.(assignedTo := Some(AssigneeOf(users[q.assignedToId.value], q.assignedToId.value)))
    else updated
  }

  /** Sending the same update twice stores the same row as sending it once. */
  lemma UpdateTwiceIsUpdateOnce(p: ProjectRow, q: ProjectRequest, users: map<int, UserRow>)
    requires q.assignedToId.Some? ==> q.assignedToId.value in users
    ensures UpdatedRow(UpdatedRow(p, q, users), q, users) == UpdatedRow(p, q, users)
  {
  }

  function Dtos(ps: seq<ProjectRow>): (r: seq<ProjectDto>)
    ensures |r| == |ps|
    ensures forall i :: 0 <= i < |ps| ==> r[i] == ToDto(ps[i])
  {
    seq(|ps|, i requires 0 <= i < |ps| => ToDto(ps[i]))
  }

  /** `findByAssignedToId(userId)` as a filter. */
  function AssignedToUser(userId: Option<int>): ProjectRow -> bool
  {
    (p: ProjectRow) => p.assignedTo.Some? && Some(p.assignedTo.value.id) == userId
  }

  function Min(a: int, b: int): int
  {
    if a < b then a else b
  }

  class ProjectService {
    const projects: ProjectRepository
    const users: UserRepository

    ghost predicate Valid()
      reads projects, users
    {
      projects.Valid() && users.Valid()
    }

    constructor (projects: ProjectRepository, users: UserRepository)
      ensures this.projects == projects && this.users == users
    {
      this.projects := projects;
      this.users := users;
    }

    /** `createProject`: the role check comes before anything else. */
    method CreateProject(auth: Option<Authentication>, q: ProjectRequest) returns (r: Result<ProjectDto, ApiException>)
      requires Valid()
      modifies projects
      ensures Valid()
      ensures !IsManager(auth) ==> r == Failure(UnauthorizedAccess("Only managers can create projects"))
      ensures IsManager(auth) && q.assignedToId.Some? && q.assignedToId.value !in users.rows ==>
        r == Failure(ResourceMissing("User", "id", q.assignedToId.value))
      ensures r.Success? <==> IsManager(auth) && (q.assignedToId.None? || q.assignedToId.value in users.rows)
      ensures r.Failure? ==> projects.rows == old(projects.rows) && projects.nextId == old(projects.nextId)
      ensures r.Success? ==>
        (q.assignedToId.None? || q.assignedToId.value in users.rows) &&
        projects.rows == old(projects.rows)[old(projects.nextId) := CreatedRow(q, users.rows, old(projects.nextId))] &&
        r.value == ToDto(CreatedRow(q, users.rows, old(projects.nextId)))
    {
      if !IsManager(auth) {
        return Failure(UnauthorizedAccess("Only managers can create projects"));
      }
      var project := ToEntity(q);
      if q.assignedToId.Some? {
        var userId := q.assignedToId.value;
        if userId !in users.rows {
          return Failure(ResourceMissing("User", "id", userId));
        }
        project.assignedTo := Some(AssigneeOf(users.rows[userId], userId));
      }
      var saved := projects.Save(project);
      r := Success(ToDto(saved));
    }

    /** `updateProject`: role check, then the project, then the new assignee. */
    method UpdateProject(auth: Option<Authentication>, id: int, q: ProjectRequest) returns (r: Result<ProjectDto, ApiException>)
      requires Valid()
      modifies projects
      ensures Valid()
      ensures !IsManager(auth) ==> r == Failure(UnauthorizedAccess("Only managers can update projects"))
      ensures IsManager(auth) && id !in old(projects.rows) ==> r == Failure(ResourceMissing("Project", "id", id))
      ensures IsManager(auth) && id in old(projects.rows) && q.assignedToId.Some? && q.assignedToId.value !in users.rows ==>
        r == Failure(ResourceMissing("User", "id", q.assignedToId.value))
      ensures r.Success? <==>
        IsManager(auth) && id in old(projects.rows) && (q.assignedToId.None? || q.assignedToId.value in users.rows)
      ensures r.Failure? ==> projects.rows == old(projects.rows) && projects.nextId == old(projects.nextId)
      ensures r.Success? ==>
        id in old(projects.rows) && (q.assignedToId.None? || q.assignedToId.value in users.rows) &&
        projects.rows == old(projects.rows)[id := UpdatedRow(old(projects.rows)[id], q, users.rows)] &&
        r.value == ToDto(UpdatedRow(old(projects.rows)[id], q, users.rows))
    {
      if !IsManager(auth) {
        return Failure(UnauthorizedAccess("Only managers can update projects"));
      }
      if id !in projects.rows {
        return Failure(ResourceMissing("Project", "id", id));
      }
      var project := new ProjectEntity.Load(projects.rows[id]);
      UpdateEntity(project, q);
      if q.assignedToId.Some? {
        var userId := q.assignedToId.value;
        if userId !in users.rows {
          return Failure(ResourceMissing("User", "id", userId));
        }
        project.assignedTo := Some(AssigneeOf(users.rows[userId], userId));
      }
      var saved := projects.Save(project);
      r := Success(ToDto(saved));
    }

    /** `deleteProject`: role check, then existence; exactly that id goes. */
    method DeleteProject(auth: Option<Authentication>, id: int) returns (r: Result<(), ApiException>)
      requires Valid()
      modifies projects
      ensures Valid()
      ensures !IsManager(auth) ==> r == Failure(UnauthorizedAccess("Only managers can delete projects"))
      ensures IsManager(auth) && id !in old(projects.rows) ==> r == Failure(ResourceMissing("Project", "id", id))
      ensures r.Success? <==> IsManager(auth) && id in old(projects.rows)
      ensures r.Success? ==> projects.rows == old(projects.rows) - {id}
      ensures r.Failure? ==> projects.rows == old(projects.rows)
      ensures projects.nextId == old(projects.nextId)
    {
      if !IsManager(auth) {
        return Failure(UnauthorizedAccess("Only managers can delete projects"));
      }
      if id !in projects.rows {
        return Failure(ResourceMissing("Project", "id", id));
      }
      projects.rows := projects.rows - {id};
      r := Success(());
    }

    /** `getProjectById`: existence is checked before the caller's right to see it. */
    function GetProjectById(auth: Option<Authentication>, id: int): (r: Result<ProjectDto, ApiException>)
      reads projects
      ensures id !in projects.rows ==> r == Failure(ResourceMissing("Project", "id", id))
      ensures id in projects.rows && !IsManager(auth) && !IsAssigned(projects.rows[id], auth) ==>
        r == Failure(UnauthorizedAccess("You can only view your assigned projects"))
      ensures r.Success? <==> id in projects.rows && (IsManager(auth) || IsAssigned(projects.rows[id], auth))
      ensures r.Success? ==> r.value == ToDto(projects.rows[id])
    {
      if id !in projects.rows then Failure(ResourceMissing("Project", "id", id))
      else if !IsManager(auth) && !IsAssigned(projects.rows[id], auth) then
        Failure(UnauthorizedAccess("You can only view your assigned projects"))
      else Success(ToDto(projects.rows[id]))
    }

    /** `updateProjectStatus`: existence first, then the caller's right; only the status changes. */
    method UpdateProjectStatus(auth: Option<Authentication>, id: int, status: ProjectStatus) returns (r: Result<ProjectDto, ApiException>)
      requires Valid()
      modifies projects
      ensures Valid()
      ensures id !in old(projects.rows) ==> r == Failure(ResourceMissing("Project", "id", id))
      ensures id in old(projects.rows) && !IsManager(auth) && !IsAssigned(old(projects.rows)[id], auth) ==>
        r == Failure(UnauthorizedAccess("You can only update status of your assigned projects"))
      ensures r.Success? <==> id in old(projects.rows) && (IsManager(auth) || IsAssigned(old(projects.rows)[id], auth))
      ensures r.Failure? ==> projects.rows == old(projects.rows)
      ensures r.Success? ==>
        id in old(projects.rows) &&
        projects.rows == old(projects.rows)[id := old(projects.rows)[id].(status := Some(status))] &&
        r.value == ToDto(old(projects.rows)[id].(status := Some(status)))
      ensures projects.nextId == old(projects.nextId)
    {
      if id !in projects.rows {
        return Failure(ResourceMissing("Project", "id", id));
      }
      var project := new ProjectEntity.Load(projects.rows[id]);
      if !IsManager(auth) && !IsAssigned(project.Row(), auth) {
        return Failure(UnauthorizedAccess("You can only update status of your assigned projects"));
      }
      project.status := Some(status);
      var saved := projects.Save(project);
      r := Success(ToDto(saved));
    }

    /** `getUserProjects`: the caller's projects, cut to the requested page by hand. An offset
        past the end makes `subList` throw. */
    function GetUserProjects(auth: Option<Authentication>, pageable: Pageable): (r: Result<Page<ProjectDto>, ApiException>)
      reads projects, users
      requires Valid()
      ensures users.FindByUsername(CurrentUsername(auth)).None? ==> r == Failure(ResourceNotFound("User not found"))
      ensures users.FindByUsername(CurrentUsername(auth)).Some? ==>
        var mine := Filter(projects.FindAll(), AssignedToUser(users.FindByUsername(CurrentUsername(auth)).value.id));
        (r.Success? <==> Offset(pageable) <= |mine|) &&
        (!r.Success? ==> r.error.Unexpected?) &&
        (r.Success? ==>
          r.value.totalElements == |mine| &&
          r.value.content == Dtos(mine)[Offset(pageable)..Min(Offset(pageable) + pageable.size, |mine|)])
    {
      var user := users.FindByUsername(CurrentUsername(auth));
      if user.None? then Failure(ResourceNotFound("User not found"))
      else
        var dtos := Dtos(Filter(projects.FindAll(), AssignedToUser(user.value.id)));
        var start := Offset(pageable);
        var end := Min(start + pageable.size, |dtos|);
        if start > end then Failure(Unexpected("fromIndex > toIndex"))
        else Success(Page(dtos[start..end], |dtos|))
    }

    /** `getAllProjects`: every project for a manager, the caller's own otherwise. */
    function GetAllProjects(auth: Option<Authentication>, pageable: Pageable): (r: Result<Page<ProjectDto>, ApiException>)
      reads projects, users
      requires Valid()
      ensures !IsManager(auth) ==> r == GetUserProjects(auth, pageable)
      ensures IsManager(auth) ==>
        r.Success? && r.value.totalElements == |projects.FindAll()| &&
        r.value.content == Slice(Dtos(projects.FindAll()), Offset(pageable), Offset(pageable) + pageable.size)
    {
      if IsManager(auth) then
        var all := Dtos(projects.FindAll());
        Success(Page(Slice(all, Offset(pageable), Offset(pageable) + pageable.size), |all|))
      else GetUserProjects(auth, pageable)
    }

    /** A page of the caller's projects holds at most `size` projects, each one assigned to the
        caller, as stored. */
    lemma UserPageIsOwn(auth: Option<Authentication>, pageable: Pageable)
      requires Valid()
      requires GetUserProjects(auth, pageable).Success?
      ensures var page := GetUserProjects(auth, pageable).value;
              var user := users.FindByUsername(CurrentUsername(auth)).value;
              |page.content| <= pageable.size &&
              forall d :: d in page.content ==>
                exists k :: k in projects.rows && AssignedToUser(user.id)(projects.rows[k]) && d == ToDto(projects.rows[k])
    {
      var user := users.FindByUsername(CurrentUsername(auth)).value;
      var mine := Filter(projects.FindAll(), AssignedToUser(user.id));
      var dtos := Dtos(mine);
      var start := Offset(pageable);
      var end := Min(start + pageable.size, |mine|);
      var content := GetUserProjects(auth, pageable).value.content;
      assert content == dtos[start..end];
      forall d | d in content
        ensures exists k :: k in projects.rows && AssignedToUser(user.id)(projects.rows[k]) && d == ToDto(projects.rows[k])
      {
        var i :| 0 <= i < |content| && content[i] == d;
        var p := mine[start + i];
        assert p in mine;
        assert p in projects.FindAll();
        var k :| k in projects.rows && projects.rows[k] == p;
      }
    }
  }
}
