/** The backend's JPA entities `Project` and `User` (model/entity): their fields, the values a
    `new` object starts with, and the `@PrePersist` hooks that fill in a missing status or role.
    Every reference field that Java allows to be `null` is an `Option`; calendar dates are day
    numbers. `Row()` is the entity's state as a value, which the repositories store. */
module Entities {
  import opened Wrappers
  import opened Types

  /** The user a project points to, as the project side reads it: a stub built from an id alone
      carries no username and no names. */
  datatype Assignee = Assignee(id: int, username: Option<string>, firstName: Option<string>, lastName: Option<string>)

  datatype ProjectRow = ProjectRow(
    id: Option<int>,
    name: Option<string>,
    description: Option<string>,
    startDate: Option<int>,
    endDate: Option<int>,
    assignedTo: Option<Assignee>,
    priority: Option<PriorityLevel>,
    status: Option<ProjectStatus>)

  /** `new Project()`: the status field is initialised to NOT_STARTED, all else is `null`. */
  const NewProject := ProjectRow(None, None, None, None, None, None, None, Some(NOT_STARTED))

  /** The state after `prePersist`: a missing status becomes NOT_STARTED. */
  function ProjectPrePersisted(r: ProjectRow): (p: ProjectRow)
    ensures p.status == (if r.status.None? then Some(NOT_STARTED) else r.status)
    ensures p.(status := r.status) == r
  {
    if r.status.None? then r.(status := Some(NOT_STARTED)) else r
  }

  lemma ProjectPrePersistIdempotent(r: ProjectRow)
    ensures ProjectPrePersisted(ProjectPrePersisted(r)) == ProjectPrePersisted(r)
  {
  }

  class ProjectEntity {
    var id: Option<int>
    var name: Option<string>
    var description: Option<string>
    var startDate: Option<int>
    var endDate: Option<int>
    var assignedTo: Option<Assignee>
    var priority: Option<PriorityLevel>
    var status: Option<ProjectStatus>

    function Row(): ProjectRow
      reads this
    {
      ProjectRow(id, name, description, startDate, endDate, assignedTo, priority, status)
    }

    constructor ()
      ensures Row() == NewProject
    {
      id, name, description, startDate, endDate := None, None, None, None, None;
      assignedTo, priority, status := None, None, Some(NOT_STARTED);
    }

    /** An entity loaded from the repository. */
    constructor Load(r: ProjectRow)
      ensures Row() == r
    {
      id, name, description, startDate, endDate := r.id, r.name, r.description, r.startDate, r.endDate;
      assignedTo, priority, status := r.assignedTo, r.priority, r.status;
    }

    method PrePersist()
      modifies this
      ensures Row() == ProjectPrePersisted(old(Row()))
    {
      if status.None? {
        status := Some(NOT_STARTED);
      }
    }
  }

  datatype UserRow = UserRow(
    id: Option<int>,
    username: Option<string>,
    password: Option<string>,
    email: Option<string>,
    firstName: Option<string>,
    lastName: Option<string>,
    role: Option<UserRole>,
    enabled: bool)

  /** `new User()`: enabled, all else `null`. */
  const NewUser := UserRow(None, None, None, None, None, None, None, true)

  /** The state after `prePersist`: a missing role becomes EMPLOYEE. */
  function UserPrePersisted(r: UserRow): (u: UserRow)
    ensures u.role == (if r.role.None? then Some(EMPLOYEE) else r.role)
    ensures u.(role := r.role) == r
  {
    if r.role.None? then r.(role := Some(EMPLOYEE)) else r
  }

  lemma UserPrePersistIdempotent(r: UserRow)
    ensures UserPrePersisted(UserPrePersisted(r)) == UserPrePersisted(r)
  {
  }

  /** How a project sees a stored user it is assigned to. */
  function AssigneeOf(u: UserRow, id: int): (a: Assignee)
    ensures a.id == id && a.username == u.username && a.firstName == u.firstName && a.lastName == u.lastName
  {
    Assignee(id, u.username, u.firstName, u.lastName)
  }

  class UserEntity {
    var id: Option<int>
    var username: Option<string>
    var password: Option<string>
    var email: Option<string>
    var firstName: Option<string>
    var lastName: Option<string>
    var role: Option<UserRole>
    var enabled: bool

    function Row(): UserRow
      reads this
    {
      UserRow(id, username, password, email, firstName, lastName, role, enabled)
    }

    constructor ()
      ensures Row() == NewUser
    {
      id, username, password, email := None, None, None, None;
      firstName, lastName, role, enabled := None, None, None, true;
    }

    constructor Load(r: UserRow)
      ensures Row() == r
    {
      id, username, password, email := r.id, r.username, r.password, r.email;
      firstName, lastName, role, enabled := r.firstName, r.lastName, r.role, r.enabled;
    }

    method PrePersist()
      modifies this
      ensures Row() == UserPrePersisted(old(Row()))
    {
      if role.None? {
        role := Some(EMPLOYEE);
      }
    }
  }
}
