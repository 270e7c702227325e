/** `UserMapper`: entity to transfer object, request to a new entity, and the partial update of
    an entity from a request. */
module UserMapper {
  import opened Wrappers
  import opened Types
  import opened Entities
  import opened BackendDto

  /** `toDto`. */
  function ToDto(u: UserRow): (d: UserDto)
    ensures d.id == u.id && d.username == u.username && d.email == u.email
    ensures d.firstName == u.firstName && d.lastName == u.lastName
    ensures d.role == u.role && d.enabled == u.enabled
  {
    UserDto(u.id, u.username, u.email, u.firstName, u.lastName, u.role, u.enabled)
  }

  /** The password never reaches the transfer object. */
  lemma ToDtoIgnoresPassword(u: UserRow, password: Option<string>)
    ensures ToDto(u.(password := password)) == ToDto(u)
  {
  }

  /** The entity `toEntity` builds: no id, no password, enabled. */
  function RequestRow(q: UserRequest): (r: UserRow)
    ensures r.id.None? && r.password.None? && r.enabled
    ensures r.username == q.username && r.email == q.email
    ensures r.firstName == q.firstName && r.lastName == q.lastName && r.role == q.role
  {
    NewUser.(username := q.username, email := q.email, firstName := q.firstName,
             lastName := q.lastName, role := q.role)
  }

  method ToEntity(q: UserRequest) returns (user: UserEntity)
    ensures fresh(user)
    ensures user.Row() == RequestRow(q)
  {
    user := new UserEntity();
    user.username := q.username;
    user.email := q.email;
    user.firstName := q.firstName;
    user.lastName := q.lastName;
    user.role := q.role;
  }

  /** The entity after `updateEntity`: only names, email and role can change. */
  function Updated(r: UserRow, q: UserRequest): (u: UserRow)
    ensures u.id == r.id && u.username == r.username && u.password == r.password && u.enabled == r.enabled
    ensures u.firstName == (if q.firstName.Some? then q.firstName else r.firstName)
    ensures u.lastName == (if q.lastName.Some? then q.lastName else r.lastName)
    ensures u.email == (if q.email.Some? then q.email else r.email)
    ensures u.role == (if q.role.Some? then q.role else r.role)
  {
    r.(firstName := if q.firstName.Some? then q.firstName else r.firstName,
       lastName := if q.lastName.Some? then q.lastName else r.lastName,
       email := if q.email.Some? then q.email else r.email,
       role := if q.role.Some? then q.role else r.role)
  }

  method UpdateEntity(user: UserEntity, q: UserRequest)
    modifies user
    ensures user.Row() == Updated(old(user.Row()), q)
  {
    if q.firstName.Some? {
      user.firstName := q.firstName;
    }
    if q.lastName.Some? {
      user.lastName := q.lastName;
    }
    if q.email.Some? {
      user.email := q.email;
    }
    if q.role.Some? {
      user.role := q.role;
    }
  }

  lemma UpdateIdempotent(r: UserRow, q: UserRequest)
    ensures Updated(Updated(r, q), q) == Updated(r, q)
  {
  }

  /** A request with no name, email or role changes nothing, whatever its username and password. */
  lemma EmptyUpdateIsNoop(r: UserRow, username: Option<string>, password: Option<string>)
    ensures Updated(r, UserRequest(username, password, None, None, None, None)) == r
  {
  }
}
