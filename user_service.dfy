/** `UserServiceImpl`: creating users with unique usernames and emails, updating a profile
    (managers any, everyone else their own), deleting, and the read operations. Failures are
    `Failure` values and leave the repository as it was. The password encoder is the parameter
    `encode`; it receives the request's password as Java passes it, possibly `null`. */
module UserService {
  import opened Wrappers
  import opened Types
  import opened Seqs
  import opened Entities
  import opened BackendDto
  import opened UserMapper
  import opened Repositories
  import opened SecurityUtils
  import opened ExceptionHandler

  /** No two stored users share a username or an email. */
  predicate Unique(rows: map<int, UserRow>)
  {
    forall j, k :: j in rows && k in rows && j != k ==>
      rows[j].username != rows[k].username && rows[j].email != rows[k].email
  }

  /** The row `createUser` saves under identity `id`: the password is the encoder's output. */
  function CreatedUser(q: UserRequest, encode: Option<string> -> string, id: int): (u: UserRow)
    ensures u.id == Some(id) && u.password == Some(encode(q.password)) && u.enabled
    ensures u.username == q.username && u.email == q.email
    ensures u.firstName == q.firstName && u.lastName == q.lastName
    ensures u.role == (if q.role.None? then Some(EMPLOYEE) else q.role)
  {
    UserPrePersisted(RequestRow(q).(password := Some(encode(q.password)))).(id := Some(id))
  }

  /** The row `updateUser` saves: the mapper's update, and a new encoded password only when the
      request has one. */
  function UpdatedUser(u: UserRow, q: UserRequest, encode: Option<string> -> string): (r: UserRow)
    ensures r.id == u.id && r.username == u.username && r.enabled == u.enabled
    ensures q.password.Some? ==> r.password == Some(encode(q.password))
    ensures q.password.None? ==> r.password == u.password
    ensures r.(password := u.password) == Updated(u, q)
  {
    var updated := Updated(u, q);
    if q.password.Some? then updated.(password := Some(encode(q.password))) else updated
  }

  /** The record belongs to the caller. */
  predicate OwnRecord(u: UserRow, auth: Option<Authentication>)
  {
    u.username.Some? && u.username == CurrentUsername(auth)
  }

  /** A new user whose username and email are both unused keeps the repository unique. */
  lemma CreatePreservesUnique(rows: map<int, UserRow>, id: int, u: UserRow)
    requires Unique(rows) && id !in rows
    requires forall k :: k in rows ==> rows[k].username != u.username && rows[k].email != u.email
    ensures Unique(rows[id := u])
  {
  }

  /** An update that passed the email check keeps the repository unique: the username never
      changes, and the email changes only to one nobody has. */
  lemma UpdatePreservesUnique(rows: map<int, UserRow>, id: int, q: UserRequest, encode: Option<string> -> string)
    requires Unique(rows) && id in rows
    requires rows[id].email != q.email ==> forall k :: k in rows ==> rows[k].email != q.email
    ensures Unique(rows[id := UpdatedUser(rows[id], q, encode)])
  {
    var u := UpdatedUser(rows[id], q, encode);
    var rows' := rows[id := u];
    forall j, k | j in rows' && k in rows' && j != k
      ensures rows'[j].username != rows'[k].username && rows'[j].email != rows'[k].email
    {
      if j == id || k == id {
        var other := if j == id then k else j;
        assert rows'[other] == rows[other];
        assert u.email == rows[id].email || u.email == q.email;
      }
    }
  }

  function UserDtos(us: seq<UserRow>): (r: seq<UserDto>)
    ensures |r| == |us|
    ensures forall i :: 0 <= i < |us| ==> r[i] == ToDto(us[i])
  {
    seq(|us|, i requires 0 <= i < |us| => ToDto(us[i]))
  }

  class UserService {
    const users: UserRepository

    constructor (users: UserRepository)
      ensures this.users == users
    {
      this.users := users;
    }

    /** `createUser`: the username is checked before the email. */
    method CreateUser(q: UserRequest, encode: Option<string> -> string) returns (r: Result<UserDto, ApiException>)
      requires users.Valid()
      modifies users
      ensures users.Valid()
      ensures old(users.ExistsByUsername(q.username)) ==> r == Failure(Conflict("Username already exists"))
      ensures !old(users.ExistsByUsername(q.username)) && old(users.ExistsByEmail(q.email)) ==>
        r == Failure(Conflict("Email already exists"))
      ensures r.Success? <==> !old(users.ExistsByUsername(q.username)) && !old(users.ExistsByEmail(q.email))
      ensures r.Failure? ==> users.rows == old(users.rows) && users.nextId == old(users.nextId)
      ensures r.Success? ==>
        users.rows == old(users.rows)[old(users.nextId) := CreatedUser(q, encode, old(users.nextId))] &&
        r.value == ToDto(CreatedUser(q, encode, old(users.nextId)))
      ensures Unique(old(users.rows)) ==> Unique(users.rows)
    {
      if users.ExistsByUsername(q.username) {
        return Failure(Conflict("Username already exists"));
      }
      if users.ExistsByEmail(q.email) {
        return Failure(Conflict("Email already exists"));
      }
      var user := ToEntity(q);
      user.password := Some(encode(q.password));
      ghost var before := users.rows;
      var saved := users.Save(user);
      if Unique(before) {
        CreatePreservesUnique(before, old(users.nextId), saved);
      }
      r := Success(ToDto(saved));
    }

    /** `updateUser`: existence, then the caller's right, then the email. */
    method UpdateUser(auth: Option<Authentication>, id: int, q: UserRequest, encode: Option<string> -> string)
      returns (r: Result<UserDto, ApiException>)
      requires users.Valid()
      modifies users
      ensures users.Valid()
      ensures id !in old(users.rows) ==> r == Failure(ResourceMissing("User", "id", id))
      ensures id in old(users.rows) && !IsManager(auth) && !OwnRecord(old(users.rows)[id], auth) ==>
        r == Failure(UnauthorizedAccess("You can only update your own profile"))
      ensures id in old(users.rows) && (IsManager(auth) || OwnRecord(old(users.rows)[id], auth)) &&
              old(users.rows)[id].email != q.email && old(users.ExistsByEmail(q.email)) ==>
        r == Failure(Conflict("Email already exists"))
      ensures r.Success? <==>
        id in old(users.rows) && (IsManager(auth) || OwnRecord(old(users.rows)[id], auth)) &&
        (old(users.rows)[id].email == q.email || !old(users.ExistsByEmail(q.email)))
      ensures r.Failure? ==> users.rows == old(users.rows)
      ensures r.Success? ==>
        id in old(users.rows) &&
        users.rows == old(users.rows)[id := UpdatedUser(old(users.rows)[id], q, encode)] &&
        r.value == ToDto(UpdatedUser(old(users.rows)[id], q, encode))
      ensures users.nextId == old(users.nextId)
      ensures Unique(old(users.rows)) ==> Unique(users.rows)
    {
      if id !in users.rows {
        return Failure(ResourceMissing("User", "id", id));
      }
      var user := new UserEntity.Load(users.rows[id]);
      if !IsManager(auth) && !OwnRecord(user.Row(), auth) {
        return Failure(UnauthorizedAccess("You can only update your own profile"));
      }
      if user.email != q.email && users.ExistsByEmail(q.email) {
        return Failure(Conflict("Email already exists"));
      }
      UpdateEntity(user, q);
      if q.password.Some? {
        user.password := Some(encode(q.password));
      }
      ghost var before := users.rows;
      var saved := users.Save(user);
      if Unique(before) {
        UpdatePreservesUnique(before, id, q, encode);
      }
      r := Success(ToDto(saved));
    }

    /** `deleteUser`: only existence is checked. */
    method DeleteUser(id: int) returns (r: Result<(), ApiException>)
      requires users.Valid()
      modifies users
      ensures users.Valid()
      ensures r.Success? <==> id in old(users.rows)
      ensures r.Failure? ==> r.error == ResourceMissing("User", "id", id) && users.rows == old(users.rows)
      ensures r.Success? ==> users.rows == old(users.rows) - {id}
      ensures users.nextId == old(users.nextId)
    {
      if id !in users.rows {
        return Failure(ResourceMissing("User", "id", id));
      }
      users.rows := users.rows - {id};
      r := Success(());
    }

    /** `getUserById`. */
    function GetUserById(id: int): (r: Result<UserDto, ApiException>)
      reads users
      ensures r.Success? <==> id in users.rows
      ensures r.Success? ==> r.value == ToDto(users.rows[id])
      ensures r.Failure? ==> r.error == ResourceMissing("User", "id", id)
    {
      if id in users.rows then Success(ToDto(users.rows[id])) else Failure(ResourceMissing("User", "id", id))
    }

    /** `getAllUsers`: a page of all users. */
    function GetAllUsers(pageable: Pageable): (r: Page<UserDto>)
      reads users
      requires users.Valid()
      ensures r.totalElements == |users.FindAll()|
      ensures |r.content| <= pageable.size
      ensures r.content == Slice(UserDtos(users.FindAll()), Offset(pageable), Offset(pageable) + pageable.size)
    {
      var all := UserDtos(users.FindAll());
      Page(Slice(all, Offset(pageable), Offset(pageable) + pageable.size), |all|)
    }

    /** `getCurrentUser`: the stored user with the caller's username. */
    function GetCurrentUser(auth: Option<Authentication>): (r: Result<UserDto, ApiException>)
      reads users
      requires users.Valid()
      ensures r.Success? <==> exists k :: k in users.rows && users.rows[k].username == CurrentUsername(auth)
      ensures r.Success? ==> r.value.username == CurrentUsername(auth)
      ensures r.Success? ==> exists k :: k in users.rows && users.rows[k].username == CurrentUsername(auth) &&
                                       r.value == ToDto(users.rows[k])
      ensures r.Failure? ==> r.error == ResourceNotFound("User not found")
    {
      var user := users.FindByUsername(CurrentUsername(auth));
      if user.Some? then Success(ToDto(user.value)) else Failure(ResourceNotFound("User not found"))
    }
  }
}
