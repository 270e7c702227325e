/** `DataInitializer`: on start-up, an empty user table receives one administrator. */
module DataInitializer {
  import opened Wrappers
  import opened Types
  import opened Entities
  import opened Repositories

  const AdminPassword := "admin123"

  /** The administrator saved under identity `id`. */
  function Admin(id: int, encode: Option<string> -> string): (u: UserRow)
    ensures u.id == Some(id) && u.username == Some("admin") && u.email == Some("admin@example.com")
    ensures u.role == Some(MANAGER) && u.enabled
    ensures u.password == Some(encode(Some(AdminPassword)))
  {
    UserRow(Some(id), Some("admin"), Some(encode(Some(AdminPassword))), Some("admin@example.com"),
            Some("Admin"), Some("User"), Some(MANAGER), true)
  }

  /** The users after `run`, when the next identity value is `id`. */
  function Seeded(rows: map<int, UserRow>, id: int, encode: Option<string> -> string): (r: map<int, UserRow>)
    ensures r != map[]
    ensures rows != map[] ==> r == rows
    ensures rows == map[] ==> r.Keys == {id} && r[id] == Admin(id, encode)
  {
    if |rows| == 0 then map[id := Admin(id, encode)] else rows
  }

  /** A second start-up adds nothing. */
  lemma SeedIdempotent(rows: map<int, UserRow>, id: int, id': int, encode: Option<string> -> string)
    ensures Seeded(Seeded(rows, id, encode), id', encode) == Seeded(rows, id, encode)
  {
  }

  /** `run`. */
  method Run(users: UserRepository, encode: Option<string> -> string)
    requires users.Valid()
    modifies users
    ensures users.Valid()
    ensures users.rows == Seeded(old(users.rows), old(users.nextId), encode)
  {
    if |users.rows| == 0 {
      var admin := new UserEntity();
      admin.username := Some("admin");
      admin.password := Some(encode(Some(AdminPassword)));
      admin.email := Some("admin@example.com");
      admin.firstName := Some("Admin");
      admin.lastName := Some("User");
      admin.role := Some(MANAGER);
      admin.enabled := true;
      var saved := users.Save(admin);
      assert old(users.rows) == map[];
    }
  }
}
