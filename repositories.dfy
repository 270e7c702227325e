/** The Spring Data repositories the services use, as maps from id to the stored entity state.
    `save` of an entity without an id runs its `@PrePersist` hook and hands out the next identity
    value; `save` of a loaded entity replaces its row. Listings come in ascending id order. */
module Repositories {
  import opened Wrappers
  import opened Seqs
  import opened Entities

  /** The rows whose ids lie in [1, n), in ascending id order. */
  function Listing<T(!new)>(rows: map<int, T>, n: int): (r: seq<T>)
    decreases n
    ensures forall x :: x in r <==> exists k :: 1 <= k < n && k in rows && rows[k] == x
    ensures |r| <= if n < 1 then 0 else n - 1
  {
    if n <= 1 then []
    else Listing(rows, n - 1) + (if n - 1 in rows then [rows[n - 1]] else [])
  }

  class ProjectRepository {
    var rows: map<int, ProjectRow>
    var nextId: int

    ghost predicate Valid()
      reads this
    {
      nextId >= 1 && forall k :: k in rows ==> 1 <= k < nextId && rows[k].id == Some(k)
    }

    constructor ()
      ensures Valid() && rows == map[] && nextId == 1
    {
      rows, nextId := map[], 1;
    }

    /** `findAll()`. */
    function FindAll(): (r: seq<ProjectRow>)
      reads this
      requires Valid()
      ensures forall p :: p in r <==> exists k :: k in rows && rows[k] == p
    {
      Listing(rows, nextId)
    }

    /** `save(e)`: insert a new entity, or write back a loaded one. */
    method Save(e: ProjectEntity) returns (saved: ProjectRow)
      requires Valid()
      requires e.id.None? || e.id.value in rows
      modifies this, e
      ensures Valid()
      ensures e.Row() == saved
      ensures old(e.id).None? ==>
        saved == ProjectPrePersisted(old(e.Row())).(id := Some(old(nextId))) &&
        rows == old(rows)[old(nextId) := saved] && nextId == old(nextId) + 1
      ensures old(e.id).Some? ==>
        saved == old(e.Row()) && rows == old(rows)[old(e.id).value := saved] && nextId == old(nextId)
    {
      if e.id.None? {
        e.PrePersist();
        e.id := Some(nextId);
        saved := e.Row();
        rows := rows[nextId := saved];
        nextId := nextId + 1;
      } else {
        saved := e.Row();
        rows := rows[e.id.value := saved];
      }
    }
  }

  class UserRepository {
    var rows: map<int, UserRow>
    var nextId: int

    ghost predicate Valid()
      reads this
    {
      nextId >= 1 && forall k :: k in rows ==> 1 <= k < nextId && rows[k].id == Some(k)
    }

    constructor ()
      ensures Valid() && rows == map[] && nextId == 1
    {
      rows, nextId := map[], 1;
    }

    function FindAll(): (r: seq<UserRow>)
      reads this
      requires Valid()
      ensures forall u :: u in r <==> exists k :: k in rows && rows[k] == u
    {
      Listing(rows, nextId)
    }

    /** `findByUsername(name)`: a `null` name looks for a user without one. */
    function FindByUsername(name: Option<string>): (r: Option<UserRow>)
      reads this
      requires Valid()
      ensures r.Some? <==> exists k :: k in rows && rows[k].username == name
      ensures r.Some? ==> r.value in FindAll() && r.value.username == name
    {
      var r := FindFirst(FindAll(), (u: UserRow) => u.username == name);
      assert r.None? ==> forall k :: k in rows ==> rows[k].username != name by {
        if r.None? {
          forall k | k in rows ensures rows[k].username != name {
            assert rows[k] in FindAll();
          }
        }
      }
      r
    }

    predicate ExistsByUsername(name: Option<string>)
      reads this
    {
      exists k :: k in rows && rows[k].username == name
    }

    predicate ExistsByEmail(email: Option<string>)
      reads this
    {
      exists k :: k in rows && rows[k].email == email
    }

    method Save(e: UserEntity) returns (saved: UserRow)
      requires Valid()
      requires e.id.None? || e.id.value in rows
      modifies this, e
      ensures Valid()
      ensures e.Row() == saved
      ensures old(e.id).None? ==>
        saved == UserPrePersisted(old(e.Row())).(id := Some(old(nextId))) &&
        rows == old(rows)[old(nextId) := saved] && nextId == old(nextId) + 1
      ensures old(e.id).Some? ==>
        saved == old(e.Row()) && rows == old(rows)[old(e.id).value := saved] && nextId == old(nextId)
    {
      if e.id.None? {
        e.PrePersist();
        e.id := Some(nextId);
        saved := e.Row();
        rows := rows[nextId := saved];
        nextId := nextId + 1;
      } else {
        saved := e.Row();
        rows := rows[e.id.value := saved];
      }
    }
  }
}
