/** The case-insensitive text search shared by src/services/api.ts, src/pages/Projects.tsx,
    src/pages/Tasks.tsx and src/pages/Users.tsx: an empty query keeps everything, otherwise a
    record is kept when the lower-cased query occurs in one of its lower-cased text fields. */
module Search {
  import opened Wrappers
  import opened Types
  import opened Text
  import opened Seqs

  /** `field.toLowerCase().includes(query.toLowerCase())`. */
  predicate FieldMatches(field: string, query: string)
  {
    Includes(Lower(field), Lower(query))
  }

  /** `field?.toLowerCase().includes(query)`: an absent field gives `undefined`, which is falsy. */
  predicate OptionalFieldMatches(field: Option<string>, query: string)
  {
    field.Some? && FieldMatches(field.value, query)
  }

  predicate ProjectMatches(p: Project, query: string)
  {
    query == "" || FieldMatches(p.name, query) || FieldMatches(p.description, query)
  }

  predicate UserMatches(u: User, query: string)
  {
    query == "" || FieldMatches(u.name, query) || FieldMatches(u.email, query) ||
    OptionalFieldMatches(u.department, query) || OptionalFieldMatches(u.title, query)
  }

  function SearchProjects(ps: seq<Project>, query: string): (r: seq<Project>)
    ensures forall p :: p in r <==> p in ps && ProjectMatches(p, query)
  {
    Filter(ps, (p: Project) => ProjectMatches(p, query))
  }

  function SearchUsers(us: seq<User>, query: string): (r: seq<User>)
    ensures forall u :: u in r <==> u in us && UserMatches(u, query)
  {
    Filter(us, (u: User) => UserMatches(u, query))
  }

  /** The empty query returns the whole list. */
  lemma EmptyProjectQueryKeepsAll(ps: seq<Project>)
    ensures SearchProjects(ps, "") == ps
  {
    FilterAll(ps, (p: Project) => ProjectMatches(p, ""));
  }

  lemma EmptyUserQueryKeepsAll(us: seq<User>)
    ensures SearchUsers(us, "") == us
  {
    FilterAll(us, (u: User) => UserMatches(u, ""));
  }

  /** Searching only drops records; the rest keep their order. */
  lemma SearchIsSubsequence(ps: seq<Project>, us: seq<User>, query: string)
    ensures IsSubsequence(SearchProjects(ps, query), ps)
    ensures IsSubsequence(SearchUsers(us, query), us)
  {
    FilterIsSubsequence(ps, (p: Project) => ProjectMatches(p, query));
    FilterIsSubsequence(us, (u: User) => UserMatches(u, query));
  }

  /** Letter case does not matter: a query and its lower-cased form select the same records. */
  lemma SearchIgnoresQueryCase(ps: seq<Project>, query: string)
    ensures SearchProjects(ps, Lower(query)) == SearchProjects(ps, query)
  {
    LowerIdempotent(query);
    assert (Lower(query) == "") == (query == "");
    SameFilter(ps, (p: Project) => ProjectMatches(p, Lower(query)),
               (p: Project) => ProjectMatches(p, query));
  }

  lemma LowerIdempotent(s: string)
    ensures Lower(Lower(s)) == Lower(s)
  {
  }
}
