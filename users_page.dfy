/** The team page (src/pages/Users.tsx): the search box over the user list. Its avatar
    initials are `Text.Initials`. */
module UsersPage {
  import opened Types
  import opened Seqs
  import opened Text
  import opened Search

  /** `filteredUsers`: everybody for an empty query; otherwise the users whose name, email, or
      present department or title contains the query, ignoring case, in list order. */
  function FilteredUsers(us: seq<User>, query: string): (r: seq<User>)
    ensures query == "" ==> r == us
    ensures forall u :: u in r <==>
      u in us && (query == "" || FieldMatches(u.name, query) || FieldMatches(u.email, query) ||
                  OptionalFieldMatches(u.department, query) || OptionalFieldMatches(u.title, query))
    ensures IsSubsequence(r, us)
  {
    EmptyUserQueryKeepsAll(us);
    SearchIsSubsequence([], us, query);
    SearchUsers(us, query)
  }
}
