/** `SecurityUtils` of the backend: the current username and whether the caller is a manager,
    read from the request's authentication. The ambient security context is the parameter
    `auth` (`None` when nobody is authenticated). */
module SecurityUtils {
  import opened Wrappers

  /** The authentication's principal: a `UserDetails` carrying a username, or anything else. */
  datatype Principal = UserDetails(username: string) | OtherPrincipal

  datatype Authentication = Authentication(principal: Principal, authorities: seq<string>)

  const ManagerAuthority := "ROLE_MANAGER"

  /** `getCurrentUsername()`: `None` stands for `null`. */
  function CurrentUsername(auth: Option<Authentication>): (r: Option<string>)
    ensures r.Some? <==> auth.Some? && auth.value.principal.UserDetails?
    ensures r.Some? ==> r.value == auth.value.principal.username
  {
    if auth.Some? && auth.value.principal.UserDetails? then Some(auth.value.principal.username) else None
  }

  /** `authorities.stream().anyMatch(a -> a.getAuthority().equals(target))`. */
  function AnyMatch(authorities: seq<string>, target: string): (r: bool)
    ensures r <==> exists i :: 0 <= i < |authorities| && authorities[i] == target
  {
    if authorities == [] then false
    else authorities[0] == target || AnyMatch(authorities[1..], target)
  }

  /** `isManager()`: only a `UserDetails` principal can be a manager, and only through an
      authority spelled exactly "ROLE_MANAGER". */
  function IsManager(auth: Option<Authentication>): (r: bool)
    ensures r <==> auth.Some? && auth.value.principal.UserDetails? &&
                   exists i :: 0 <= i < |auth.value.authorities| && auth.value.authorities[i] == ManagerAuthority
  {
    if auth.Some? && auth.value.principal.UserDetails? then AnyMatch(auth.value.authorities, ManagerAuthority)
    else false
  }

  /** Both read the same guard, so a manager always has a username. */
  lemma ManagerHasUsername(auth: Option<Authentication>)
    requires IsManager(auth)
    ensures CurrentUsername(auth).Some?
  {
  }
}
