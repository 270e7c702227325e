/** `AuditAwareImpl`: the auditor recorded on saved entities. */
module AuditAware {
  import opened Wrappers
  import opened SecurityUtils

  const SystemAuditor := "SYSTEM"

  /** `getCurrentAuditor()`: the current username, falling back to "SYSTEM"; never empty. */
  function CurrentAuditor(auth: Option<Authentication>): (r: Option<string>)
    ensures r.Some?
    ensures CurrentUsername(auth).Some? ==> r == CurrentUsername(auth)
    ensures CurrentUsername(auth).None? ==> r == Some(SystemAuditor)
  {
    var username := CurrentUsername(auth);
    if username.Some? then username else Some(SystemAuditor)
  }

  /** Nobody signed in, or a principal that is not a `UserDetails`: the auditor is "SYSTEM". */
  lemma SystemWithoutUserDetails(auth: Option<Authentication>)
    requires auth.None? || auth.value.principal.OtherPrincipal?
    ensures CurrentAuditor(auth) == Some(SystemAuditor)
  {
  }
}
