/** The route guard (src/components/auth/protected-route.tsx): what `ProtectedRoute` renders for
    the current session. */
module ProtectedRoute {
  import opened Types
  import opened AuthContext

  /** A spinner, a `<Navigate to=… replace>` redirect, or the main layout around the outlet. */
  datatype View = Spinner | Redirect(to: string, replace: bool) | Layout

  /** The guard's if-chain; `requiresManager` is `false` unless the route passes it. */
  function Decide(s: Session, requiresManager: bool): (v: View)
    ensures v == Spinner <==> s.isLoading
    ensures v == Redirect("/login", true) <==> !s.isLoading && !IsAuthenticated(s)
    ensures v == Redirect("/dashboard", true) <==>
      !s.isLoading && IsAuthenticated(s) && requiresManager && !IsManager(s)
    ensures v == Layout <==> !s.isLoading && IsAuthenticated(s) && (!requiresManager || IsManager(s))
  {
    if s.isLoading then Spinner
    else if !IsAuthenticated(s) then Redirect("/login", true)
    else if requiresManager && (s.user.None? || s.user.value.profile.role != MANAGER) then
      Redirect("/dashboard", true)
    else Layout
  }

  /** A route without `requiresManager` lets every signed-in user through once loading is over. */
  lemma DefaultGuardAdmitsAnyUser(s: Session)
    requires !s.isLoading && IsAuthenticated(s)
    ensures Decide(s, false) == Layout
  {
  }

  /** Managers pass every guard once loading is over. */
  lemma ManagerPassesEveryGuard(s: Session, requiresManager: bool)
    requires !s.isLoading && IsManager(s)
    ensures Decide(s, requiresManager) == Layout
  {
  }
}
