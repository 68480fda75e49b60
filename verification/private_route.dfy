/**
 * The route guard: redirect to the login page, redirect to the dashboard as
 * unauthorised, or render the protected content.
 */
module PrivateRoute {
  import opened Wrappers
  import opened Types

  datatype Decision =
    | RedirectToLogin
    | RedirectToDashboardUnauthorized
    | RenderChildren
    | RenderOutlet

  /**
   * Only a super-admin requirement is enforced: a mismatch with any other
   * required role falls through to rendering.
   */
  function Decide(isAuthenticated: bool, role: Option<UserRole>, requiredRole: Option<UserRole>, hasChildren: bool): Decision
  {
    if !isAuthenticated then RedirectToLogin
    else if requiredRole.Some? && role != requiredRole && requiredRole == Some(SuperAdmin) && role != Some(SuperAdmin)
    then RedirectToDashboardUnauthorized
    else if hasChildren then RenderChildren
    else RenderOutlet
  }

  predicate Renders(d: Decision) { d == RenderChildren || d == RenderOutlet }

  /**
   * The guard's decisions: login for the unauthenticated whatever the
   * requirement; the unauthorised redirect exactly for an authenticated
   * non-super user on a super-admin route; rendering otherwise, of the
   * children when there are any.
   */
  lemma GuardDecisions(isAuthenticated: bool, role: Option<UserRole>, requiredRole: Option<UserRole>, hasChildren: bool)
    ensures var d := Decide(isAuthenticated, role, requiredRole, hasChildren);
      (d == RedirectToLogin <==> !isAuthenticated) &&
      (d == RedirectToDashboardUnauthorized <==>
         isAuthenticated && requiredRole == Some(SuperAdmin) && role != Some(SuperAdmin)) &&
      (Renders(d) ==> (d == RenderChildren <==> hasChildren))
    ensures isAuthenticated && requiredRole.None? ==> Renders(Decide(isAuthenticated, role, requiredRole, hasChildren))
    ensures isAuthenticated && requiredRole == Some(Admin) ==> Renders(Decide(isAuthenticated, role, requiredRole, hasChildren))
  {
  }
}
