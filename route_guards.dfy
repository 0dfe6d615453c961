/** The protected-route decision. The two session flags, which the source
    reads from client storage, and the current location are inputs. */
module RouteGuards {
  import opened Wrappers

  /** What a guard renders: a replacing redirect that remembers where the
      user came from, the access-denied view, or the protected children. */
  datatype GuardView =
    | Redirect(to: string, from: string, replace: bool)
    | AccessDenied
    | Children

  const LOGIN_PATH := "/admin/login"

  /** `AuthGuard`: an unauthenticated user is sent to the login page; an
      authenticated user without the required admin role sees the denial;
      everyone else sees the children. `requireAdmin` defaults to false. */
  function AuthGuard(isAuthenticated: bool, isAdmin: bool, requireAdmin: Option<bool>, location: string): (v: GuardView)
    ensures v.Redirect? <==> !isAuthenticated
    ensures v.Redirect? ==> v == Redirect(LOGIN_PATH, location, true)
    ensures v.AccessDenied? <==> isAuthenticated && requireAdmin == Some(true) && !isAdmin
    ensures v.Children? <==> isAuthenticated && (requireAdmin != Some(true) || isAdmin)
  {
    if !isAuthenticated then Redirect(LOGIN_PATH, location, true)
    else if requireAdmin.GetOr(false) && !isAdmin then AccessDenied
    else Children
  }

  /** Leaving `requireAdmin` out admits every authenticated user. */
  lemma DefaultAdmitsAuthenticated(isAdmin: bool, location: string)
    ensures AuthGuard(true, isAdmin, None, location) == Children
  {
  }

  /** Requiring the admin role never admits more users than not requiring it. */
  lemma RequireAdminIsStricter(isAuthenticated: bool, isAdmin: bool, location: string)
    ensures AuthGuard(isAuthenticated, isAdmin, Some(true), location).Children? ==>
      AuthGuard(isAuthenticated, isAdmin, Some(false), location).Children?
  {
  }

  /** `AuthLoadingGuard`: renders its children unconditionally, the same view
      `AuthGuard` gives an authenticated user when no role is required. */
  function AuthLoadingGuard(): (v: GuardView)
    ensures forall isAdmin: bool, location: string :: v == AuthGuard(true, isAdmin, None, location)
  {
    Children
  }
}
