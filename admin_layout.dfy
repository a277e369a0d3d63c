/** The guard around every administrator page: it renders its children
    only for a signed-in administrator and redirects everyone else to the
    login page once the session has finished loading. */
module AdminLayout {
  import opened Wrappers
  import opened Text
  import Auth

  const AdminRole := "ADMIN"
  const UnauthorizedRedirect := "/login?message=unauthorized"

  /** What the layout shows: its children, or the "checking permission" notice. */
  datatype View = Children | Checking

  /** One render of the layout: the view, and the navigation its effect
      requests, if any. */
  datatype Guard = Guard(view: View, redirect: Option<string>)

  /** The effect and the render, each with its own condition as the layout
      writes them. */
  function AdminGuard(isLoading: bool, isAuthenticated: bool, userRole: Option<string>): (g: Guard)
    ensures g.view == Children <==> !isLoading && isAuthenticated && userRole == Some(AdminRole)
    ensures g.redirect.Some? <==> !isLoading && !(isAuthenticated && userRole == Some(AdminRole))
    ensures g.redirect.Some? ==> g.redirect.value == UnauthorizedRedirect
    ensures !(g.view == Children && g.redirect.Some?)
    ensures isLoading ==> g.view == Checking && g.redirect.None?
    ensures !isLoading ==> (g.view == Children <==> g.redirect.None?)
  {
    var redirect :=
      if !isLoading && (!isAuthenticated || userRole != Some(AdminRole)) then Some(UnauthorizedRedirect) else None;
    var view :=
      if isLoading || !isAuthenticated || userRole != Some(AdminRole) then Checking else Children;
    Guard(view, redirect)
  }

  /** After startup the guard admits exactly a session whose stored role is
      the administrator's and whose refresh succeeded: the role comes from
      storage, not from the refresh answer. */
  lemma GuardAfterStartup(s: Auth.SessionState, reissue: Auth.Reply)
    ensures var t := Auth.Startup(s, reissue);
      AdminGuard(false, t.isAuthenticated, t.userRole).view == Children
      <==> s.storedRole == Some(AdminRole) && IsTruthy(s.storedEmail) && reissue.Issued?
  {
    var t := Auth.Startup(s, reissue);
    if t.isAuthenticated {
      assert t.userRole == s.storedRole;
    }
  }
}
