/**
 * The route guard (client/src/components/ProtectedRoute.jsx): what a
 * protected route renders, from the authentication session, the roles the
 * route allows and the path that was requested.
 */
module ProtectedRoute {
  import opened Common
  import opened Profiles
  import opened AuthContext

  datatype Decision =
    | Wait                                              // the spinner
    | RedirectLogin(from: string)                       // to /login
    | RedirectDashboard(accessDenied: bool, message: string)  // to /dashboard
    | Admit                                             // the child route

  /** `user.role || 'student'`. */
  function Role(user: Profile): (r: string)
    ensures Get(user, "role").Some? && Get(user, "role").value != "" ==> r == Get(user, "role").value
    ensures Get(user, "role").None? || Get(user, "role") == Some("") ==> r == "student"
  {
    var role := Get(user, "role");
    if role.Some? && role.value != "" then role.value else "student"
  }

  function DeniedMessage(allowedRoles: seq<string>): string
  {
    "Access denied. This section requires " + Join(allowedRoles, " or ") + " permissions."
  }

  /** The route's decision. An absent `allowedRoles` is the empty list. */
  function Guard(s: Session, allowedRoles: seq<string>, pathname: string): (d: Decision)
    ensures d.Wait? <==> s.loading
    ensures d.RedirectLogin? <==> !s.loading && !s.isAuthenticated
    ensures d.RedirectLogin? ==> d.from == pathname
    ensures d.RedirectDashboard? <==>
      !s.loading && s.isAuthenticated && |allowedRoles| > 0 && s.user.Some?
      && Role(s.user.value) !in allowedRoles
    ensures d.RedirectDashboard? ==> d.accessDenied && d.message == DeniedMessage(allowedRoles)
    ensures d.Admit? <==>
      !s.loading && s.isAuthenticated
      && (|allowedRoles| == 0 || s.user.None? || Role(s.user.value) in allowedRoles)
  {
    if s.loading then Wait
    else if !s.isAuthenticated then RedirectLogin(pathname)
    else if |allowedRoles| > 0 && s.user.Some? && Role(s.user.value) !in allowedRoles then
      RedirectDashboard(true, DeniedMessage(allowedRoles))
    else Admit
  }

  /** The roles of the create-paper route (client/src/App.jsx). */
  const CreatePaperRoles: seq<string> := ["admin", "teacher"]

  /** With the authentication check done, the create-paper route admits
      teachers and admins, and sends students and users without a role
      back to the dashboard with the message naming both roles. */
  lemma CreatePaperAccess(s: Session, pathname: string)
    requires !s.loading && s.isAuthenticated && s.user.Some?
    ensures Guard(s, CreatePaperRoles, pathname).Admit?
      <==> Role(s.user.value) == "admin" || Role(s.user.value) == "teacher"
    ensures Role(s.user.value) == "student" ==>
      Guard(s, CreatePaperRoles, pathname)
      == RedirectDashboard(true, "Access denied. This section requires admin or teacher permissions.")
  {
    CreatePaperMessage();
  }

  /** The two roles, joined the way the message joins them. */
  lemma CreatePaperRolesJoined()
    ensures Join(CreatePaperRoles, " or ") == "admin or teacher"
  {
    assert CreatePaperRoles[1..] == ["teacher"];
  }

  lemma CreatePaperMessage()
    ensures DeniedMessage(CreatePaperRoles) == "Access denied. This section requires admin or teacher permissions."
  {
    CreatePaperRolesJoined();
  }

  /** A user without a role is checked as a student wherever roles are
      required. */
  lemma MissingRoleIsStudent(s: Session, allowedRoles: seq<string>, pathname: string)
    requires !s.loading && s.isAuthenticated && s.user.Some? && |allowedRoles| > 0
    requires Get(s.user.value, "role").None?
    ensures Guard(s, allowedRoles, pathname).Admit? <==> "student" in allowedRoles
  {
  }
}
