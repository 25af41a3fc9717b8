/**
 * The route table and the `beforeEach` navigation guard of src/router/index.ts. The guard
 * is a decision over the target's `meta`, the login state and the user's role; the views
 * the routes load are not modelled.
 */
module Router {
  import opened Wrappers

  /** A route's `meta`: whether it needs a login, and the roles it admits when it lists any. */
  datatype Meta = Meta(requiresAuth: bool, roles: Option<seq<string>>)

  datatype Route = Route(path: string, name: string, meta: Meta)

  /** Where a navigation goes: the matched route's name (none for an unmatched path, whose
      `meta` is empty), the full path with its query, and the `meta`. */
  datatype Target = Target(name: Option<string>, fullPath: string, meta: Meta)

  /** What the guard passes to `next`. */
  datatype Decision = Next | ToLogin(redirect: string) | ToDashboard

  // The values of the `UserRole` enum.
  const ADMIN: string := "admin"
  const TENANT_ADMIN: string := "tenant_admin"
  const CALL_CENTER: string := "call_center"
  const AS_MANAGER: string := "as_manager"
  const AS_ENGINEER: string := "as_engineer"
  const VIEWER: string := "viewer"

  const MANAGERS: seq<string> := [ADMIN, TENANT_ADMIN, AS_MANAGER]

  const OPEN: Meta := Meta(false, None)
  const SIGNED_IN: Meta := Meta(true, None)

  const LOGIN: Route := Route("/login", "login", OPEN)
  const DASHBOARD: Route := Route("/", "dashboard", SIGNED_IN)
  const MY_WORK: Route := Route("/my-work", "my-work", Meta(true, Some([AS_ENGINEER])))
  const REPORTS: Route := Route("/reports", "reports", Meta(true, Some(MANAGERS)))
  const REPORT_SNAPSHOT: Route := Route("/reports/snapshot/:id", "report-snapshot", Meta(true, Some(MANAGERS)))

  const ROUTES: seq<Route> := [
    LOGIN,
    DASHBOARD,
    Route("/tickets", "tickets", SIGNED_IN),
    Route("/tickets/new", "ticket-create", SIGNED_IN),
    Route("/tickets/:id", "ticket-detail", SIGNED_IN),
    MY_WORK,
    REPORTS,
    REPORT_SNAPSHOT
  ]

  /** A navigation to `r` at `fullPath`. */
  function To(r: Route, fullPath: string): Target {
    Target(Some(r.name), fullPath, r.meta)
  }

  /** `authStore.userRole` is truthy: there is a role and it is not the empty string. */
  function HasRole(userRole: Option<string>): (b: bool)
    ensures b ==> userRole.Some?
    ensures userRole == Some("") ==> !b
    ensures userRole.Some? && |userRole.value| > 0 ==> b
  {
    userRole.Some? && userRole.value != ""
  }

  /** The role check of the guard fires: the route lists roles, the user has one, and it
      is not among them. */
  function RoleRefused(meta: Meta, userRole: Option<string>): (b: bool)
    ensures b ==> meta.roles.Some? && HasRole(userRole)
    ensures meta.roles == Some([]) && HasRole(userRole) ==> b
  {
    meta.roles.Some? && HasRole(userRole) && userRole.value !in meta.roles.value
  }

  /** `router.beforeEach`: the first rule that fires decides. A protected route without a
      login goes to the login page, remembering where it was going; a refused role goes to
      the dashboard; a logged-in user going to the login page goes to the dashboard; all
      else proceeds. */
  function Guard(to: Target, isAuthenticated: bool, userRole: Option<string>): (d: Decision)
    ensures d.ToLogin? <==> to.meta.requiresAuth && !isAuthenticated
    ensures d.ToLogin? ==> d.redirect == to.fullPath
    ensures d == ToDashboard <==> (!(to.meta.requiresAuth && !isAuthenticated)
      && (RoleRefused(to.meta, userRole) || (to.name == Some(LOGIN.name) && isAuthenticated)))
    ensures d == Next <==> (!(to.meta.requiresAuth && !isAuthenticated) && !RoleRefused(to.meta, userRole)
      && !(to.name == Some(LOGIN.name) && isAuthenticated))
  {
    if to.meta.requiresAuth && !isAuthenticated then ToLogin(to.fullPath)
    else if to.meta.roles.Some? && HasRole(userRole) && userRole.value !in to.meta.roles.value then ToDashboard
    else if to.name == Some(LOGIN.name) && isAuthenticated then ToDashboard
    else Next
  }

  /** Without a role the role lists are never consulted. */
  lemma NoRoleSkipsRoleCheck(to: Target, isAuthenticated: bool, userRole: Option<string>)
    requires !HasRole(userRole)
    ensures Guard(to, isAuthenticated, userRole) == Guard(to.(meta := to.meta.(roles := None)), isAuthenticated, None)
  {
  }

  /** The login page lets anyone through who is not logged in. */
  lemma LoginIsFixedPoint(userRole: Option<string>, fullPath: string)
    ensures Guard(To(LOGIN, fullPath), false, userRole) == Next
  {
  }

  /** The dashboard lets every logged-in user through, whatever the role. */
  lemma DashboardIsFixedPoint(userRole: Option<string>, fullPath: string)
    ensures Guard(To(DASHBOARD, fullPath), true, userRole) == Next
  {
  }

  /** Every route of the table that lists roles also needs a login. */
  lemma RolesNeedLogin(r: Route)
    requires r in ROUTES && r.meta.roles.Some?
    ensures r.meta.requiresAuth
  {
  }

  /** The guard cannot loop on the table: a redirect to the login page happens only without
      a login, and the login page then lets the user through; a redirect to the dashboard
      happens only with a login, and the dashboard then lets the user through. */
  lemma {:induction false} RedirectsSettle(r: Route, fullPath: string, loginPath: string,
                                           isAuthenticated: bool, userRole: Option<string>)
    requires r in ROUTES
    ensures var d := Guard(To(r, fullPath), isAuthenticated, userRole);
      && (d.ToLogin? ==> !isAuthenticated && Guard(To(LOGIN, loginPath), isAuthenticated, userRole) == Next)
      && (d == ToDashboard ==> isAuthenticated && Guard(To(DASHBOARD, "/"), isAuthenticated, userRole) == Next)
  {
    if r.meta.roles.Some? {
      RolesNeedLogin(r);
    }
    LoginIsFixedPoint(userRole, loginPath);
    DashboardIsFixedPoint(userRole, "/");
  }

  /** A logged-in user with a role reaches `my-work` only as a field engineer. */
  lemma MyWorkRoles(role: string, fullPath: string)
    requires role != ""
    ensures Guard(To(MY_WORK, fullPath), true, Some(role)) == (if role == AS_ENGINEER then Next else ToDashboard)
  {
  }

  /** A logged-in user with a role reaches the reports, and a report snapshot, only as an
      administrator, a tenant administrator or a service manager. */
  lemma ReportsRoles(role: string, fullPath: string)
    requires role != ""
    ensures var allowed := role == ADMIN || role == TENANT_ADMIN || role == AS_MANAGER;
      && Guard(To(REPORTS, fullPath), true, Some(role)) == (if allowed then Next else ToDashboard)
      && Guard(To(REPORT_SNAPSHOT, fullPath), true, Some(role)) == (if allowed then Next else ToDashboard)
  {
  }

  /** A logged-in user asking for the login page is sent to the dashboard. */
  lemma LoggedInSkipsLogin(userRole: Option<string>, fullPath: string)
    ensures Guard(To(LOGIN, fullPath), true, userRole) == ToDashboard
  {
  }
}
