/** The sign-in page: where a successful login lands and what a failed one shows. */
module LoginPage {
  import opened Wrappers
  import opened JsString
  import opened Http
  import opened Types
  import opened Auth
  import opened Password
  import Middleware
  import LoginRoute

  /** The `roleRoutes` table, looked up with the role the server answered with; a role that
      is not one of the four finds no entry. */
  function RoleRoute(role: string): (r: Option<string>)
    ensures ConformsRole(role) ==> r == Some(Middleware.RolePath(ParseRole(role).value) + "/dashboard")
    ensures !ConformsRole(role) ==> r.None?
  {
    assert "/patient" + "/dashboard" == "/patient/dashboard" && "/doctor" + "/dashboard" == "/doctor/dashboard";
    assert "/admin" + "/dashboard" == "/admin/dashboard" && "/pharmacist" + "/dashboard" == "/pharmacist/dashboard";
    if role == "patient" then Some("/patient/dashboard")
    else if role == "doctor" then Some("/doctor/dashboard")
    else if role == "admin" then Some("/admin/dashboard")
    else if role == "pharmacist" then Some("/pharmacist/dashboard")
    else None
  }

  /** Each role lands on "/" + its name + "/dashboard", and distinct roles on distinct
      dashboards. */
  lemma RoleRoutesDistinct(a: Role, b: Role)
    ensures RoleRoute(RoleName(a)) == Some("/" + RoleName(a) + "/dashboard")
    ensures RoleRoute(RoleName(a)) == RoleRoute(RoleName(b)) ==> a == b
  {
    RoleNameParses(a);
    RoleNameParses(b);
    Middleware.RolePathsDistinct(a, b);
  }

  /** What the page does with the server's answer. `Navigate(None)` is `router.push` of the
      `undefined` a missing table entry gives. */
  datatype Outcome = Navigate(route: Option<string>) | ShowError(message: string)

  /** The handler after the response arrived: a failed reply shows its error, or "Login
      failed" when there is none; a successful one navigates to the role's dashboard. */
  function AfterLogin(reply: Reply<Account>): (o: Outcome)
    ensures reply.Err? ==> o == ShowError(OrDefault(Some(reply.error), "Login failed"))
    ensures reply.Ok? ==> o == Navigate(RoleRoute(reply.value.role))
  {
    match reply
    case Err(_, e) => ShowError(OrDefault(Some(e), "Login failed"))
    case Ok(a) => Navigate(RoleRoute(a.role))
  }

  /** Where the page lands is where the gate sends a signed-in user who asks for a page
      outside their area: the same dashboard, for every role. */
  lemma LandsWhereGateRedirects(r: Role)
    ensures RoleRoute(RoleName(r)) == Some(Middleware.RolePathOf(RoleName(r)) + "/dashboard")
  {
    RoleNameParses(r);
  }

  /** Every failure of the login route is shown with the route's own message, never the
      fallback; a stored user whose role is one of the four lands on that role's dashboard. */
  lemma LoginOutcomes(users: seq<User>, email: Option<string>, password: Option<string>)
    ensures var a := LoginRoute.Authenticate(users, email, password);
      && (a.Err? ==> AfterLogin(Err(a.status, a.error)) == ShowError(a.error))
      && (a.Ok? && ConformsRole(a.value.role) ==>
            AfterLogin(Ok(Account(a.value.id, a.value.email, a.value.name, a.value.role)))
            == Navigate(Some(Middleware.RolePath(ParseRole(a.value.role).value) + "/dashboard")))
  {
  }
}
