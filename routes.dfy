/** The application's routes and the guard in front of the protected ones.
    A guard sends a signed-out visitor to "/login" and a signed-in user whose
    role is not among the route's roles to "/dashboard"; an empty role list
    admits every signed-in user. */
module Routes {
  import opened JsValues

  /** What the authentication context supplies: the `isAuthenticated` flag and
      the stored user object, whose `role` field the guard reads. */
  datatype Session = Session(isAuthenticated: Value, user: Record)

  /** `ProtectedRoute`'s three outcomes. */
  datatype Decision = RedirectToLogin | RedirectToDashboard | Allow

  /** Whether `role` is one of `roles` (`roles.includes(user.role)`). */
  predicate RoleListed(roles: seq<string>, role: Value)
  {
    exists i :: 0 <= i < |roles| && role == Str(roles[i])
  }

  /** `ProtectedRoute({ roles })`. */
  function Guard(session: Session, roles: seq<string>): (d: Decision)
    ensures d == RedirectToLogin <==> !Truthy(session.isAuthenticated)
    ensures d == RedirectToDashboard <==>
              Truthy(session.isAuthenticated) && roles != [] && !RoleListed(roles, Get(session.user, "role"))
    ensures d == Allow <==>
              Truthy(session.isAuthenticated) && (roles == [] || RoleListed(roles, Get(session.user, "role")))
  {
    if !Truthy(session.isAuthenticated) then RedirectToLogin
    else if |roles| > 0 && !RoleListed(roles, Get(session.user, "role")) then RedirectToDashboard
    else Allow
  }

  /** Widening a non-empty role list, to any list that still holds each of its
      roles, never turns an admitted user away. */
  lemma GuardMonotone(session: Session, roles: seq<string>, wider: seq<string>)
    requires roles != []
    requires forall i :: 0 <= i < |roles| ==> roles[i] in wider
    requires Guard(session, roles) == Allow
    ensures Guard(session, wider) == Allow
  {
    var role := Get(session.user, "role");
    var i :| 0 <= i < |roles| && role == Str(roles[i]);
    var j :| 0 <= j < |wider| && wider[j] == roles[i];
  }

  /** The same fails from the empty list: [] admits every signed-in user, while
      the wider list `["accounts"]` turns this one away. */
  lemma GuardNotMonotoneFromEmpty()
    ensures var s := Session(Bool(true), map["role" := Str("user")]);
      Guard(s, []) == Allow && Guard(s, [] + ["accounts"]) == RedirectToDashboard
  {
    var s := Session(Bool(true), map["role" := Str("user")]);
    assert Get(s.user, "role") == Str("user");
    assert !RoleListed(["accounts"], Str("user")) by {
      assert forall i :: 0 <= i < 1 ==> ["accounts"][i] == "accounts";
    }
  }

  /** The pages the routes render. */
  datatype Page = LoginPage | DashboardPage | RequestPage | ApprovalsPage | AccountsPage
                | HistoryPage | DepartmentHistoryPage

  /** The result of visiting a path: a page, a redirect, or nothing when no route matches. */
  datatype Outcome = Render(page: Page) | Redirect(to: string) | NoMatch

  /** The route table: "/login" is open; "/" redirects to "/login"; the others
      are guarded by the listed roles. */
  datatype RouteEntry = Open(page: Page) | RedirectEntry(target: string) | Protected(roles: seq<string>, page: Page)

  function RouteTable(path: string): Option<RouteEntry>
  {
    if path == "/login" then Some(Open(LoginPage))
    else if path == "/dashboard" then Some(Protected([], DashboardPage))
    else if path == "/request" then Some(Protected(["user"], RequestPage))
    else if path == "/approvals" then Some(Protected(["department_head"], ApprovalsPage))
    else if path == "/accounts" then Some(Protected(["accounts"], AccountsPage))
    else if path == "/history" then Some(Protected([], HistoryPage))
    else if path == "/department-history" then Some(Protected(["department_head"], DepartmentHistoryPage))
    else if path == "/" then Some(RedirectEntry("/login"))
    else None
  }

  /** One visit: the matching route's element, after its guard. */
  function Visit(path: string, session: Session): (o: Outcome)
    ensures RouteTable(path).None? <==> o == NoMatch
    ensures o.Redirect? ==> o.to in {"/login", "/dashboard"}
  {
    match RouteTable(path)
    case None => NoMatch
    case Some(Open(page)) => Render(page)
    case Some(RedirectEntry(target)) => Redirect(target)
    case Some(Protected(roles, page)) =>
      match Guard(session, roles)
      case RedirectToLogin => Redirect("/login")
      case RedirectToDashboard => Redirect("/dashboard")
      case Allow => Render(page)
  }

  /** Visiting a path and following redirects, at most `hops` of them. */
  function Navigate(path: string, session: Session, hops: nat): Outcome
    decreases hops
  {
    match Visit(path, session)
    case Redirect(to) => if hops == 0 then Redirect(to) else Navigate(to, session, hops - 1)
    case o => o
  }

  /** The guarded pages need the one role their route names. */
  lemma RoleGates(session: Session)
    ensures Visit("/request", session) == Render(RequestPage) <==>
              Truthy(session.isAuthenticated) && Get(session.user, "role") == Str("user")
    ensures Visit("/approvals", session) == Render(ApprovalsPage) <==>
              Truthy(session.isAuthenticated) && Get(session.user, "role") == Str("department_head")
    ensures Visit("/department-history", session) == Render(DepartmentHistoryPage) <==>
              Truthy(session.isAuthenticated) && Get(session.user, "role") == Str("department_head")
    ensures Visit("/accounts", session) == Render(AccountsPage) <==>
              Truthy(session.isAuthenticated) && Get(session.user, "role") == Str("accounts")
  {
    var role := Get(session.user, "role");
    assert RoleListed(["user"], role) <==> role == Str("user") by {
      if role == Str("user") { assert ["user"][0] == "user"; }
    }
    assert RoleListed(["department_head"], role) <==> role == Str("department_head") by {
      if role == Str("department_head") { assert ["department_head"][0] == "department_head"; }
    }
    assert RoleListed(["accounts"], role) <==> role == Str("accounts") by {
      if role == Str("accounts") { assert ["accounts"][0] == "accounts"; }
    }
  }

  /** From any routed path, following at most two redirects always ends on a
      page: the login page when signed out, the requested page or the
      dashboard when signed in. */
  lemma NavigationSettles(path: string, session: Session)
    requires RouteTable(path).Some?
    ensures Navigate(path, session, 2).Render?
    ensures !Truthy(session.isAuthenticated) ==> Navigate(path, session, 2) == Render(LoginPage)
    ensures Truthy(session.isAuthenticated) && path != "/" ==>
              Navigate(path, session, 2) in {Render(RouteTable(path).value.page), Render(DashboardPage)}
  {
    assert Visit("/login", session) == Render(LoginPage);
    if Truthy(session.isAuthenticated) {
      assert Visit("/dashboard", session) == Render(DashboardPage);
    }
  }
}
