/** The client's routes and their guards: the protected route, the public (login and
    register) route, the home redirect, and the route table with each page's roles. */
module ClientRoutes {
  import opened Common
  import opened Tables
  import Auth

  /** The signed-in state the guards read: still loading, and the user's role when signed in. */
  datatype Session = Session(loading: bool, user: Option<string>)

  /** What a guard renders: the spinner, a redirect, or the page itself. */
  datatype View = Spinner | Redirect(to: string) | Render

  /** ProtectedRoute: the spinner while loading; /login without a user; /unauthorized when the
      list of roles is not empty and lacks the user's role; the page otherwise. */
  function ProtectedRoute(s: Session, allowedRoles: seq<string>): (v: View)
    ensures s.loading ==> v == Spinner
    ensures !s.loading && s.user.None? ==> v == Redirect("/login")
    ensures v == Render <==> !s.loading && s.user.Some? && (allowedRoles == [] || s.user.value in allowedRoles)
    ensures v == Redirect("/unauthorized") <==>
      !s.loading && s.user.Some? && allowedRoles != [] && s.user.value !in allowedRoles
  {
    if s.loading then Spinner
    else if s.user.None? then Redirect("/login")
    else if |allowedRoles| > 0 && s.user.value !in allowedRoles then Redirect("/unauthorized")
    else Render
  }

  /** The landing page of each of the three roles; no page for any other role. */
  function DashboardFor(role: string): (path: Option<string>)
    ensures path.Some? <==> role in Roles
  {
    if role == SystemAdmin then Some("/admin/dashboard")
    else if role == NormalUser then Some("/user/dashboard")
    else if role == StoreOwner then Some("/store/dashboard")
    else None
  }

  /** PublicRoute: the spinner while loading; a signed-in user goes to their role's landing
      page, or to "/" for an unknown role; the page itself only for a visitor. */
  function PublicRoute(s: Session): (v: View)
    ensures s.loading ==> v == Spinner
    ensures v == Render <==> !s.loading && s.user.None?
    ensures !s.loading && s.user.Some? ==>
      v == Redirect(if DashboardFor(s.user.value).Some? then DashboardFor(s.user.value).value else "/")
  {
    if s.loading then Spinner
    else if s.user.None? then Render
    else match DashboardFor(s.user.value)
      case Some(path) => Redirect(path)
      case None => Redirect("/")
  }

  /** HomeRedirect (it does not wait for loading): to the role's landing page, or to /login for
      a visitor or an unknown role. */
  function HomeRedirect(user: Option<string>): (v: View)
    ensures v.Redirect?
    ensures user.Some? && user.value in Roles ==> v == Redirect(DashboardFor(user.value).value)
    ensures user.None? || user.value !in Roles ==> v == Redirect("/login")
  {
    if user.None? then Redirect("/login")
    else match DashboardFor(user.value)
      case Some(path) => Redirect(path)
      case None => Redirect("/login")
  }

  /** The guard a route is wrapped in. */
  datatype Guard = Public | Home | Protected(allowedRoles: seq<string>) | Open

  datatype Route = Route(path: string, guard: Guard)

  /** The route table, in the order it is declared ("*" catches every other path). */
  const RouteTable: seq<Route> := [
    Route("/login", Public),
    Route("/register", Public),
    Route("/", Home),
    Route("/admin/dashboard", Protected([SystemAdmin])),
    Route("/admin/users", Protected([SystemAdmin])),
    Route("/admin/stores", Protected([SystemAdmin])),
    Route("/user/dashboard", Protected([NormalUser])),
    Route("/user/stores", Protected([NormalUser])),
    Route("/store/dashboard", Protected([StoreOwner])),
    Route("/profile", Protected([])),
    Route("/unauthorized", Open),
    Route("*", Open)
  ]

  /** `p` without its trailing slashes. */
  function StripTrailing(p: string): (r: string)
    ensures r == [] || r[|r| - 1] != '/'
    ensures |r| <= |p| && r == p[..|r|]
    ensures forall i :: |r| <= i < |p| ==> p[i] == '/'
  {
    if |p| > 0 && p[|p| - 1] == '/' then StripTrailing(p[..|p| - 1]) else p
  }

  /** What the router compares: a route's pattern matches a location regardless of the case
      of the location's letters and of trailing slashes on either side, so "/" and "//" both
      have the empty key. Folding the location alone is exact because the table's patterns
      have no upper-case letter (`TablePatternsLowerCase`). */
  function PathKey(p: string): string
  {
    StripTrailing(ToLower(p))
  }

  /** The key a route's pattern matches. */
  function PatternKey(r: Route): string
  {
    StripTrailing(r.path)
  }

  /** The guard of the route that serves `path`: the route whose pattern matches it, else "*". */
  function GuardOf(path: string): (g: Guard)
    ensures (exists i :: 0 <= i < |RouteTable| && PatternKey(RouteTable[i]) == PathKey(path)) || g == Open
  {
    GuardIn(RouteTable, PathKey(path))
  }

  /** The guard of the first of `routes` whose pattern has the key `key`, else Open. */
  function GuardIn(routes: seq<Route>, key: string): (g: Guard)
    ensures (exists i :: 0 <= i < |routes| && PatternKey(routes[i]) == key && routes[i].guard == g) || g == Open
  {
    if routes == [] then Open
    else if PatternKey(routes[0]) == key then routes[0].guard
    else
      var g := GuardIn(routes[1..], key);
      assert (exists i :: 0 <= i < |routes[1..]| && PatternKey(routes[1..][i]) == key && routes[1..][i].guard == g) ==>
        exists i :: 0 <= i < |routes| && PatternKey(routes[i]) == key && routes[i].guard == g by {
        if exists i :: 0 <= i < |routes[1..]| && PatternKey(routes[1..][i]) == key && routes[1..][i].guard == g {
          var i :| 0 <= i < |routes[1..]| && PatternKey(routes[1..][i]) == key && routes[1..][i].guard == g;
          assert routes[i + 1] == routes[1..][i];
        }
      }
      g
  }

  /** With the keys before it all different, a route's key finds that route's guard. */
  lemma {:induction false} GuardInFirst(routes: seq<Route>, i: int)
    requires 0 <= i < |routes|
    requires forall j :: 0 <= j < i ==> PatternKey(routes[j]) != PatternKey(routes[i])
    ensures GuardIn(routes, PatternKey(routes[i])) == routes[i].guard
  {
    if i > 0 {
      assert routes[1..][i - 1] == routes[i];
      GuardInFirst(routes[1..], i - 1);
    }
  }

  predicate NoUpperCase(p: string)
  {
    forall i :: 0 <= i < |p| ==> !('A' <= p[i] <= 'Z')
  }

  /** A path with no upper-case letter and no trailing slash is its own key. */
  lemma PlainPathKey(p: string)
    requires NoUpperCase(p)
    requires p == [] || p[|p| - 1] != '/'
    ensures PathKey(p) == p
  {
    assert ToLower(p) == p;
  }

  /** The table's patterns are written in lower case. */
  lemma TablePatternsLowerCase()
    ensures forall i :: 0 <= i < |RouteTable| ==> NoUpperCase(RouteTable[i].path)
  {
  }

  /** The keys the table's patterns match, in the table's order. */
  const RouteKeys: seq<string> := [
    "/login", "/register", "", "/admin/dashboard", "/admin/users", "/admin/stores",
    "/user/dashboard", "/user/stores", "/store/dashboard", "/profile", "/unauthorized", "*"
  ]

  /** No two patterns of the table match the same key. */
  lemma DistinctPatternKeys()
    ensures forall i, j :: 0 <= j < i < |RouteTable| ==> PatternKey(RouteTable[j]) != PatternKey(RouteTable[i])
  {
    PatternKeysListed();
    assert forall i, j :: 0 <= j < i < |RouteKeys| ==> RouteKeys[j] != RouteKeys[i];
  }

  lemma PatternKeysListed()
    ensures forall i :: 0 <= i < |RouteTable| ==> PatternKey(RouteTable[i]) == RouteKeys[i]
  {
    forall i | 0 <= i < |RouteTable|
      ensures PatternKey(RouteTable[i]) == RouteKeys[i]
    {
      var p := RouteTable[i].path;
      if i == 2 {
        assert p == "/";
        assert StripTrailing(p) == StripTrailing([]);
      } else {
        assert p == RouteKeys[i];
        assert p[|p| - 1] != '/';
      }
    }
  }

  /** Every path whose key is a route's pattern is served by that route. */
  lemma GuardOfKey(path: string, i: int)
    requires 0 <= i < |RouteTable| && PathKey(path) == PatternKey(RouteTable[i])
    ensures GuardOf(path) == RouteTable[i].guard
  {
    DistinctPatternKeys();
    GuardInFirst(RouteTable, i);
  }

  /** What visiting `path` renders in session `s`. */
  function Visit(s: Session, path: string): View
  {
    match GuardOf(path)
    case Public => PublicRoute(s)
    case Home => HomeRedirect(s.user)
    case Protected(roles) => ProtectedRoute(s, roles)
    case Open => Render
  }

  /** Only the key of a location decides what it renders: changing the case of its letters or
      adding a trailing slash changes nothing. */
  lemma VisitIgnoresCaseAndTrailingSlash(s: Session, path: string)
    ensures Visit(s, ToLower(path)) == Visit(s, path)
    ensures Visit(s, path + "/") == Visit(s, path)
  {
    KeyIgnoresCase(path);
    KeyIgnoresTrailingSlash(path);
  }

  lemma KeyIgnoresCase(path: string)
    ensures PathKey(ToLower(path)) == PathKey(path)
  {
    assert ToLower(ToLower(path)) == ToLower(path);
  }

  lemma KeyIgnoresTrailingSlash(path: string)
    ensures PathKey(path + "/") == PathKey(path)
  {
    var low := ToLower(path);
    assert ToLower(path + "/") == low + "/";
    assert (low + "/")[..|low|] == low;
  }

  /** Every role-specific page admits exactly one role; only /profile admits every
      signed-in user. */
  lemma RoleRoutesHaveOneRole()
    ensures forall i :: 0 <= i < |RouteTable| && RouteTable[i].guard.Protected? && RouteTable[i].path != "/profile" ==>
      |RouteTable[i].guard.allowedRoles| == 1
    ensures forall i :: 0 <= i < |RouteTable| && RouteTable[i].guard.Protected? && RouteTable[i].guard.allowedRoles == [] ==>
      RouteTable[i].path == "/profile"
  {
  }

  /** The guards of the administrator's pages, however the location is spelt. */
  lemma AdminPageGuards(path: string)
    requires PathKey(path) in ["/admin/dashboard", "/admin/users", "/admin/stores"]
    ensures GuardOf(path) == Protected([SystemAdmin])
  {
    if PathKey(path) == "/admin/dashboard" {
      GuardOfKey(path, 3);
    } else if PathKey(path) == "/admin/users" {
      GuardOfKey(path, 4);
    } else {
      GuardOfKey(path, 5);
    }
  }

  /** The guards of the normal user's pages. */
  lemma UserPageGuards(path: string)
    requires PathKey(path) in ["/user/dashboard", "/user/stores"]
    ensures GuardOf(path) == Protected([NormalUser])
  {
    if PathKey(path) == "/user/dashboard" {
      GuardOfKey(path, 6);
    } else {
      GuardOfKey(path, 7);
    }
  }

  /** The guard of the store owner's page. */
  lemma OwnerPageGuard(path: string)
    requires PathKey(path) == "/store/dashboard"
    ensures GuardOf(path) == Protected([StoreOwner])
  {
    GuardOfKey(path, 8);
  }

  /** A visitor who opens the user list, in any spelling, is sent to /login. */
  lemma VisitorSentToLogin()
    ensures Visit(Session(false, None), "/Admin/Users/") == Redirect("/login")
  {
    assert ToLower("/Admin/Users/") == "/admin/users/";
    assert "/admin/users/"[..12] == "/admin/users";
    AdminPageGuards("/Admin/Users/");
  }

  /** Each role's landing page is guarded by that role alone. */
  lemma LandingGuard(role: string)
    requires role in Roles
    ensures GuardOf(DashboardFor(role).value) == Protected([role])
  {
    PlainPathKey(DashboardFor(role).value);
    if role == SystemAdmin {
      AdminPageGuards(DashboardFor(role).value);
    } else if role == NormalUser {
      UserPageGuards(DashboardFor(role).value);
    } else {
      OwnerPageGuard(DashboardFor(role).value);
    }
  }

  /** A signed-in user may open a page guarded by their role alone. */
  lemma OwnPageRenders(role: string, path: string)
    requires GuardOf(path) == Protected([role])
    ensures Visit(Session(false, Some(role)), path) == Render
  {
  }

  /** Each role's landing page is a page that admits that role, so signing in never lands on
      /unauthorized. */
  lemma LandingPageAdmitsRole(role: string)
    requires role in Roles
    ensures Visit(Session(false, Some(role)), DashboardFor(role).value) == Render
    ensures Visit(Session(false, Some(role)), "/") == Redirect(DashboardFor(role).value)
  {
    assert ToLower("/") == "/";
    GuardOfKey("/", 2);
    LandingGuard(role);
    OwnPageRenders(role, DashboardFor(role).value);
  }

  /** A signed-in user whose role is none of the three is bounced between /login and "/"
      forever: /login sends them to "/", and "/" sends them to /login. */
  lemma UnknownRoleBounces(role: string)
    requires role !in Roles
    ensures Visit(Session(false, Some(role)), "/login") == Redirect("/")
    ensures Visit(Session(false, Some(role)), "/") == Redirect("/login")
  {
    PlainPathKey("/login");
    GuardOfKey("/login", 0);
    assert ToLower("/") == "/";
    GuardOfKey("/", 2);
  }

  /** The client shows a normal user the store list, but the server's user router, as written,
      refuses that same user every request behind it. */
  lemma StoreListPageButNoData(u: Auth.ReqUser)
    requires u.role == NormalUser
    ensures Visit(Session(false, Some(u.role)), "/user/stores") == Render
    ensures Auth.RequireRole(Some(u), Auth.UserRouteRolesAsWritten) == Auth.Forbidden
    ensures Auth.RequireRole(Some(u), Auth.UserRouteRoles) == Auth.Proceed
  {
    PlainPathKey("/user/stores");
    UserPageGuards("/user/stores");
  }
}
