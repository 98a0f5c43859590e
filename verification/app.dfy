/** The single-page client's session: what `localStorage` holds under
    'token' and 'user', the `user` state of `App` that every page reads, and
    the `loading` flag of the restore effect. The user object kept in
    storage is the one the server returned, so JSON round trips are left
    implicit. */
module App {
  import opened Common
  import opened Crypto
  import opened Server

  /** `localStorage`'s 'token' and 'user' entries; `None` when absent. */
  datatype Storage = Storage(token: Option<Token>, user: Option<User>)

  const EmptyStorage := Storage(None, None)

  /** The state shared through `setUser`: storage and the app's `user`. */
  datatype Session = Session(storage: Storage, user: Option<User>)

  /** `App`'s state: the session and whether the restore effect has run. */
  datatype AppState = AppState(session: Session, loading: bool)

  /** `App` as first rendered: no user yet, still loading. */
  function Mount(storage: Storage): (a: AppState)
    ensures a.loading && a.session.user.None? && a.session.storage == storage
  {
    AppState(Session(storage, None), true)
  }

  /** The mount effect: take the stored user when both entries are
      present, and stop loading in every case. */
  function Restore(a: AppState): (r: AppState)
    ensures !r.loading
    ensures r.session.storage == a.session.storage
    ensures a.session.storage.token.Some? && a.session.storage.user.Some? ==>
              r.session.user == a.session.storage.user
    ensures !(a.session.storage.token.Some? && a.session.storage.user.Some?) ==>
              r.session.user == a.session.user
  {
    var st := a.session.storage;
    if st.token.Some? && st.user.Some? then AppState(Session(st, st.user), false)
    else AppState(a.session, false)
  }

  /** Both logout handlers: remove both entries and clear the user. */
  function SignOut(s: Session): (r: Session)
    ensures r.storage.token.None? && r.storage.user.None? && r.user.None?
  {
    Session(EmptyStorage, None)
  }

  /** A fresh mount after a sign-out restores nobody. */
  lemma RestoreAfterSignOut(s: Session)
    ensures Restore(Mount(SignOut(s).storage)).session.user.None?
  {
  }

  /** What a route renders. */
  datatype Page =
    | HomePage | AboutPage | ServicesPage | PortfolioPage | ContactPage
    | LoginPage | RegisterPage | AdminLoginPage | AdminDashboardPage

  datatype Screen =
    | LoadingScreen          // "Loading..."
    | Navigate(to: string)   // `<Navigate to=... replace />`
    | Render(page: Page)
    | NoMatch                // no route matches: nothing is rendered

  /** `ProtectedRoute`: the loading screen first, then the login page for
      nobody, then the home page for a non-admin on an admin-only route. */
  function ProtectedRoute(loading: bool, user: Option<User>, adminOnly: bool, page: Page): (s: Screen)
    ensures loading ==> s == LoadingScreen
    ensures !loading && user.None? ==> s == Navigate("/login")
    ensures !loading && user.Some? && adminOnly && user.value.role != AdminRole ==> s == Navigate("/")
    ensures s == Render(page) <==> !loading && user.Some? && (!adminOnly || user.value.role == AdminRole)
    ensures s.Render? || s == LoadingScreen || s == Navigate("/login") || s == Navigate("/")
  {
    if loading then LoadingScreen
    else if user.None? then Navigate("/login")
    else if adminOnly && user.value.role != AdminRole then Navigate("/")
    else Render(page)
  }

  /** How a route's element is built: directly, or inside `ProtectedRoute`. */
  datatype Guard = Open | Protected(adminOnly: bool)

  datatype Route = Route(path: string, page: Page, guard: Guard)

  /** The route table. */
  const Routes: seq<Route> := [
    Route("/", HomePage, Open),
    Route("/about", AboutPage, Open),
    Route("/services", ServicesPage, Open),
    Route("/portfolio", PortfolioPage, Open),
    Route("/contact", ContactPage, Open),
    Route("/login", LoginPage, Open),
    Route("/register", RegisterPage, Open),
    Route("/admin/login", AdminLoginPage, Open),
    Route("/admin/dashboard", AdminDashboardPage, Protected(true))
  ]

  /** Letter case as the router's case-insensitive pattern ignores it. The
      route paths are ASCII, and a non-ASCII character never folds onto an
      ASCII one, so folding the ASCII capitals is enough. */
  function Lower(c: char): (r: char)
    ensures 'A' <= c <= 'Z' ==> r as int == c as int + 32
    ensures !('A' <= c <= 'Z') ==> r == c
  {
    if 'A' <= c <= 'Z' then (c as int + 32) as char else c
  }

  function LowerAll(s: string): (r: string)
    ensures |r| == |s|
  {
    seq(|s|, k requires 0 <= k < |s| => Lower(s[k]))
  }

  /** `s` without its trailing slashes. */
  function TrimSlashes(s: string): (r: string)
    ensures r <= s
    ensures |r| == 0 || r[|r| - 1] != '/'
    ensures forall k :: |r| <= k < |s| ==> s[k] == '/'
    decreases |s|
  {
    if |s| > 0 && s[|s| - 1] == '/' then TrimSlashes(s[..|s| - 1]) else s
  }

  /** The form in which the router compares a location with a route path:
      capitals folded and trailing slashes dropped. A route path `p` is
      compiled to a case-insensitive pattern that accepts `p` followed by
      any run of slashes, and an empty location is read as "/", so a
      location matches exactly when the two agree here. */
  function Canon(path: string): (r: string)
    ensures |r| <= |path|
    ensures |r| == 0 || r[|r| - 1] != '/'
  {
    TrimSlashes(LowerAll(path))
  }

  /** The first route from position `i` on whose path matches `path`. */
  function FindRoute(routes: seq<Route>, path: string, i: nat): (r: Option<Route>)
    ensures r.Some? ==> r.value in routes && Canon(r.value.path) == Canon(path)
    ensures r.None? ==> forall k :: i <= k < |routes| ==> Canon(routes[k].path) != Canon(path)
    decreases |routes| - i
  {
    if i >= |routes| then None
    else if Canon(routes[i].path) == Canon(path) then Some(routes[i])
    else FindRoute(routes, path, i + 1)
  }

  /** What the app shows at `path`, the location's decoded pathname. */
  function Visit(a: AppState, path: string): (s: Screen)
    ensures s == NoMatch <==> forall i :: 0 <= i < |Routes| ==> Canon(Routes[i].path) != Canon(path)
  {
    match FindRoute(Routes, path, 0)
    case None => NoMatch
    case Some(route) =>
      match route.guard
      case Open => Render(route.page)
      case Protected(adminOnly) => ProtectedRoute(a.loading, a.session.user, adminOnly, route.page)
  }

  /** The partner of `Canon`: a location agrees with a canonical key `q`
      exactly when, capitals folded, it is `q` followed by slashes only,
      which is what the compiled pattern accepts. */
  lemma CanonMatchesPattern(path: string, q: string)
    requires forall k :: 0 <= k < |q| ==> !('A' <= q[k] <= 'Z')
    requires |q| == 0 || q[|q| - 1] != '/'
    ensures Canon(path) == q <==>
              |q| <= |path| && LowerAll(path)[..|q|] == q &&
              forall k :: |q| <= k < |path| ==> path[k] == '/'
  {
    var l := LowerAll(path);
    var r := TrimSlashes(l);
    if |q| <= |path| && l[..|q|] == q && forall k :: |q| <= k < |path| ==> path[k] == '/' {
      assert |r| == |q|;
      assert r == l[..|r|];
    }
    if r == q {
      forall k | |q| <= k < |path|
        ensures path[k] == '/'
      {
        assert l[k] == '/' == Lower(path[k]);
      }
    }
  }

  /** A route path written in lower case without a trailing slash is its
      own key; the root's key is empty. */
  lemma RouteKeys()
    ensures Canon("/") == ""
    ensures forall i :: 1 <= i < |Routes| ==> Canon(Routes[i].path) == Routes[i].path
  {
    CanonMatchesPattern("/", "");
    forall i | 1 <= i < |Routes|
      ensures Canon(Routes[i].path) == Routes[i].path
    {
      KeyOfLowerCase(Routes[i].path);
    }
  }

  lemma KeyOfLowerCase(q: string)
    requires forall k :: 0 <= k < |q| ==> !('A' <= q[k] <= 'Z')
    requires |q| == 0 || q[|q| - 1] != '/'
    ensures Canon(q) == q
  {
    CanonMatchesPattern(q, q);
  }

  /** The dashboard is the only guarded route, and it is admin-only. */
  lemma OnlyDashboardIsGuarded()
    ensures forall i :: 0 <= i < |Routes| ==>
              (Routes[i].guard.Protected? <==> Canon(Routes[i].path) == "/admin/dashboard")
    ensures forall i :: 0 <= i < |Routes| && Routes[i].guard.Protected? ==> Routes[i].guard.adminOnly
  {
    RouteKeys();
  }

  /** Every path that does not lead to the dashboard renders the same
      screen whoever is signed in. */
  lemma OpenRoutesIgnoreSession(a: AppState, b: AppState, path: string)
    requires Canon(path) != "/admin/dashboard"
    ensures Visit(a, path) == Visit(b, path)
  {
    OnlyDashboardIsGuarded();
    var r := FindRoute(Routes, path, 0);
    if r.Some? {
      assert r.value.guard == Open;
    }
  }

  /** The search stops at the first route whose key is the path's. */
  lemma {:induction false} FindRouteFirst(routes: seq<Route>, path: string, i: nat, k: nat)
    requires i <= k < |routes| && Canon(routes[k].path) == Canon(path)
    requires forall m :: i <= m < k ==> Canon(routes[m].path) != Canon(path)
    ensures FindRoute(routes, path, i) == Some(routes[k])
    decreases k - i
  {
    if i != k {
      FindRouteFirst(routes, path, i + 1, k);
    }
  }

  /** The dashboard's key is longer than every other route's. */
  lemma DashboardKeyIsLongest()
    ensures Canon(Routes[8].path) == "/admin/dashboard"
    ensures forall m :: 0 <= m < 8 ==> |Canon(Routes[m].path)| < 16
  {
    RouteKeys();
    assert Routes[0].path == "/";
  }

  /** Every spelling of the dashboard's path (any letter case, trailing
      slashes): loading, then login for nobody, home for a non-admin, the
      dashboard for an admin. */
  lemma VisitDashboard(a: AppState, path: string)
    requires Canon(path) == "/admin/dashboard"
    ensures Visit(a, path) ==
      if a.loading then LoadingScreen
      else if a.session.user.None? then Navigate("/login")
      else if a.session.user.value.role != AdminRole then Navigate("/")
      else Render(AdminDashboardPage)
  {
    FindDashboard(path);
  }

  /** Every spelling of the dashboard's path finds the dashboard's route. */
  lemma FindDashboard(path: string)
    requires Canon(path) == "/admin/dashboard"
    ensures FindRoute(Routes, path, 0) == Some(Routes[8])
  {
    DashboardKeyIsLongest();
    FindRouteFirst(Routes, path, 0, 8);
  }

  /** A capitalised path reaches the page of its lower-case spelling. */
  lemma VisitIgnoresCase(a: AppState)
    ensures Visit(a, "/About") == Render(AboutPage)
  {
    FindAbout();
  }

  lemma FindAbout()
    ensures FindRoute(Routes, "/About", 0) == Some(Routes[1])
  {
    CanonOfAbout();
    CanonMatchesPattern("/about", "/about");
    CanonMatchesPattern("/", "");
    var r0, r1 := Routes[0], Routes[1];
    assert r0.path == "/" && r1.path == "/about";
    FindRouteFirst(Routes, "/About", 0, 1);
  }

  lemma CanonOfAbout()
    ensures Canon("/About") == "/about"
  {
    var l := LowerAll("/About");
    assert l[1] == 'a';
    assert l == "/about";
    CanonMatchesPattern("/About", "/about");
  }

  /** A trailing slash and capitals still lead to the dashboard's guard. */
  lemma VisitIgnoresSlash(a: AppState)
    ensures Visit(a, "/Admin/Dashboard/") == Visit(a, "/admin/dashboard")
  {
    var l := LowerAll("/Admin/Dashboard/");
    assert l[1] == 'a' && l[7] == 'd';
    assert l[..16] == "/admin/dashboard";
    CanonMatchesPattern("/Admin/Dashboard/", "/admin/dashboard");
    DashboardKeyIsLongest();
    VisitDashboard(a, "/Admin/Dashboard/");
    VisitDashboard(a, "/admin/dashboard");
  }
}
