/** The application's routes and the two guards in front of them:
    `ProtectedRoute`, which needs a signed-in user and optionally a role,
    and `PublicRoute`, which sends signed-in users to their home page. */
module Routes {
  import opened Base
  import opened Auth

  /** The role a protected route may demand. */
  datatype RequiredRole = NeedsAdmin | NeedsUser {
    function Name(): string {
      match this
      case NeedsAdmin => AdminRole
      case NeedsUser => UserRole
    }
  }

  /** What the auth context offers a guard. */
  datatype AuthView = AuthView(loading: bool, user: Option<User>, profile: Option<Profile>)

  /** What a guard renders: the loading spinner, nothing at all, the guarded
      page, or a redirect. */
  datatype Decision = Spinner | Nothing | Render | Redirect(to: string)

  datatype Page = AuthPage | AdminPage | DashboardPage | ContactsPage | ProfilePage | NotFoundPage

  /** How a route is guarded. */
  datatype Guard = Public | Protected(allowed: Option<RequiredRole>) | Open

  datatype Route = Route(guard: Guard, page: Page)

  /** `profile?.role`: the role of the profile, absent when there is no profile. */
  function RoleOf(a: AuthView): Option<string> {
    if a.profile.Some? then a.profile.value.role else None
  }

  /** `ProtectedRoute`. */
  function ProtectedRoute(a: AuthView, allowed: Option<RequiredRole>): (d: Decision)
    ensures a.loading ==> d == Spinner
    ensures !a.loading && a.user.None? ==> d == Redirect("/auth")
    ensures d == Render <==>
      !a.loading && a.user.Some? && (allowed.None? || RoleOf(a) == Some(allowed.value.Name()))
    ensures d == Redirect("/admin") <==>
      !a.loading && a.user.Some? && allowed == Some(NeedsUser) && RoleOf(a) == Some(AdminRole)
    ensures d == Redirect("/") <==>
      !a.loading && a.user.Some? && allowed.Some?
      && RoleOf(a) != Some(allowed.value.Name()) && RoleOf(a) != Some(AdminRole)
  {
    if a.loading then Spinner
    else if a.user.None? then Redirect("/auth")
    else if allowed.Some? && RoleOf(a) != Some(allowed.value.Name()) then
      if RoleOf(a) == Some(AdminRole) then Redirect("/admin") else Redirect("/")
    else Render
  }

  /** `PublicRoute`. */
  function PublicRoute(a: AuthView): (d: Decision)
    ensures a.loading <==> d == Nothing
    ensures d == Redirect("/admin") <==> !a.loading && a.user.Some? && RoleOf(a) == Some(AdminRole)
    ensures d == Redirect("/") <==> !a.loading && a.user.Some? && RoleOf(a) == Some(UserRole)
    ensures d == Render <==>
      !a.loading && (a.user.None? || (RoleOf(a) != Some(AdminRole) && RoleOf(a) != Some(UserRole)))
  {
    if a.loading then Nothing
    else if a.user.Some? && RoleOf(a) == Some(AdminRole) then Redirect("/admin")
    else if a.user.Some? && RoleOf(a) == Some(UserRole) then Redirect("/")
    else Render
  }

  /** An ASCII capital letter as its small letter; every other character as is. */
  function LowerAscii(c: char): (l: char)
    ensures 'A' <= c <= 'Z' ==> l as int == c as int + 32
    ensures !('A' <= c <= 'Z') ==> l == c
  {
    if 'A' <= c <= 'Z' then (c as int + 32) as char else c
  }

  /** `path` with its trailing slashes dropped, except for the first character. */
  function DropTrailingSlashes(path: string): (k: string)
    ensures |k| <= |path| && k == path[..|k|]
    ensures forall i :: |k| <= i < |path| ==> path[i] == '/'
    ensures |k| > 1 ==> k[|k| - 1] != '/'
    ensures k == [] ==> path == []
  {
    if |path| > 1 && path[|path| - 1] == '/' then DropTrailingSlashes(path[..|path| - 1]) else path
  }

  /** The form in which the router compares a path with a route's pattern: no
      `<Route>` asks for a case-sensitive match, so ASCII letters are compared
      without case, and any number of trailing slashes is accepted. */
  function MatchKey(path: string): (k: string)
    ensures |k| <= |path|
    ensures forall i :: 0 <= i < |k| ==> k[i] == LowerAscii(path[i]) && !('A' <= k[i] <= 'Z')
    ensures forall i :: |k| <= i < |path| ==> path[i] == '/'
    ensures |k| > 1 ==> k[|k| - 1] != '/'
    ensures k == [] ==> path == []
  {
    var lower := seq(|path|, i requires 0 <= i < |path| => LowerAscii(path[i]));
    assert forall i :: 0 <= i < |path| && lower[i] == '/' ==> path[i] == '/';
    DropTrailingSlashes(lower)
  }

  /** Matching a key again changes nothing. */
  lemma MatchKeyIdempotent(path: string)
    ensures MatchKey(MatchKey(path)) == MatchKey(path)
  {
    var k := MatchKey(path);
    var lower := seq(|k|, i requires 0 <= i < |k| => LowerAscii(k[i]));
    assert lower == k;
  }

  /** The five route patterns are their own keys. */
  lemma PatternKeys()
    ensures MatchKey("/auth") == "/auth" && MatchKey("/admin") == "/admin"
    ensures MatchKey("/") == "/" && MatchKey("/contacts") == "/contacts"
    ensures MatchKey("/profile") == "/profile"
  {
    var pats := ["/auth", "/admin", "/", "/contacts", "/profile"];
    forall j | 0 <= j < |pats| ensures MatchKey(pats[j]) == pats[j] {
      var p := pats[j];
      var lower := seq(|p|, i requires 0 <= i < |p| => LowerAscii(p[i]));
      assert lower == p;
    }
    assert pats[0] == "/auth" && pats[1] == "/admin" && pats[2] == "/";
    assert pats[3] == "/contacts" && pats[4] == "/profile";
  }

  /** The route table: which page a path shows and which guard stands in
      front, chosen by the path's match key. */
  function RouteFor(path: string): (r: Route)
    ensures r.page == NotFoundPage <==> MatchKey(path) !in {"/auth", "/admin", "/", "/contacts", "/profile"}
    ensures r.guard.Public? <==> r.page == AuthPage
    ensures r.guard.Open? <==> r.page == NotFoundPage
  {
    var key := MatchKey(path);
    if key == "/auth" then Route(Public, AuthPage)
    else if key == "/admin" then Route(Protected(Some(NeedsAdmin)), AdminPage)
    else if key == "/" then Route(Protected(Some(NeedsUser)), DashboardPage)
    else if key == "/contacts" then Route(Protected(Some(NeedsUser)), ContactsPage)
    else if key == "/profile" then Route(Protected(None), ProfilePage)
    else Route(Open, NotFoundPage)
  }

  /** A path reaches the same route as its match key, so letter case and
      trailing slashes never change which page is shown. */
  lemma RouteForIgnoresCaseAndSlashes(path: string, a: AuthView)
    ensures RouteFor(path) == RouteFor(MatchKey(path))
    ensures Visit(path, a) == Visit(MatchKey(path), a)
  {
    MatchKeyIdempotent(path);
  }

  /** The four paths that need a signed-in user. */
  const ProtectedPaths: set<string> := {"/admin", "/", "/contacts", "/profile"}

  /** What visiting `path` shows, through the guard its match key selects: a
      path matching no route always renders (the not-found page), while
      loading the sign-in page shows nothing and the protected pages a
      spinner, a signed-out visitor is sent to the sign-in page from exactly
      the protected paths, and no redirect leads anywhere but the sign-in
      page, the admin page or the dashboard. */
  function Visit(path: string, a: AuthView): (d: Decision)
    ensures RouteFor(path).page == NotFoundPage ==> d == Render
    ensures a.loading && MatchKey(path) == "/auth" ==> d == Nothing
    ensures a.loading && MatchKey(path) in ProtectedPaths ==> d == Spinner
    ensures d == Redirect("/auth") <==> !a.loading && a.user.None? && MatchKey(path) in ProtectedPaths
    ensures d.Redirect? ==> d.to in {"/auth", "/admin", "/"}
  {
    match RouteFor(path).guard
    case Public => PublicRoute(a)
    case Protected(allowed) => ProtectedRoute(a, allowed)
    case Open => Render
  }

  /** A signed-in, loaded user whose profile role is one the app knows. */
  predicate KnownRoleSignedIn(a: AuthView) {
    !a.loading && a.user.Some? && RoleOf(a) in {Some(AdminRole), Some(UserRole)}
  }

  /** The admin page is only ever rendered for an admin, the user pages only
      for a user, and the profile page for any signed-in user, however the
      path is written. */
  lemma RenderMatchesRole(path: string, a: AuthView)
    requires Visit(path, a) == Render
    ensures MatchKey(path) == "/admin" ==> a.user.Some? && RoleOf(a) == Some(AdminRole)
    ensures MatchKey(path) in {"/", "/contacts"} ==> a.user.Some? && RoleOf(a) == Some(UserRole)
    ensures MatchKey(path) == "/profile" ==> a.user.Some?
    ensures MatchKey(path) == "/auth" ==> a.user.None? || RoleOf(a) !in {Some(AdminRole), Some(UserRole)}
  {
  }

  /** The converse of `RenderMatchesRole`, once loading is over: the admin
      page renders for exactly the admins, the user pages for exactly the
      users, the profile page for anyone signed in, and the sign-in page for
      exactly the visitors who are signed out or have no known role. */
  lemma RenderIffRole(path: string, a: AuthView)
    requires !a.loading
    ensures MatchKey(path) == "/admin" ==>
      (Visit(path, a) == Render <==> a.user.Some? && RoleOf(a) == Some(AdminRole))
    ensures MatchKey(path) in {"/", "/contacts"} ==>
      (Visit(path, a) == Render <==> a.user.Some? && RoleOf(a) == Some(UserRole))
    ensures MatchKey(path) == "/profile" ==> (Visit(path, a) == Render <==> a.user.Some?)
    ensures MatchKey(path) == "/auth" ==>
      (Visit(path, a) == Render <==> a.user.None? || RoleOf(a) !in {Some(AdminRole), Some(UserRole)})
  {
  }

  /** A signed-out visitor who writes a user page with capitals and a
      trailing slash is still sent to the sign-in page, not shown the
      not-found page. */
  lemma MixedCasePathIsGuarded()
    ensures RouteFor("/Contacts/").page == ContactsPage
    ensures Visit("/Contacts/", AuthView(false, None, None)) == Redirect("/auth")
  {
    var p := "/Contacts/";
    var lower := seq(|p|, i requires 0 <= i < |p| => LowerAscii(p[i]));
    assert lower == "/contacts/";
    assert DropTrailingSlashes(lower) == "/contacts";
  }

  /** Whatever the role, a loaded signed-in user sees the profile page. */
  lemma ProfileForAnyRole(a: AuthView)
    requires !a.loading && a.user.Some?
    ensures Visit("/profile", a) == Render
  {
    PatternKeys();
  }

  /** For a signed-in admin or user, every redirect a guard issues lands on a
      page that renders: no guard sends such a user round in a loop. */
  lemma RedirectsSettle(path: string, a: AuthView)
    requires KnownRoleSignedIn(a)
    requires Visit(path, a).Redirect?
    ensures Visit(Visit(path, a).to, a) == Render
  {
    PatternKeys();
  }

  /** A signed-in user whose profile is missing, or whose role is neither
      "admin" nor "user", is sent from "/" to "/" again, and from the other
      role pages to "/"; only the sign-in and profile pages (and unknown
      paths) render for them. */
  lemma UnknownRoleRedirectsToItself(a: AuthView)
    requires !a.loading && a.user.Some?
    requires RoleOf(a) != Some(AdminRole) && RoleOf(a) != Some(UserRole)
    ensures Visit("/", a) == Redirect("/")
    ensures Visit("/admin", a) == Redirect("/") && Visit("/contacts", a) == Redirect("/")
    ensures Visit("/auth", a) == Render && Visit("/profile", a) == Render
  {
    PatternKeys();
  }
}
