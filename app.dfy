/**
 * The route table and its guard: which paths render which page, and the
 * three-way decision `PrivateRoute` makes over the session.
 */
module App {
  import opened Wrappers
  import opened Identity
  import opened ApiConfigs
  import opened AuthContext

  /** What `PrivateRoute` renders. */
  datatype Guard = LoadingScreen | Children | RedirectTo(path: string)

  /** `PrivateRoute`: wait while loading, then the children for a user, else the login page. */
  function PrivateRoute(loading: bool, user: Option<User>): (r: Guard)
    ensures r == LoadingScreen <==> loading
    ensures r == Children <==> !loading && user.Some?
    ensures r == RedirectTo("/login") <==> !loading && user.None?
  {
    if loading then LoadingScreen
    else if user.Some? then Children
    else RedirectTo("/login")
  }

  datatype Page =
    | HomePage | LoginPage | SignUpPage | AboutPage | EventsPage | GalleryPage
    | NewsPage | ContactPage | DashboardPage | ProfilePage | NotFoundPage

  /**
   * A route path matches a location case-insensitively and whatever run of
   * trailing slashes follows it, so the table is looked up by this key.
   */
  function Canonical(path: string): (c: string)
    ensures c != ""
    ensures c == "/" <==> forall i :: 0 <= i < |path| ==> path[i] == '/'
  {
    var t := StripTrailingSlashes(path);
    if t == "" then "/" else LowerAscii(t)
  }

  /** `path` without the run of `/` it ends in. */
  function StripTrailingSlashes(path: string): (r: string)
    ensures r <= path
    ensures r == "" || r[|r| - 1] != '/'
    ensures forall i :: |r| <= i < |path| ==> path[i] == '/'
  {
    if path != "" && path[|path| - 1] == '/' then StripTrailingSlashes(path[..|path| - 1])
    else path
  }

  /** ASCII case folding: `A`..`Z` become `a`..`z`, everything else stays. */
  function LowerChar(ch: char): (r: char)
    ensures 'A' <= ch <= 'Z' ==> r as int == ch as int + 32
    ensures !('A' <= ch <= 'Z') ==> r == ch
  {
    if 'A' <= ch <= 'Z' then (ch as int + 32) as char else ch
  }

  function LowerAscii(s: string): (r: string)
    ensures |r| == |s|
    ensures forall i :: 0 <= i < |s| ==> r[i] == LowerChar(s[i])
  {
    seq(|s|, i requires 0 <= i < |s| => LowerChar(s[i]))
  }

  /** The paths the `<Routes>` table lists before its catch-all. */
  const RoutePaths: set<string> :=
    {"/", "/login", "/signup", "/about", "/events", "/gallery", "/news", "/contact", "/dashboard", "/profile"}

  /** The `<Routes>` table; the catch-all renders `NotFound`. */
  function RouteOf(path: string): (p: Page)
    ensures p == HomePage <==> Canonical(path) == "/"
    ensures p == LoginPage <==> Canonical(path) == "/login"
    ensures p == SignUpPage <==> Canonical(path) == "/signup"
    ensures p == AboutPage <==> Canonical(path) == "/about"
    ensures p == EventsPage <==> Canonical(path) == "/events"
    ensures p == GalleryPage <==> Canonical(path) == "/gallery"
    ensures p == NewsPage <==> Canonical(path) == "/news"
    ensures p == ContactPage <==> Canonical(path) == "/contact"
    ensures p == DashboardPage <==> Canonical(path) == "/dashboard"
    ensures p == ProfilePage <==> Canonical(path) == "/profile"
    ensures p == NotFoundPage <==> Canonical(path) !in RoutePaths
  {
    var c := Canonical(path);
    if c == "/" then HomePage
    else if c == "/login" then LoginPage
    else if c == "/signup" then SignUpPage
    else if c == "/about" then AboutPage
    else if c == "/events" then EventsPage
    else if c == "/gallery" then GalleryPage
    else if c == "/news" then NewsPage
    else if c == "/contact" then ContactPage
    else if c == "/dashboard" then DashboardPage
    else if c == "/profile" then ProfilePage
    else NotFoundPage
  }

  /** A trailing slash never changes the page. */
  lemma TrailingSlashIgnored(path: string)
    ensures RouteOf(path + "/") == RouteOf(path)
  {
    assert (path + "/")[..|path|] == path;
  }

  /** Folding the case of a location never changes the page. */
  lemma CaseIgnored(path: string)
    ensures RouteOf(LowerAscii(path)) == RouteOf(path)
  {
    StripCommutesWithLower(path);
    assert LowerAscii(LowerAscii(StripTrailingSlashes(path))) == LowerAscii(StripTrailingSlashes(path));
  }

  lemma {:induction false} StripCommutesWithLower(path: string)
    ensures StripTrailingSlashes(LowerAscii(path)) == LowerAscii(StripTrailingSlashes(path))
    decreases |path|
  {
    if path != "" {
      var init := path[..|path| - 1];
      assert LowerAscii(path)[..|path| - 1] == LowerAscii(init);
      if path[|path| - 1] == '/' {
        StripCommutesWithLower(init);
      }
    }
  }

  /** `/Dashboard` and `/profile/` reach the member pages. */
  lemma MemberPathsMatchLoosely()
    ensures RouteOf("/Dashboard") == DashboardPage
    ensures RouteOf("/profile/") == ProfilePage
  {
    assert StripTrailingSlashes("/Dashboard") == "/Dashboard";
    assert LowerAscii("/Dashboard") == "/dashboard";
    assert "/profile/"[..|"/profile/"| - 1] == "/profile";
    assert StripTrailingSlashes("/profile") == "/profile";
    assert LowerAscii("/profile") == "/profile";
  }

  /** Only the member pages sit behind `PrivateRoute`. */
  predicate Protected(p: Page) {
    p == DashboardPage || p == ProfilePage
  }

  datatype Rendered = Show(page: Page) | Spinner | Redirect(to: string)

  /** What navigating to `path` shows, for the session's `loading` and `user`. */
  function Render(path: string, loading: bool, user: Option<User>): (r: Rendered)
    ensures !Protected(RouteOf(path)) ==> r == Show(RouteOf(path))
    ensures Protected(RouteOf(path)) ==>
      (r == Spinner <==> loading) &&
      (r == Show(RouteOf(path)) <==> !loading && user.Some?) &&
      (r == Redirect("/login") <==> !loading && user.None?)
  {
    var p := RouteOf(path);
    if !Protected(p) then Show(p)
    else match PrivateRoute(loading, user)
      case LoadingScreen => Spinner
      case Children => Show(p)
      case RedirectTo(to) => Redirect(to)
  }

  /** Public pages, and the not-found page, render the same whatever the session. */
  lemma PublicPathsIgnoreSession(path: string, l1: bool, u1: Option<User>, l2: bool, u2: Option<User>)
    requires Canonical(path) != "/dashboard" && Canonical(path) != "/profile"
    ensures Render(path, l1, u1) == Render(path, l2, u2)
  {
  }

  /** The guard's redirect lands on a public page, so it cannot loop. */
  lemma RedirectTargetIsPublic(path: string, loading: bool, user: Option<User>)
    ensures Render(path, loading, user).Redirect? ==>
      !Protected(RouteOf(Render(path, loading, user).to)) &&
      Render(Render(path, loading, user).to, loading, user) == Show(LoginPage)
  {
    assert StripTrailingSlashes("/login") == "/login";
    assert LowerAscii("/login") == "/login";
  }

  /**
   * Once `checkUser` has run, no protected page is stuck on the spinner:
   * it shows, or it redirects to the login page.
   */
  lemma SettledSessionNeverSpins(s: Session, me: Response<User>, path: string)
    ensures Render(path, CheckUserSpec(s, me).loading, CheckUserSpec(s, me).user) != Spinner
    ensures Protected(RouteOf(path)) && Fetches(s) && me.Failed? ==>
      Render(path, CheckUserSpec(s, me).loading, CheckUserSpec(s, me).user) == Redirect("/login")
  {
  }
}
