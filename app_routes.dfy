/** The route table of src/App.tsx and what a path shows for a session. A path is matched segment
    by segment, ignoring ASCII letter case as React Router does; the model also ignores empty
    segments (React Router tolerates only a trailing slash); a static segment ("new") outranks a
    dynamic one (":id"). */
module AppRoutes {
  import opened Wrappers
  import opened Text
  import opened Seqs
  import opened AuthContext
  import opened ProtectedRoute

  datatype Page =
    | LoginPage
    | IndexPage
    | ProjectsPage
    | ProjectDetailPage(id: string)
    | ProjectFormPage
    | TasksPage
    | ReportsPage
    | SettingsPage
    | DashboardPage
    | UsersPage
    | NotFoundPage

  /** A page and its guard: `None` for an unguarded route, `Some(requiresManager)` for one nested
      under a `ProtectedRoute`. */
  datatype Route = Route(page: Page, guard: Option<bool>)

  function Segments(path: string): seq<string>
  {
    Filter(Split(path, '/'), (seg: string) => seg != "")
  }

  /** The table as written, over a path's segments: "/dashboard" and "/users" sit under the
      manager-only guard. */
  function RouteForSegments(segs: seq<string>): (r: Route)
    ensures r.page == LoginPage ==> r.guard.None?
    ensures r.page == NotFoundPage ==> r.guard.None?
    ensures r.page in {DashboardPage, UsersPage} ==> r.guard == Some(true)
    ensures r.page !in {LoginPage, NotFoundPage, DashboardPage, UsersPage} ==> r.guard == Some(false)
  {
    if |segs| == 0 then Route(IndexPage, Some(false))
    else if |segs| == 1 then
      match Lower(segs[0])
      case "login" => Route(LoginPage, None)
      case "projects" => Route(ProjectsPage, Some(false))
      case "tasks" => Route(TasksPage, Some(false))
      case "reports" => Route(ReportsPage, Some(false))
      case "settings" => Route(SettingsPage, Some(false))
      case "dashboard" => Route(DashboardPage, Some(true))
      case "users" => Route(UsersPage, Some(true))
      case _ => Route(NotFoundPage, None)
    else if |segs| == 2 && Lower(segs[0]) == "projects" then
      if Lower(segs[1]) == "new" then Route(ProjectFormPage, Some(false))
      else Route(ProjectDetailPage(segs[1]), Some(false))
    else Route(NotFoundPage, None)
  }

  function RouteOf(path: string): Route
  {
    RouteForSegments(Segments(path))
  }

  /** What the browser shows at a path: a page, the guard's spinner, or a redirect. */
  datatype Screen = Show(page: Page) | Loading | RedirectTo(target: string)

  function ScreenFor(route: Route, s: Session): (sc: Screen)
    ensures route.guard.None? ==> sc == Show(route.page)
    ensures sc.Show? ==> sc.page == route.page
  {
    match route.guard
    case None => Show(route.page)
    case Some(requiresManager) =>
      match Decide(s, requiresManager)
      case Spinner => Loading
      case Redirect(to, _) => RedirectTo(to)
      case Layout => Show(route.page)
  }

  function Navigate(path: string, s: Session): Screen
  {
    ScreenFor(RouteOf(path), s)
  }

  lemma SegmentsOfRoot()
    ensures Segments("/") == []
  {
    assert "/" == [] + ['/'] + [];
    SplitAtSeparator([], [], '/');
  }

  lemma SegmentsOfSimplePath(name: string)
    requires name != "" && '/' !in name
    ensures Segments("/" + name) == [name]
  {
    assert "/" + name == [] + ['/'] + name;
    SplitAtSeparator([], name, '/');
    SplitNoSeparator(name, '/');
    FilterAppend([""], [name], (seg: string) => seg != "");
  }

  lemma SegmentsOfPairPath(a: string, b: string)
    requires a != "" && '/' !in a && b != "" && '/' !in b
    ensures Segments("/" + a + "/" + b) == [a, b]
  {
    var ab := a + ['/'] + b;
    assert "/" + a + "/" + b == [] + ['/'] + ab;
    SplitAtSeparator([], ab, '/');
    SplitAtSeparator(a, b, '/');
    SplitNoSeparator(a, '/');
    SplitNoSeparator(b, '/');
    assert Split("/" + a + "/" + b, '/') == [""] + [a, b];
    FilterAppend([""], [a, b], (seg: string) => seg != "");
    FilterAll([a, b], (seg: string) => seg != "");
  }

  lemma SegmentsOfTriplePath(a: string, b: string, c: string)
    requires a != "" && '/' !in a && b != "" && '/' !in b && c != "" && '/' !in c
    ensures Segments("/" + a + "/" + b + "/" + c) == [a, b, c]
  {
    var bc := b + ['/'] + c;
    var abc := a + ['/'] + bc;
    assert "/" + a + "/" + b + "/" + c == [] + ['/'] + abc;
    SplitAtSeparator([], abc, '/');
    SplitAtSeparator(a, bc, '/');
    SplitAtSeparator(b, c, '/');
    SplitNoSeparator(a, '/');
    SplitNoSeparator(b, '/');
    SplitNoSeparator(c, '/');
    assert Split("/" + a + "/" + b + "/" + c, '/') == [""] + [a, b, c];
    FilterAppend([""], [a, b, c], (seg: string) => seg != "");
    FilterAll([a, b, c], (seg: string) => seg != "");
  }

  /** The table itself: "/login" is unguarded, seven paths need a signed-in user, "/dashboard" and
      "/users" need a manager, and anything else is the unguarded NotFound page. */
  lemma RouteTable(id: string, other: seq<string>)
    requires Lower(id) != "new"
    requires |other| >= 3
    ensures RouteForSegments(["login"]) == Route(LoginPage, None)
    ensures RouteForSegments([]) == Route(IndexPage, Some(false))
    ensures RouteForSegments(["projects"]) == Route(ProjectsPage, Some(false))
    ensures RouteForSegments(["projects", id]) == Route(ProjectDetailPage(id), Some(false))
    ensures RouteForSegments(["projects", "new"]) == Route(ProjectFormPage, Some(false))
    ensures RouteForSegments(["tasks"]) == Route(TasksPage, Some(false))
    ensures RouteForSegments(["reports"]) == Route(ReportsPage, Some(false))
    ensures RouteForSegments(["settings"]) == Route(SettingsPage, Some(false))
    ensures RouteForSegments(["dashboard"]) == Route(DashboardPage, Some(true))
    ensures RouteForSegments(["users"]) == Route(UsersPage, Some(true))
    ensures RouteForSegments(other) == Route(NotFoundPage, None)
  {
    LowerOfLowerCase("login");
    LowerOfLowerCase("projects");
    LowerOfLowerCase("new");
    LowerOfLowerCase("tasks");
    LowerOfLowerCase("reports");
    LowerOfLowerCase("settings");
    LowerOfLowerCase("dashboard");
    LowerOfLowerCase("users");
  }

  /** "/login" is reachable without any guard. */
  lemma LoginPathUnguarded(path: string)
    requires path == "/login"
    ensures RouteOf(path) == Route(LoginPage, None)
  {
    assert Segments(path) == ["login"] by {
      SegmentsOfSimplePath("login");
    }
    assert RouteForSegments(["login"]) == Route(LoginPage, None) by {
      LowerOfLowerCase("login");
    }
  }

  /** "/dashboard" needs the manager role. */
  lemma DashboardPathManagerOnly(path: string)
    requires path == "/dashboard"
    ensures RouteOf(path) == Route(DashboardPage, Some(true))
  {
    assert Segments(path) == ["dashboard"] by {
      SegmentsOfSimplePath("dashboard");
    }
    assert RouteForSegments(["dashboard"]) == Route(DashboardPage, Some(true)) by {
      LowerOfLowerCase("dashboard");
    }
  }

  /** "/projects/edit/:id", where ProjectDetail's Edit button leads, matches no route. */
  lemma EditPathNotFound(path: string, id: string)
    requires id != "" && '/' !in id && path == "/projects/edit/" + id
    ensures RouteOf(path) == Route(NotFoundPage, None)
  {
    assert path == "/" + "projects" + "/" + "edit" + "/" + id;
    SegmentsOfTriplePath("projects", "edit", id);
  }

  /** As written, a signed-in non-manager sent to "/dashboard" (where the login page sends every
      user) is redirected to "/dashboard" again: the redirect is its own target. */
  lemma DashboardRedirectLoops(s: Session)
    requires !s.isLoading && IsAuthenticated(s) && !IsManager(s)
    ensures Navigate("/dashboard", s) == RedirectTo("/dashboard")
  {
    DashboardPathManagerOnly("/dashboard");
  }

  /** The evidently intended table: "/dashboard" (whose page has an employee view and which the
      sidebar offers to everyone) needs a signed-in user only. */
  function IntendedRouteOf(path: string): (r: Route)
    ensures r.page == DashboardPage ==> r.guard == Some(false)
    ensures r.page != DashboardPage ==> r == RouteOf(path)
  {
    var written := RouteOf(path);
    if written.page == DashboardPage then Route(DashboardPage, Some(false)) else written
  }

  function IntendedNavigate(path: string, s: Session): Screen
  {
    ScreenFor(IntendedRouteOf(path), s)
  }

  /** With the intended table every redirect settles: the target of a redirect shows a page. */
  lemma IntendedRedirectsSettle(path: string, s: Session)
    requires !s.isLoading
    requires IntendedNavigate(path, s).RedirectTo?
    ensures IntendedNavigate(IntendedNavigate(path, s).target, s).Show?
  {
    var route := IntendedRouteOf(path);
    var decision := Decide(s, route.guard.value);
    var target := decision.to;
    if decision == Redirect("/login", true) {
      LoginPathUnguarded(target);
    } else {
      assert decision == Redirect("/dashboard", true);
      DashboardPathManagerOnly(target);
      assert IsAuthenticated(s);
    }
  }
}
