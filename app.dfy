/**
 * The application shell: the route table chosen by the authentication flag, the
 * `ProtectedRoute` gate and the content margin that follows the sidebar. Paths are
 * matched by exact equality.
 */
module App {
  import opened Wrappers

  datatype Page =
    | LoginPage | Dashboard | BookingsPage | PackagesPage | CustomersPage | PaymentsPage
    | GuidesVehiclesPage | SupportPage | AdminManagementPage | SettingsPage

  /** What the router shows for a path: a page, or a `<Navigate>` to another path. */
  datatype View = Render(page: Page) | Redirect(to: string)

  const LoginPath := "/login"
  const HomePath := "/"

  /** The nine routes of the signed-in layout, in declaration order. */
  const Routes: seq<(string, Page)> := [
    ("/", Dashboard), ("/bookings", BookingsPage), ("/packages", PackagesPage),
    ("/customers", CustomersPage), ("/payments", PaymentsPage), ("/resources", GuidesVehiclesPage),
    ("/support", SupportPage), ("/admins", AdminManagementPage), ("/settings", SettingsPage)]

  /** The page of the first route whose path equals `path`, if any. */
  function Lookup(table: seq<(string, Page)>, path: string): (r: Option<Page>)
    ensures r.Some? <==> exists i :: 0 <= i < |table| && table[i].0 == path
    ensures r.Some? ==> exists i :: 0 <= i < |table| && table[i] == (path, r.value)
    decreases |table|
  {
    if |table| == 0 then None
    else if table[0].0 == path then Some(table[0].1)
    else
      var r := Lookup(table[1..], path);
      if r.Some? then
        ghost var i :| 0 <= i < |table[1..]| && table[1..][i] == (path, r.value);
        assert table[i + 1] == (path, r.value);
        r
      else
        assert forall i :: 1 <= i < |table| ==> table[i] == table[1..][i - 1];
        r
  }

  /** `ProtectedRoute`: the children when signed in, otherwise a redirect to the login page. */
  function ProtectedRoute(isAuthenticated: bool, page: Page): (v: View)
    ensures v.Render? <==> isAuthenticated
    ensures v.Render? ==> v.page == page
    ensures v.Redirect? ==> v.to == LoginPath
  {
    if isAuthenticated then Render(page) else Redirect(LoginPath)
  }

  /** What `App` shows at `path`. */
  function Route(isAuthenticated: bool, path: string): View {
    if !isAuthenticated then
      if path == LoginPath then Render(LoginPage) else Redirect(LoginPath)
    else
      match Lookup(Routes, path)
      case Some(page) => ProtectedRoute(isAuthenticated, page)
      case None => Redirect(HomePath)
  }

  /** Signed out, the login page is the only page, and every other path leads to it. */
  lemma SignedOutRouting(path: string)
    ensures Route(false, path) == Render(LoginPage) <==> path == LoginPath
    ensures path != LoginPath ==> Route(false, path) == Redirect(LoginPath)
  {
  }

  /** Signed in, each listed path renders its page and every other path, the login page included, leads home. */
  lemma SignedInRouting(path: string)
    ensures Route(true, path).Render? <==> exists i :: 0 <= i < |Routes| && Routes[i].0 == path
    ensures forall i :: 0 <= i < |Routes| && Routes[i].0 == path ==> Route(true, path) == Render(Routes[i].1)
    ensures !Route(true, path).Render? ==> Route(true, path) == Redirect(HomePath)
    ensures Route(true, path) != Render(LoginPage)
  {
    var r := Lookup(Routes, path);
    if r.Some? {
      forall i | 0 <= i < |Routes| && Routes[i].0 == path ensures Route(true, path) == Render(Routes[i].1) {
        RoutePathsDistinct();
        var j :| 0 <= j < |Routes| && Routes[j] == (path, r.value);
        assert i == j;
      }
    }
  }

  lemma RoutePathsDistinct()
    ensures forall i, j :: 0 <= i < j < |Routes| ==> Routes[i].0 != Routes[j].0
  {
  }

  /** Signed in, the login page redirects home. */
  lemma LoginRedirectsHome()
    ensures Route(true, LoginPath) == Redirect(HomePath)
  {
    assert forall i :: 0 <= i < |Routes| ==> Routes[i].0 != LoginPath;
    SignedInRouting(LoginPath);
  }

  /** Following the redirect a path produces always reaches a page: there is no redirect chain. */
  lemma OneRedirectAtMost(isAuthenticated: bool, path: string)
    ensures Route(isAuthenticated, path).Redirect? ==> Route(isAuthenticated, Route(isAuthenticated, path).to).Render?
  {
    if isAuthenticated {
      assert Routes[0] == (HomePath, Dashboard);
      SignedInRouting(HomePath);
    }
  }

  /** The left margin of the main content, `sidebarCollapsed ? 80 : 280`. */
  function MarginLeft(sidebarCollapsed: bool): (m: int)
    ensures m == 80 <==> sidebarCollapsed
    ensures m == 280 <==> !sidebarCollapsed
  {
    if sidebarCollapsed then 80 else 280
  }
}
