/**
 * The sidebar: the `cn` class-name helper, the navigation table and its active-item
 * rule, the collapsed and expanded layouts, and the logout link.
 */
module Sidebar {
  import opened Wrappers
  import Js
  import App
  import Store

  // ---------------------------------------------------------------------------
  // cn
  // ---------------------------------------------------------------------------

  /**
   * The truthy arguments of `cn`, in order. An argument is a class string or, for an
   * expression such as `sidebarCollapsed && 'justify-center'`, `false` (None).
   */
  function Truthy(args: seq<Option<string>>): (r: seq<string>)
    ensures |r| <= |args|
    ensures forall i :: 0 <= i < |r| ==> r[i] != ""
    decreases |args|
  {
    if |args| == 0 then []
    else (if args[0].Some? && args[0].value != "" then [args[0].value] else []) + Truthy(args[1..])
  }

  /** `cn(...classes)`: `classes.filter(Boolean).join(' ')`. */
  function Cn(args: seq<Option<string>>): string {
    Js.Join(Truthy(args), " ")
  }

  lemma {:induction false} TruthyAppend(a: seq<Option<string>>, b: seq<Option<string>>)
    ensures Truthy(a + b) == Truthy(a) + Truthy(b)
    decreases |a|
  {
    if |a| == 0 {
      assert a + b == b;
    } else {
      assert (a + b)[1..] == a[1..] + b;
      TruthyAppend(a[1..], b);
    }
  }

  /** With every argument a non-empty string, `cn` joins them all with single spaces. */
  lemma {:induction false} CnAllTruthy(args: seq<Option<string>>)
    requires forall i :: 0 <= i < |args| ==> args[i].Some? && args[i].value != ""
    ensures Truthy(args) == seq(|args|, i requires 0 <= i < |args| => args[i].value)
    ensures Cn(args) == Js.Join(seq(|args|, i requires 0 <= i < |args| => args[i].value), " ")
    decreases |args|
  {
    if |args| > 0 {
      CnAllTruthy(args[1..]);
      var vs := seq(|args|, i requires 0 <= i < |args| => args[i].value);
      assert vs == [args[0].value] + vs[1..];
    }
  }

  /** A falsy argument anywhere is dropped: it changes nothing in the result. */
  lemma CnDropsFalsy(a: seq<Option<string>>, x: Option<string>, b: seq<Option<string>>)
    requires x.None? || x.value == ""
    ensures Cn(a + [x] + b) == Cn(a + b)
  {
    TruthyAppend(a + [x], b);
    TruthyAppend(a, [x]);
    TruthyAppend(a, b);
    assert [x][1..] == [];
    assert Truthy([x]) == [];
    assert Truthy(a + [x]) == Truthy(a);
  }

  /** The result is empty exactly when no argument is truthy. */
  lemma CnEmpty(args: seq<Option<string>>)
    ensures Cn(args) == "" <==> Truthy(args) == []
  {
    var t := Truthy(args);
    if |t| > 0 {
      JoinStartsWithFirst(t, " ");
    }
  }

  lemma {:induction false} JoinStartsWithFirst(parts: seq<string>, sep: string)
    requires |parts| > 0
    ensures parts[0] <= Js.Join(parts, sep)
  {
  }

  const ProfileBase := "flex items-center gap-3 p-3 rounded-xl bg-safari-brown/20"
  const ProfileCollapsed := "justify-center"

  /** The class of the profile box: `cn(base, sidebarCollapsed && 'justify-center')`. */
  function ProfileClass(sidebarCollapsed: bool): string {
    Cn([Some(ProfileBase), if sidebarCollapsed then Some(ProfileCollapsed) else None])
  }

  /** Collapsed, the profile box gains the centring class after a space; expanded, it has the base class alone. */
  lemma ProfileClassRule(sidebarCollapsed: bool)
    ensures ProfileClass(sidebarCollapsed)
         == if sidebarCollapsed then ProfileBase + " " + ProfileCollapsed else ProfileBase
  {
    assert ProfileBase != "" && ProfileCollapsed != "";
    CnAllTruthy([Some(ProfileBase), Some(ProfileCollapsed)]);
    var vs := [ProfileBase, ProfileCollapsed];
    assert seq(2, i requires 0 <= i < 2 => [Some(ProfileBase), Some(ProfileCollapsed)][i].value) == vs;
    assert Js.Join(vs, " ") == ProfileBase + " " + Js.Join(vs[1..], " ");
    CnDropsFalsy([Some(ProfileBase)], None, []);
    assert [Some(ProfileBase)] + [None] + [] == [Some(ProfileBase), None];
    assert [Some(ProfileBase)] + [] == [Some(ProfileBase)];
    CnAllTruthy([Some(ProfileBase)]);
    assert seq(1, i requires 0 <= i < 1 => [Some(ProfileBase)][i].value) == [ProfileBase];
  }

  // ---------------------------------------------------------------------------
  // Navigation
  // ---------------------------------------------------------------------------

  datatype NavItem = NavItem(name: string, path: string)

  const Navigation: seq<NavItem> := [
    NavItem("Dashboard", "/"), NavItem("Bookings", "/bookings"), NavItem("Enquiries", "/enquiries"),
    NavItem("Tour Packages", "/packages"), NavItem("Safari Packages", "/safari-packages"),
    NavItem("Blog Posts", "/blog"), NavItem("Contact Info", "/contact-settings"),
    NavItem("Promotions", "/promotions"), NavItem("Customers", "/customers"),
    NavItem("Payments", "/payments"), NavItem("Guides & Vehicles", "/resources"),
    NavItem("Support", "/support"), NavItem("Admin Users", "/admins"), NavItem("Settings", "/settings")]

  /** `location.pathname === item.path`. */
  predicate IsActive(pathname: string, item: NavItem) {
    pathname == item.path
  }

  /** The table has fourteen entries with pairwise distinct paths. */
  lemma NavigationPathsDistinct()
    ensures |Navigation| == 14
    ensures forall i, j :: 0 <= i < j < |Navigation| ==> Navigation[i].path != Navigation[j].path
  {
  }

  /** At most one navigation item is highlighted for any location, and the item for a listed path is. */
  lemma AtMostOneActive(pathname: string)
    ensures forall i, j ::
              (0 <= i < |Navigation| && 0 <= j < |Navigation|
               && IsActive(pathname, Navigation[i]) && IsActive(pathname, Navigation[j])) ==> i == j
    ensures forall i :: 0 <= i < |Navigation| ==> IsActive(Navigation[i].path, Navigation[i])
  {
    NavigationPathsDistinct();
  }

  /** The five navigation paths the signed-in route table does not list. */
  const UnroutedPaths: seq<string> := ["/enquiries", "/safari-packages", "/blog", "/contact-settings", "/promotions"]

  /** No route of the signed-in table has one of the five unrouted paths. */
  lemma UnroutedNotListed(p: string)
    requires p in UnroutedPaths
    ensures forall j :: 0 <= j < |App.Routes| ==> App.Routes[j].0 != p
  {
  }

  /** Every other navigation path is the path of a route. */
  lemma RoutedListed(i: nat)
    requires i < |Navigation| && Navigation[i].path !in UnroutedPaths
    ensures exists j :: 0 <= j < |App.Routes| && App.Routes[j].0 == Navigation[i].path
  {
    // The route index of each navigation entry (0 stands in for the five unrouted ones).
    var j := [0, 1, 0, 2, 0, 0, 0, 0, 3, 4, 5, 6, 7, 8][i];
    assert App.Routes[j].0 == Navigation[i].path;
  }

  /** Signed in, a navigation link opens its page unless its path is one of the five unrouted ones, which lead home. */
  lemma NavigationRouting(i: nat)
    requires i < |Navigation|
    ensures App.Route(true, Navigation[i].path).Render? <==> Navigation[i].path !in UnroutedPaths
    ensures Navigation[i].path in UnroutedPaths ==> App.Route(true, Navigation[i].path) == App.Redirect(App.HomePath)
  {
    var p := Navigation[i].path;
    App.SignedInRouting(p);
    if p in UnroutedPaths {
      UnroutedNotListed(p);
    } else {
      RoutedListed(i);
    }
  }

  // ---------------------------------------------------------------------------
  // Layout and logout
  // ---------------------------------------------------------------------------

  /** The animated width of the sidebar, `sidebarCollapsed ? 80 : 280`. */
  function Width(sidebarCollapsed: bool): (w: int)
    ensures w == 80 <==> sidebarCollapsed
    ensures w == 280 <==> !sidebarCollapsed
  {
    if sidebarCollapsed then 80 else 280
  }

  /** Item labels, the logo title and the logout link are shown only when expanded. */
  predicate LabelsShown(sidebarCollapsed: bool) {
    !sidebarCollapsed
  }

  predicate LogoutShown(sidebarCollapsed: bool) {
    !sidebarCollapsed
  }

  /** The sidebar is exactly as wide as the margin the main content leaves for it. */
  lemma WidthMatchesMargin(sidebarCollapsed: bool)
    ensures Width(sidebarCollapsed) == App.MarginLeft(sidebarCollapsed)
    ensures LabelsShown(sidebarCollapsed) <==> Width(sidebarCollapsed) == 280
  {
  }

  /**
   * The logout link after the confirmation prompt: when confirmed, the store signs out and
   * the page moves to the login path, where the signed-out layout renders the login page;
   * otherwise nothing happens. The link is rendered only while the sidebar is expanded
   * (`LogoutShown`); the click itself does not depend on the layout.
   */
  method LogoutClick(store: Store.AppStore, confirmed: bool) returns (location: Option<string>)
    modifies store`isAuthenticated, store`user, store.storage
    ensures confirmed ==> !store.isAuthenticated && store.user.None?
    ensures confirmed ==> store.storage.items == old(store.storage.items) - {Store.AuthKey, Store.UserKey}
    ensures confirmed ==> location == Some(App.LoginPath)
    ensures confirmed ==> App.Route(store.isAuthenticated, location.value) == App.Render(App.LoginPage)
    ensures !confirmed ==> location.None? && store.isAuthenticated == old(store.isAuthenticated)
    ensures !confirmed ==> store.user == old(store.user) && store.storage.items == old(store.storage.items)
    ensures store.darkMode == old(store.darkMode) && store.sidebarCollapsed == old(store.sidebarCollapsed)
    ensures store.darkClass == old(store.darkClass)
  {
    if confirmed {
      store.Logout();
      location := Some(App.LoginPath);
    } else {
      location := None;
    }
  }
}
