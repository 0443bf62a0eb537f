/**
 * The application shell: the top bar's title, taken from the first
 * navigation entry whose path the current location starts with, and the
 * two sidebar flags the shell toggles.
 */
module AppLayout {
  import Seqs
  import opened Wrappers

  /** `NavItem`; `caption` is the entry's `label`. */
  datatype NavItem = NavItem(caption: string, path: string, icon: string, description: Option<string>)

  /** `NAV_ITEMS`, in sidebar order. */
  const NavItems: seq<NavItem> := [
    NavItem("Dashboard", "/dashboard", "chart", Some("Overview and quick insights")),
    NavItem("Menu", "/menu/items", "menu", Some("Manage categories and items")),
    NavItem("Tables & QR", "/tables", "table", Some("Configure tables and QR codes")),
    NavItem("Orders", "/orders/live", "receipt", Some("Monitor live and historical orders")),
    NavItem("3D Models", "/models", "cube", Some("Library of 3D assets")),
    NavItem("Analytics", "/analytics", "analytics", Some("Reports and performance metrics")),
    NavItem("Settings", "/settings", "settings", Some("Restaurant configuration")),
    NavItem("Staff", "/staff", "users", Some("Role management")),
    NavItem("Feedback", "/feedback", "feedback", Some("Customer insights"))
  ]

  /** The title shown when no entry matches. */
  const FallbackTitle: string := "Restaurant OS"

  /** `pathname.startsWith(item.path)`: a raw character prefix, not a path-segment match. */
  function MatchesPath(pathname: string): NavItem -> bool {
    (item: NavItem) => item.path <= pathname
  }

  /** `NAV_ITEMS.find(...)`: the first entry whose path starts the location, if any. */
  function CurrentNav(items: seq<NavItem>, pathname: string): (r: Option<NavItem>)
    ensures r.None? <==> forall k :: 0 <= k < |items| ==> !(items[k].path <= pathname)
    ensures r.Some? ==> exists k :: FirstMatchAt(items, pathname, k) && items[k] == r.value
  {
    var i := Seqs.FindIndex(items, MatchesPath(pathname));
    if i == -1 then None
    else
      assert FirstMatchAt(items, pathname, i);
      Some(items[i])
  }

  /** Entry `k` starts the location and no earlier entry does. */
  predicate FirstMatchAt(items: seq<NavItem>, pathname: string, k: int) {
    && 0 <= k < |items|
    && items[k].path <= pathname
    && forall j :: 0 <= j < k ==> !(items[j].path <= pathname)
  }

  /** `currentNav?.label ?? "Restaurant OS"`. */
  function Title(items: seq<NavItem>, pathname: string): (title: string)
    ensures (forall k :: 0 <= k < |items| ==> !(items[k].path <= pathname)) ==> title == FallbackTitle
    ensures forall k :: FirstMatchAt(items, pathname, k) ==> title == items[k].caption
  {
    match CurrentNav(items, pathname)
    case None => FallbackTitle
    case Some(item) => item.caption
  }

  /** `currentNav?.description`: absent when nothing matches or the entry has none. */
  function Description(items: seq<NavItem>, pathname: string): (d: Option<string>)
    ensures (forall k :: 0 <= k < |items| ==> !(items[k].path <= pathname)) ==> d.None?
    ensures forall k :: FirstMatchAt(items, pathname, k) ==> d == items[k].description
  {
    match CurrentNav(items, pathname)
    case None => None
    case Some(item) => item.description
  }

  /** An entry's own path selects it unless an earlier entry's path is a prefix of it. */
  lemma OwnPathSelectsFirstPrefix(items: seq<NavItem>, k: nat)
    requires k < |items|
    requires forall j :: 0 <= j < k ==> !(items[j].path <= items[k].path)
    ensures CurrentNav(items, items[k].path) == Some(items[k])
  {
    var r := CurrentNav(items, items[k].path);
    assert items[k].path <= items[k].path;
    assert FirstMatchAt(items, items[k].path, k);
    var m :| FirstMatchAt(items, items[k].path, m) && items[m] == r.value;
    FirstMatchUnique(items, items[k].path, m, k);
  }

  /** The history and category pages have no entry of their own, so the title falls back. */
  lemma UnlistedPagesFallBack(pathname: string)
    requires pathname == "/orders/history" || pathname == "/menu/categories"
    ensures CurrentNav(NavItems, pathname).None?
    ensures Title(NavItems, pathname) == FallbackTitle
  {
    NoEntryMatches(pathname);
  }

  /**
   * No entry path is a prefix of these two locations: each path that is not
   * longer than the location differs from it at its second character, its
   * seventh or its last.
   */
  lemma NoEntryMatches(pathname: string)
    requires pathname == "/orders/history" || pathname == "/menu/categories"
    ensures forall k :: 0 <= k < |NavItems| ==> !(NavItems[k].path <= pathname)
  {
    forall k | 0 <= k < |NavItems|
      ensures !(NavItems[k].path <= pathname)
    {
      var p := NavItems[k].path;
      if |p| <= |pathname| {
        assert p[1] != pathname[1] || p[6] != pathname[6] || p[|p| - 1] != pathname[|p| - 1];
      }
    }
  }

  /** The match is not segment-aware: "/dashboardX" is titled "Dashboard". */
  lemma PrefixIsRaw()
    ensures Title(NavItems, "/dashboardX") == "Dashboard"
  {
    var items := NavItems;
    assert FirstMatchAt(items, "/dashboardX", 0);
    var m :| FirstMatchAt(items, "/dashboardX", m) && items[m] == CurrentNav(items, "/dashboardX").value;
    FirstMatchUnique(items, "/dashboardX", m, 0);
  }

  /** At most one entry is the first match. */
  lemma FirstMatchUnique(items: seq<NavItem>, pathname: string, k1: int, k2: int)
    requires FirstMatchAt(items, pathname, k1) && FirstMatchAt(items, pathname, k2)
    ensures k1 == k2
  {
    assert items[k1].path <= pathname && items[k2].path <= pathname;
  }

  /** The shell's sidebar flags. */
  class SidebarState {
    var isSidebarOpen: bool
    var isSidebarCollapsed: bool

    /** Both flags start false. */
    constructor ()
      ensures !isSidebarOpen && !isSidebarCollapsed
    {
      isSidebarOpen := false;
      isSidebarCollapsed := false;
    }

    /** `onClose`: the mobile sidebar closes. */
    method Close()
      modifies this
      ensures !isSidebarOpen && isSidebarCollapsed == old(isSidebarCollapsed)
    {
      isSidebarOpen := false;
    }

    /** `onToggleSidebar`: the mobile sidebar flips between open and closed. */
    method ToggleOpen()
      modifies this
      ensures isSidebarOpen == !old(isSidebarOpen) && isSidebarCollapsed == old(isSidebarCollapsed)
    {
      isSidebarOpen := !isSidebarOpen;
    }

    /** `onToggleCollapse` and `onToggleSidebarCollapse`: the desktop sidebar flips between narrow and wide. */
    method ToggleCollapse()
      modifies this
      ensures isSidebarCollapsed == !old(isSidebarCollapsed) && isSidebarOpen == old(isSidebarOpen)
    {
      isSidebarCollapsed := !isSidebarCollapsed;
    }
  }
}
