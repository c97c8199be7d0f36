/** The admin layout: the sidebar's navigation items, which of them is highlighted for the
    current path, and the sidebar's open/closed state on small screens. */
module AdminLayout {

  datatype NavItem = NavItem(path: string, caption: string, end: bool)

  const NavItems: seq<NavItem> := [
    NavItem("/admin", "Dashboard", true),
    NavItem("/admin/products", "Products", false),
    NavItem("/admin/orders", "Orders", false),
    NavItem("/admin/users", "Users", false)
  ]

  /** An item marked `end` is active on its own path only; any other is active on every path
      that starts with its own. */
  predicate IsActive(item: NavItem, pathname: string) {
    if item.end then pathname == item.path else item.path <= pathname
  }

  /** The dashboard item is active exactly on `/admin`; each other item exactly on the paths that
      start with its own. */
  lemma ActiveRule(pathname: string)
    ensures IsActive(NavItems[0], pathname) <==> pathname == "/admin"
    ensures forall i :: 1 <= i < |NavItems| ==> (IsActive(NavItems[i], pathname) <==> NavItems[i].path <= pathname)
  {
  }

  /** A text that starts with `p` has `p`'s characters at `p`'s positions. */
  lemma PrefixAgrees(p: string, s: string, k: nat)
    requires p <= s && k < |p|
    ensures s[k] == p[k]
  {
  }

  /** No path highlights two items. */
  lemma AtMostOneActive(pathname: string, i: nat, j: nat)
    requires i < |NavItems| && j < |NavItems|
    requires IsActive(NavItems[i], pathname) && IsActive(NavItems[j], pathname)
    ensures i == j
  {
    if i != j {
      if i == 0 || j == 0 {
        assert false;
      } else {
        PrefixAgrees(NavItems[i].path, pathname, 7);
        PrefixAgrees(NavItems[j].path, pathname, 7);
        assert false;
      }
    }
  }

  /** On the path of a navigation item, that item and no other is highlighted. */
  lemma NavPathHighlightsItself(k: nat, i: nat)
    requires k < |NavItems| && i < |NavItems|
    ensures IsActive(NavItems[i], NavItems[k].path) <==> i == k
  {
    if i == k {
      assert IsActive(NavItems[i], NavItems[k].path);
    } else if IsActive(NavItems[i], NavItems[k].path) {
      assert IsActive(NavItems[k], NavItems[k].path);
      AtMostOneActive(NavItems[k].path, i, k);
    }
  }

  /** `/admin/` with a trailing slash highlights no item: it is not `/admin` and starts with none
      of the other paths. */
  lemma TrailingSlashHighlightsNothing(i: nat)
    requires i < |NavItems|
    ensures !IsActive(NavItems[i], "/admin/")
  {
    if i > 0 {
      assert |NavItems[i].path| > |"/admin/"|;
    }
  }

  class Layout {
    var sidebarOpen: bool
    var pathname: string

    constructor (pathname: string)
      ensures !sidebarOpen && this.pathname == pathname
    {
      sidebarOpen := false;
      this.pathname := pathname;
    }

    /** The menu button flips the sidebar. */
    method ToggleMenu()
      modifies this`sidebarOpen
      ensures sidebarOpen == !old(sidebarOpen)
    {
      sidebarOpen := !sidebarOpen;
    }

    /** A navigation link closes the sidebar and goes to the item's path, which then highlights
        that item alone. */
    method NavLinkClicked(k: nat)
      requires k < |NavItems|
      modifies this`sidebarOpen, this`pathname
      ensures !sidebarOpen && pathname == NavItems[k].path
      ensures forall i :: 0 <= i < |NavItems| ==> (IsActive(NavItems[i], pathname) <==> i == k)
    {
      sidebarOpen := false;
      pathname := NavItems[k].path;
      forall i | 0 <= i < |NavItems|
        ensures IsActive(NavItems[i], pathname) <==> i == k
      {
        NavPathHighlightsItself(k, i);
      }
    }

    /** The overlay behind the open sidebar closes it. */
    method OverlayClicked()
      requires sidebarOpen
      modifies this`sidebarOpen
      ensures !sidebarOpen
    {
      sidebarOpen := false;
    }
  }
}
