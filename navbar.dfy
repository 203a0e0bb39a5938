/**
 * The navigation bar of src/components/Navbar.tsx: the list of links it
 * builds for the signed-in user and the test that highlights the current one.
 */
module Navbar {
  import opened Store
  import opened AuthContext
  import opened Routes

  datatype NavItem = NavItem(path: string, name: string)

  /** The six links every user sees, in display order. */
  const BaseItems: seq<NavItem> := [
    NavItem("/dashboard", "Dashboard"),
    NavItem("/inventory", "Inventory"),
    NavItem("/sales", "Sales"),
    NavItem("/order", "Order"),
    NavItem("/report", "Report"),
    NavItem("/document", "Document")
  ]

  const AdminItem := NavItem("/admin", "Admin")

  /** The links shown to `user`. */
  function ItemsFor(user: Option<User>): (items: seq<NavItem>)
    ensures forall a, b :: 0 <= a < b < |items| ==> items[a].path != items[b].path
  {
    if IsAdmin(user) then BaseItems + [AdminItem] else BaseItems
  }

  /** Builds the list the way the component does: the base list, then a conditional push. */
  method BuildNavItems(user: Option<User>) returns (items: seq<NavItem>)
    ensures items == ItemsFor(user)
  {
    items := BaseItems;
    if user.Some? && user.value.role == Admin {
      items := items + [AdminItem];
    }
  }

  /** A link is highlighted when the current pathname equals its path exactly. */
  predicate IsActive(pathname: string, item: NavItem)
    ensures IsActive(pathname, item) ==> Normalize(pathname) == Normalize(item.path)
  {
    pathname == item.path
  }

  /**
   * The six base links always come first and in the same order; the Admin
   * link is added, last, exactly for an admin, and a non-admin never sees it.
   */
  lemma NavItemsShape(user: Option<User>)
    ensures |ItemsFor(user)| >= 6 && ItemsFor(user)[..6] == BaseItems
    ensures |ItemsFor(user)| == 7 <==> IsAdmin(user)
    ensures IsAdmin(user) ==> ItemsFor(user)[6] == AdminItem
    ensures AdminItem in ItemsFor(user) <==> IsAdmin(user)
    ensures (exists i :: 0 <= i < |ItemsFor(user)| && ItemsFor(user)[i].path == "/admin") <==> IsAdmin(user)
  {
    if !IsAdmin(user) {
      assert forall i :: 0 <= i < |BaseItems| ==> BaseItems[i].path != "/admin";
    } else {
      assert ItemsFor(user)[6].path == "/admin";
    }
  }

  /** No two links share a path, so at most one link is highlighted for any pathname. */
  lemma AtMostOneActive(user: Option<User>, pathname: string, i: int, j: int)
    requires 0 <= i < |ItemsFor(user)| && 0 <= j < |ItemsFor(user)|
    requires IsActive(pathname, ItemsFor(user)[i]) && IsActive(pathname, ItemsFor(user)[j])
    ensures i == j
  {
    var items := ItemsFor(user);
    assert forall a, b :: 0 <= a < b < |items| ==> items[a].path != items[b].path;
  }

  /** The router compares each link's path as it is written. */
  lemma PathIsCanonical(path: string)
    requires path in {"/dashboard", "/inventory", "/sales", "/order", "/report", "/document", "/admin"}
    ensures Normalize(path) == path
  {
    NormalizeCanonical(path);
  }

  /**
   * Every link offered to a signed-in user is one the router renders for
   * that user without any redirect: the bar never points at a page the
   * guards would turn away.
   */
  lemma {:induction false} NavLinksRender(s: AuthState, i: int)
    requires Consistent(s) && s.isAuthenticated
    requires 0 <= i < |ItemsFor(s.user)|
    ensures Route(ItemsFor(s.user)[i].path, s).Render?
  {
    var items := ItemsFor(s.user);
    var path := items[i].path;
    if i < 6 {
      assert items[i] == BaseItems[i];
      assert path in {"/dashboard", "/inventory", "/sales", "/order", "/report", "/document"};
      PathIsCanonical(path);
      assert LayoutPage(path).Some?;
    } else {
      assert IsAdmin(s.user) && items[i] == AdminItem;
      PathIsCanonical(path);
    }
  }
}
