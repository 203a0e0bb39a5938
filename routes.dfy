/**
 * The route table of src/routes/index.tsx as a function from the requested
 * path and the authentication state to what the router does: render a page
 * or redirect (with `replace`) to another path.
 */
module Routes {
  import opened Store
  import opened AuthContext

  datatype Page = LoginPage | DashboardPage | InventoryPage | SalesPage | OrderPage | ReportPage | DocumentPage | AdminPage

  datatype Outcome = Render(page: Page) | Redirect(to: string)

  /** The six pages nested under the layout that need only a signed-in user. */
  function LayoutPage(path: string): (r: Option<Page>)
    ensures r.Some? ==> r.value != LoginPage && r.value != AdminPage
    ensures r.Some? ==> path !in {"/login", "/", "/admin"}
  {
    if path == "/dashboard" then Some(DashboardPage)
    else if path == "/inventory" then Some(InventoryPage)
    else if path == "/sales" then Some(SalesPage)
    else if path == "/order" then Some(OrderPage)
    else if path == "/report" then Some(ReportPage)
    else if path == "/document" then Some(DocumentPage)
    else None
  }

  predicate IsAdmin(user: Option<User>) {
    user.Some? && user.value.role == Admin
  }

  /** `PrivateRoute`: its children when signed in, otherwise off to the login page. */
  function PrivateRoute(isAuthenticated: bool, children: Outcome): (o: Outcome)
    ensures o == children <==> isAuthenticated || children == Redirect("/login")
    ensures !isAuthenticated ==> o == Redirect("/login")
  {
    if isAuthenticated then children else Redirect("/login")
  }

  /** `AdminRoute`: its page for an admin user, otherwise back to the dashboard. */
  function AdminRoute(user: Option<User>, page: Page): (o: Outcome)
    ensures o == Render(page) <==> IsAdmin(user)
    ensures !IsAdmin(user) ==> o == Redirect("/dashboard")
  {
    if IsAdmin(user) then Render(page) else Redirect("/dashboard")
  }

  /** ASCII upper case to lower case; every other character is kept. */
  function Lower(c: char): (d: char)
    ensures 'A' <= c <= 'Z' ==> d as int == c as int + 32
    ensures !('A' <= c <= 'Z') ==> d == c
  {
    if 'A' <= c <= 'Z' then (c as int + 32) as char else c
  }

  function LowerAll(path: string): (r: string)
    ensures |r| == |path| && forall i :: 0 <= i < |path| ==> r[i] == Lower(path[i])
  {
    seq(|path|, i requires 0 <= i < |path| => Lower(path[i]))
  }

  /** The path without its trailing slashes. */
  function TrimSlashes(path: string): (r: string)
    ensures r <= path && (r == [] || r[|r| - 1] != '/')
    ensures forall i :: |r| <= i < |path| ==> path[i] == '/'
  {
    if |path| > 0 && path[|path| - 1] == '/' then TrimSlashes(path[..|path| - 1]) else path
  }

  /**
   * The path as the router compares it: route paths match without regard to
   * (ASCII) case and with any number of trailing slashes, and a path of
   * slashes only is the root.
   */
  function Normalize(path: string): (n: string)
    ensures |n| > 0
  {
    var t := TrimSlashes(LowerAll(path));
    if t == [] then "/" else t
  }

  /** A path already in the form the router compares: no upper case, no trailing slash. */
  predicate Canonical(path: string) {
    && |path| > 1 && path[0] == '/' && path[|path| - 1] != '/'
    && forall i :: 0 <= i < |path| ==> !('A' <= path[i] <= 'Z')
  }

  lemma NormalizeCanonical(path: string)
    requires Canonical(path) || path == "/"
    ensures Normalize(path) == path
  {
    assert LowerAll(path) == path;
    if path == "/" {
      assert TrimSlashes(path) == TrimSlashes([]);
    }
  }

  /** What the router does for one path. */
  function Route(path: string, s: AuthState): (o: Outcome)
    ensures Normalize(path) == "/login" ==> (o == Render(LoginPage) <==> !s.isAuthenticated)
    ensures Normalize(path) == "/login" && s.isAuthenticated ==> o == Redirect("/dashboard")
    ensures Normalize(path) == "/" ==> o == Redirect(if s.isAuthenticated then "/dashboard" else "/login")
    ensures LayoutPage(Normalize(path)).Some? ==> (o.Render? <==> s.isAuthenticated)
    ensures LayoutPage(Normalize(path)).Some? && !s.isAuthenticated ==> o == Redirect("/login")
    ensures Normalize(path) == "/admin" ==> (o == Render(AdminPage) <==> s.isAuthenticated && IsAdmin(s.user))
    ensures o == Render(AdminPage) ==> Normalize(path) == "/admin"
    ensures Normalize(path) !in {"/login", "/", "/admin"} && LayoutPage(Normalize(path)).None? ==> o == Redirect("/")
  {
    var p := Normalize(path);
    if p == "/login" then
      (if s.isAuthenticated then Redirect("/dashboard") else Render(LoginPage))
    else if p == "/" then
      (if s.isAuthenticated then Redirect("/dashboard") else Redirect("/login"))
    else if LayoutPage(p).Some? then
      PrivateRoute(s.isAuthenticated, Render(LayoutPage(p).value))
    else if p == "/admin" then
      PrivateRoute(s.isAuthenticated, AdminRoute(s.user, AdminPage))
    else
      Redirect("/")
  }

  /** One more trailing slash does not change where a path leads. */
  lemma {:induction false} TrailingSlashIgnored(path: string, s: AuthState)
    ensures Route(path + "/", s) == Route(path, s)
  {
    assert LowerAll(path + "/") == LowerAll(path) + "/";
    assert TrimSlashes(LowerAll(path) + "/") == TrimSlashes(LowerAll(path));
  }

  /** Upper- and lower-case spellings of a path lead to the same place. */
  lemma {:induction false} CaseIgnored(path: string, s: AuthState)
    ensures Route(LowerAll(path), s) == Route(path, s)
  {
    assert LowerAll(LowerAll(path)) == LowerAll(path);
  }

  /** Follows at most `hops` redirects starting from `path`. */
  function Navigate(path: string, s: AuthState, hops: nat): (o: Outcome)
    ensures hops == 0 || Route(path, s).Render? ==> o == Route(path, s)
    decreases hops
  {
    var o := Route(path, s);
    if o.Redirect? && hops > 0 then Navigate(o.to, s, hops - 1) else o
  }

  /** The page a visit to `path` ends on. */
  function Landing(path: string, s: AuthState): (p: Page)
    ensures p == LoginPage <==> !s.isAuthenticated
    ensures p == AdminPage ==> IsAdmin(s.user) && Normalize(path) == "/admin"
  {
    if !s.isAuthenticated then LoginPage
    else if LayoutPage(Normalize(path)).Some? then LayoutPage(Normalize(path)).value
    else if Normalize(path) == "/admin" && IsAdmin(s.user) then AdminPage
    else DashboardPage
  }

  /**
   * No redirect loops: from any path, in any state, at most two redirects
   * lead to a rendered page, and that page is the login page exactly when
   * nobody is signed in.
   */
  lemma {:induction false} RedirectsSettle(path: string, s: AuthState)
    ensures Navigate(path, s, 2) == Render(Landing(path, s))
  {
    var o := Route(path, s);
    if o.Redirect? {
      assert o.to in {"/login", "/dashboard", "/"};
      NormalizeCanonical("/login");
      NormalizeCanonical("/dashboard");
      NormalizeCanonical("/");
      var o2 := Route(o.to, s);
      assert Navigate(path, s, 2) == Navigate(o.to, s, 1);
      if o2.Redirect? {
        assert Navigate(o.to, s, 1) == Navigate(o2.to, s, 0);
        assert o2.to in {"/login", "/dashboard"};
      }
    }
  }
}
