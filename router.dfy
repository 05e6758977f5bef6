/**
 * The route decisions of dashboard/router.jsx: the `ProtectedRoute` guard,
 * the `HomePage` choice between login, user dashboard and admin dashboard,
 * and the route table under the base name `/dashboard` with its catch-all.
 * Navigation targets are paths relative to that base name.
 */
module Router {

  datatype Page = LoginView | UserDashboard | AdminDashboard | SystemSettings | SettingsPanel

  /** What a route renders: the waiting view, a redirect, or a page. */
  datatype View = Validating | NavigateTo(to: string) | Render(page: Page)

  /** The authentication flags the router reads (`useAuth`, `useImpersonate`). */
  datatype Flags = Flags(validating: bool, isAuthenticated: bool, isAdmin: bool, isImpersonating: bool)

  /** `ProtectedRoute`: wait for validation, then require a login, then the admin role for admin-only routes. */
  function ProtectedRoute(f: Flags, adminOnly: bool, children: Page): View {
    if f.validating then Validating
    else if !f.isAuthenticated then NavigateTo("/dashboard/")
    else if adminOnly && !f.isAdmin then NavigateTo("/dashboard/")
    else Render(children)
  }

  /**
   * The guard waits exactly while validating, whatever the other flags say;
   * it renders its children exactly to a logged-in user who, on an
   * admin-only route, is an administrator; every other case is the redirect
   * to `/dashboard/`.
   */
  lemma ProtectedRouteTable(f: Flags, adminOnly: bool, children: Page)
    ensures ProtectedRoute(f, adminOnly, children) == Validating <==> f.validating
    ensures ProtectedRoute(f, adminOnly, children) == Render(children) <==>
      !f.validating && f.isAuthenticated && (!adminOnly || f.isAdmin)
    ensures ProtectedRoute(f, adminOnly, children).NavigateTo? ==> ProtectedRoute(f, adminOnly, children).to == "/dashboard/"
    ensures !f.validating && !f.isAuthenticated ==> ProtectedRoute(f, adminOnly, children) == NavigateTo("/dashboard/")
  {
  }

  /** `HomePage`. */
  function HomePage(f: Flags): Page {
    if !f.isAuthenticated then LoginView
    else if f.isAdmin && f.isImpersonating then UserDashboard
    else if f.isAdmin then AdminDashboard
    else UserDashboard
  }

  /** ASCII upper-case letters to lower case; every other character is kept. */
  function LowerAscii(c: char): char {
    if 'A' <= c <= 'Z' then (c as int + 32) as char else c
  }

  function LowerAsciiAll(s: string): (r: string)
    ensures |r| == |s| && forall i :: 0 <= i < |s| ==> r[i] == LowerAscii(s[i])
  {
    seq(|s|, i requires 0 <= i < |s| => LowerAscii(s[i]))
  }

  /** `s` without the run of `/` at its end. */
  function TrimTrailingSlashes(s: string): (r: string)
    ensures |r| <= |s|
  {
    if |s| > 0 && s[|s| - 1] == '/' then TrimTrailingSlashes(s[..|s| - 1]) else s
  }

  /** The trimmed text is a prefix of `s` that does not end in `/`, and only slashes follow it. */
  lemma {:induction false} TrimTrailingSlashesShape(s: string)
    ensures var r := TrimTrailingSlashes(s);
      && r == s[..|r|] && (|r| == 0 || r[|r| - 1] != '/')
      && forall i :: |r| <= i < |s| ==> s[i] == '/'
  {
    if |s| > 0 && s[|s| - 1] == '/' {
      TrimTrailingSlashesShape(s[..|s| - 1]);
      var r := TrimTrailingSlashes(s);
      assert s[..|s| - 1][..|r|] == s[..|r|];
    }
  }

  /**
   * The pattern React Router compiles for a route without parameters and
   * without case sensitivity: the route's own text, compared without ASCII
   * case, followed by any number of slashes (its own trailing slashes
   * included). The path left after the base name always starts with `/`.
   */
  predicate Matches(path: string, route: string) {
    |path| > 0 && path[0] == '/' && LowerAsciiAll(TrimTrailingSlashes(path)) == TrimTrailingSlashes(route)
  }

  /** A text without upper-case ASCII letters is its own lower-case form. */
  lemma LowerAsciiAllOfLower(s: string)
    requires forall i :: 0 <= i < |s| ==> !('A' <= s[i] <= 'Z')
    ensures LowerAsciiAll(s) == s
  {
  }

  /** Cutting a run of slashes off after a prefix that does not end in one leaves that prefix. */
  lemma {:induction false} TrimTrailingSlashesAfter(s: string, n: nat)
    requires n <= |s| && (n == 0 || s[n - 1] != '/')
    requires forall i :: n <= i < |s| ==> s[i] == '/'
    ensures TrimTrailingSlashes(s) == s[..n]
    decreases |s|
  {
    if |s| > n {
      TrimTrailingSlashesAfter(s[..|s| - 1], n);
      assert s[..|s| - 1][..n] == s[..n];
    }
  }

  /**
   * A path matches a route that starts with `/`, has no upper-case letter and
   * no trailing slash exactly when it is that route, letter case aside,
   * followed by zero or more slashes; `/` itself is matched by every run of
   * slashes.
   */
  lemma MatchesMeaning(path: string, route: string)
    requires |route| > 0 && route[0] == '/' && forall i :: 0 <= i < |route| ==> !('A' <= route[i] <= 'Z')
    requires route == "/" || route[|route| - 1] != '/'
    ensures route != "/" ==> (Matches(path, route) <==>
      |route| <= |path| && LowerAsciiAll(path[..|route|]) == route && forall i :: |route| <= i < |path| ==> path[i] == '/')
    ensures route == "/" ==> (Matches(path, route) <==> |path| > 0 && forall i :: 0 <= i < |path| ==> path[i] == '/')
  {
    var t := TrimTrailingSlashes(path);
    TrimTrailingSlashesShape(path);
    if route == "/" {
      assert TrimTrailingSlashes(route) == "" by {
        TrimTrailingSlashesAfter(route, 0);
      }
      if |path| > 0 && forall i :: 0 <= i < |path| ==> path[i] == '/' {
        TrimTrailingSlashesAfter(path, 0);
      }
    } else {
      TrimTrailingSlashesAfter(route, |route|);
      assert route[..|route|] == route;
      if |route| <= |path| && LowerAsciiAll(path[..|route|]) == route && forall i :: |route| <= i < |path| ==> path[i] == '/' {
        assert LowerAscii(path[|route| - 1]) == route[|route| - 1];
        assert LowerAscii(path[0]) == route[0];
        TrimTrailingSlashesAfter(path, |route|);
      }
      if Matches(path, route) {
        assert path[..|route|] == t;
      }
    }
  }

  /** Letter case and trailing slashes do not change the page: `/Settings//` is `/settings`, `/settings/x` is not. */
  lemma MatchesCaseAndSlashes()
    ensures Matches("/Settings//", "/settings") && Matches("//", "/")
    ensures !Matches("/settings/x", "/settings") && !Matches("/settingsx", "/settings")
  {
    assert TrimTrailingSlashes("/Settings//") == "/Settings";
    assert LowerAsciiAll("/Settings") == "/settings";
    assert TrimTrailingSlashes("//") == "";
  }

  /** The `<Routes>` table: three routes and the catch-all redirect to `/`. */
  function Resolve(path: string, f: Flags): View {
    if Matches(path, "/") then Render(HomePage(f))
    else if Matches(path, "/settings") then ProtectedRoute(f, true, SystemSettings)
    else if Matches(path, "/user-settings") then ProtectedRoute(f, false, SettingsPanel)
    else NavigateTo("/")
  }

  /**
   * `HomePage` shows the login page exactly to a visitor who is not logged in,
   * the admin dashboard exactly to an administrator who impersonates nobody,
   * and the user dashboard otherwise; a non-administrator always gets the
   * user dashboard.
   */
  lemma HomePageChoice(f: Flags)
    ensures HomePage(f) == LoginView <==> !f.isAuthenticated
    ensures HomePage(f) == AdminDashboard <==> f.isAuthenticated && f.isAdmin && !f.isImpersonating
    ensures HomePage(f) == UserDashboard <==> f.isAuthenticated && (!f.isAdmin || f.isImpersonating)
    ensures f.isAuthenticated && !f.isAdmin ==> HomePage(f) == UserDashboard
  {
  }

  /** Only the system settings page is closed to logged-in users who are not administrators. */
  lemma SettingsAdminOnly(f: Flags)
    requires !f.validating && f.isAuthenticated
    ensures Resolve("/settings", f) == Render(SystemSettings) <==> f.isAdmin
    ensures Resolve("/user-settings", f) == Render(SettingsPanel)
  {
    assert TrimTrailingSlashes("/settings") == "/settings";
    assert TrimTrailingSlashes("/user-settings") == "/user-settings";
    assert LowerAsciiAll("/settings") == "/settings";
    LowerAsciiAllOfLower("/user-settings");
  }

  /**
   * The guard's redirect target `/dashboard/` is relative to the base name, so
   * it is not a route of the table: the catch-all sends it on to `/`, where
   * `HomePage` shows the login page to a visitor who is not logged in.
   */
  lemma GuardRedirectReachesHome(f: Flags, adminOnly: bool, children: Page)
    requires ProtectedRoute(f, adminOnly, children).NavigateTo?
    ensures Resolve(ProtectedRoute(f, adminOnly, children).to, f) == NavigateTo("/")
    ensures Resolve("/", f) == Render(HomePage(f))
    ensures !f.isAuthenticated ==> Resolve("/", f) == Render(LoginView)
  {
  }

  /** Every path outside the table, that is, not `/`, `/settings` or `/user-settings`, is redirected to `/`. */
  lemma UnmatchedGoesHome(path: string, f: Flags)
    requires !Matches(path, "/") && !Matches(path, "/settings") && !Matches(path, "/user-settings")
    ensures Resolve(path, f) == NavigateTo("/")
  {
  }

  /** While the token is being validated every guarded route waits, whatever the other flags say. */
  lemma ValidatingWaits(f: Flags, path: string)
    requires f.validating && (Matches(path, "/settings") || Matches(path, "/user-settings"))
    ensures Resolve(path, f) == Validating
  {
  }
}
