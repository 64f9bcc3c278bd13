/**
 * src/app/admin/layout.tsx: the frame around every page under /admin. It decides
 * whether the admin header shows, which navigation pill is active, and keeps the
 * light/dark theme: chosen once from the stored preference or the system setting,
 * flipped by the toggle button, written back to local storage and mirrored in the
 * "dark" class of the document element. The session and the system preference are
 * inputs; local storage is a map from key to text.
 */
module AdminLayout {
  import opened Text
  import opened ConditionalNavbar

  const ThemeKey: string := "theme"

  /** `isAuthenticated && pathname !== "/admin" && pathname !== "/admin/callback"`. */
  predicate ShowAdminNavbar(isAuthenticated: bool, pathname: Option<string>)
  {
    isAuthenticated && pathname != Some(LoginPage) && pathname != Some(CallbackPage)
  }

  /** `isActive(path)`: the pill for `path` is highlighted only on that exact path. */
  predicate IsActive(pathname: Option<string>, path: string)
  {
    pathname == Some(path)
  }

  /** The paths of the header's two navigation pills, dashboard then create. */
  const NavPaths: seq<string> := ["/admin/dashboard", "/admin/create"]

  /**
   * The highlight is an exact match: no path highlights both pills, each pill is
   * highlighted on its own page, and a page below a pill's path (its path followed
   * by more text) does not highlight it.
   */
  lemma ActivePills(pathname: Option<string>, i: nat, j: nat, rest: string)
    requires i < |NavPaths| && j < |NavPaths|
    ensures IsActive(pathname, NavPaths[i]) && IsActive(pathname, NavPaths[j]) ==> i == j
    ensures IsActive(Some(NavPaths[i]), NavPaths[i])
    ensures rest != "" ==> !IsActive(Some(NavPaths[i] + rest), NavPaths[i])
  {
    assert NavPaths[0] != NavPaths[1] by {
      assert NavPaths[0][7] == 'd' && NavPaths[1][7] == 'c';
    }
    if rest != "" {
      assert |NavPaths[i] + rest| > |NavPaths[i]|;
    }
  }

  /** The admin header shows exactly for a signed-in user away from login and callback. */
  lemma AdminNavbarCases(isAuthenticated: bool, pathname: Option<string>)
    ensures !isAuthenticated ==> !ShowAdminNavbar(isAuthenticated, pathname)
    ensures pathname == Some(LoginPage) || pathname == Some(CallbackPage) ==> !ShowAdminNavbar(isAuthenticated, pathname)
    ensures isAuthenticated && pathname != Some(LoginPage) && pathname != Some(CallbackPage) ==>
      ShowAdminNavbar(isAuthenticated, pathname)
  {
  }

  /** Paths the admin layout wraps: "/admin" and everything below it. */
  predicate UnderAdminLayout(p: string)
  {
    p == LoginPage || StartsWith(p, "/admin/")
  }

  /** The number of headers on a page the admin layout wraps: the public one plus the admin one. */
  function HeaderCount(isAuthenticated: bool, p: string): (n: nat)
    requires UnderAdminLayout(p)
    ensures n <= 2
  {
    (if ShowNavbar(Some(p)) then 1 else 0) + (if ShowAdminNavbar(isAuthenticated, Some(p)) then 1 else 0)
  }

  /**
   * Together with the public bar's rule: a page under /admin never gets both
   * headers; it gets one exactly when the user is signed in or the page is login
   * or callback, and none otherwise.
   */
  lemma HeadersUnderAdmin(isAuthenticated: bool, p: string)
    requires UnderAdminLayout(p)
    ensures HeaderCount(isAuthenticated, p) <= 1
    ensures HeaderCount(isAuthenticated, p) == 1 <==> isAuthenticated || p == LoginPage || p == CallbackPage
  {
    assert StartsWith(p, "/admin") by {
      if p != LoginPage {
        assert p[..6] == p[..7][..6];
      }
    }
  }

  /** A signed-in dashboard has one header, a signed-out one none. */
  lemma DashboardHeaders()
    ensures UnderAdminLayout("/admin/dashboard")
    ensures HeaderCount(true, "/admin/dashboard") == 1
    ensures HeaderCount(false, "/admin/dashboard") == 0
  {
    assert "/admin/dashboard"[..7] == "/admin/";
    HeadersUnderAdmin(true, "/admin/dashboard");
    HeadersUnderAdmin(false, "/admin/dashboard");
  }

  /** `theme === "light" ? "dark" : "light"`. */
  function Toggled(theme: string): (t: string)
    ensures t == "dark" || t == "light"
    ensures t != theme || (theme != "light" && theme != "dark")
  {
    if theme == "light" then "dark" else "light"
  }

  /** Toggling twice gives back a light or dark theme. */
  lemma ToggleTwice(theme: string)
    requires theme == "light" || theme == "dark"
    ensures Toggled(Toggled(theme)) == theme
  {
  }

  /** `savedTheme || systemTheme`: any stored text that is not empty wins. */
  function InitialTheme(storage: map<string, string>, systemDark: bool): (t: string)
    ensures ThemeKey in storage && storage[ThemeKey] != "" ==> t == storage[ThemeKey]
    ensures (ThemeKey !in storage || storage[ThemeKey] == "") ==> t == (if systemDark then "dark" else "light")
  {
    if ThemeKey in storage && storage[ThemeKey] != "" then storage[ThemeKey]
    else if systemDark then "dark" else "light"
  }

  class Layout {
    var theme: string
    var isAuthenticated: bool
    /** Local storage of the browser. */
    var storage: map<string, string>
    /** Whether the document element carries the "dark" class. */
    var darkClass: bool
    /** Targets handed to the router, oldest first. */
    var navigations: seq<string>

    /** The document's "dark" class always mirrors the theme. */
    predicate Valid()
      reads this
    {
      darkClass <==> theme == "dark"
    }

    constructor(storage: map<string, string>)
      ensures theme == "light" && !isAuthenticated && !darkClass
      ensures this.storage == storage && navigations == []
      ensures Valid()
    {
      theme := "light";
      isAuthenticated := false;
      this.storage := storage;
      darkClass := false;
      navigations := [];
    }

    /** The theme effect on first render. */
    method InitTheme(systemDark: bool)
      modifies this
      ensures Valid()
      ensures theme == InitialTheme(old(storage), systemDark)
      ensures storage == old(storage) && isAuthenticated == old(isAuthenticated) && navigations == old(navigations)
    {
      var saved: Option<string> := if ThemeKey in storage then Some(storage[ThemeKey]) else None;
      var system := if systemDark then "dark" else "light";
      var initial := if saved.Some? && saved.value != "" then saved.value else system;
      theme := initial;
      darkClass := initial == "dark";
    }

    /** `toggleTheme`: flips the theme and stores it. */
    method ToggleTheme()
      requires Valid()
      modifies this
      ensures Valid()
      ensures theme == Toggled(old(theme))
      ensures storage == old(storage)[ThemeKey := theme]
      ensures isAuthenticated == old(isAuthenticated) && navigations == old(navigations)
    {
      var newTheme := if theme == "light" then "dark" else "light";
      theme := newTheme;
      storage := storage[ThemeKey := newTheme];
      darkClass := newTheme == "dark";
    }

    /** The session check and the auth listener: `setIsAuthenticated(!!session)`. */
    method SessionChanged(hasSession: bool)
      modifies this
      ensures isAuthenticated == hasSession
      ensures theme == old(theme) && darkClass == old(darkClass)
      ensures storage == old(storage) && navigations == old(navigations)
    {
      isAuthenticated := hasSession;
    }

    /** `handleSignOut`: after signing out, the router goes to the login page. */
    method HandleSignOut()
      modifies this
      ensures navigations == old(navigations) + [LoginPage]
      ensures theme == old(theme) && darkClass == old(darkClass)
      ensures storage == old(storage) && isAuthenticated == old(isAuthenticated)
    {
      navigations := navigations + [LoginPage];
    }
  }
}
