/**
 * src/components/ConditionalNavbar.tsx: whether the public navigation bar shows
 * for the current path. It shows everywhere outside "/admin…", and on the admin
 * login page "/admin" and the OAuth callback "/admin/callback"; every other path
 * beginning with "/admin", by plain prefix, hides it. The path is `None` while the
 * router has none, and then `pathname?.startsWith` gives `undefined`, which shows it.
 */
module ConditionalNavbar {
  import opened Text

  const LoginPage: string := "/admin"
  const CallbackPage: string := "/admin/callback"

  predicate IsAdminRoute(pathname: Option<string>)
  {
    pathname.Some? && StartsWith(pathname.value, "/admin")
  }

  /** `!isAdminRoute || isLoginPage || isCallbackPage`. */
  predicate ShowNavbar(pathname: Option<string>)
  {
    !IsAdminRoute(pathname) || pathname == Some(LoginPage) || pathname == Some(CallbackPage)
  }

  /** Hidden exactly on the "/admin…" paths other than login and callback. */
  lemma HiddenExactly(pathname: Option<string>)
    ensures !ShowNavbar(pathname) <==>
      pathname.Some? && StartsWith(pathname.value, "/admin")
      && pathname.value != LoginPage && pathname.value != CallbackPage
  {
  }

  /** Paths that do not begin with "/admin" show it, and so does a missing path. */
  lemma ShownOutsideAdmin(p: string)
    requires !StartsWith(p, "/admin")
    ensures ShowNavbar(Some(p)) && ShowNavbar(None)
  {
  }

  /** The prefix test is on characters, not path segments: "/administrator" hides it too. */
  lemma PrefixNotSegment()
    ensures !ShowNavbar(Some("/administrator"))
    ensures !ShowNavbar(Some("/admin/dashboard"))
    ensures ShowNavbar(Some(LoginPage)) && ShowNavbar(Some(CallbackPage))
    ensures ShowNavbar(Some("/plants"))
  {
    assert "/administrator"[..6] == "/admin";
    assert "/admin/dashboard"[..6] == "/admin";
    assert "/plants"[1] != "/admin"[1];
  }
}
