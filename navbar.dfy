/**
 * The public navigation bar of src/components/Navbar.tsx: the search box's target
 * URL, the sign-in state kept from the initial admin check and from auth events,
 * logout, the mobile menu, and which account links show. The admin check and the
 * session are inputs; router pushes are recorded in `navigations`.
 */
module Navbar {
  import opened Text
  import opened UrlEncoding

  /**
   * `onSearch`: the form's "q" value (`?? ""` when absent), trimmed, goes into the
   * query string of "/plants" through `encodeURIComponent`; a blank one leaves it off.
   */
  function SearchTarget(formValue: Option<string>): string
  {
    var raw := if formValue.Some? then formValue.value else "";
    var q := Trim(raw);
    if q != "" then "/plants?q=" + EncodeURIComponent(q) else "/plants"
  }

  /** A missing, empty or whitespace-only query goes to the bare catalogue. */
  lemma BlankSearch(formValue: Option<string>)
    requires formValue.None? || AllWhite(formValue.value)
    ensures SearchTarget(formValue) == "/plants"
  {
    if formValue.Some? {
      TrimEmptyIffAllWhite(formValue.value);
    }
  }

  /**
   * Any other query appears as a single `q` parameter whose form-urlencoded
   * decoding is exactly the UTF-8 of the trimmed query, and whose encoded text
   * holds none of the characters that would end the parameter early.
   */
  lemma SearchRoundTrip(q: string)
    requires !AllWhite(q)
    ensures SearchTarget(Some(q)) == "/plants?q=" + EncodeURIComponent(Trim(q))
    ensures FormDecode(EncodeURIComponent(Trim(q))) == Utf8(Trim(q))
    ensures forall i :: 0 <= i < |EncodeURIComponent(Trim(q))| ==>
      EncodeURIComponent(Trim(q))[i] !in {'&', '#', '=', '+', ' '}
  {
    TrimEmptyIffAllWhite(q);
    EncodeURIComponentRoundTrip(Trim(q));
    EncodeURIComponentQuerySafe(Trim(q));
  }

  /** Surrounding spaces do not change where a search goes. */
  lemma SearchIgnoresSurroundingSpace(q: string)
    ensures SearchTarget(Some(Trim(q))) == SearchTarget(Some(q))
  {
    TrimIdempotent(q);
  }

  /** The session user an auth event carries. */
  datatype User = User(email: Option<string>)

  /** `session.user.email || null`. */
  function EmailOrNull(u: User): (e: Option<string>)
    ensures e.Some? ==> e.value != "" && e == u.email
  {
    if u.email.Some? && u.email.value != "" then u.email else None
  }

  /** Which account links the bar shows, on desktop and in the mobile menu alike. */
  datatype Links = Links(dashboard: bool, adminAccess: bool, logout: bool, email: bool)

  function AccountLinks(checking: bool, signedIn: bool, userEmail: Option<string>): (l: Links)
    ensures checking ==> !l.dashboard && !l.adminAccess && !l.logout && !l.email
    ensures !checking ==> (l.dashboard <==> signedIn) && (l.adminAccess <==> !signedIn)
    ensures l.logout <==> l.dashboard
    ensures l.email ==> l.logout && userEmail.Some?
  {
    Links(!checking && signedIn, !checking && !signedIn, !checking && signedIn,
          !checking && signedIn && userEmail.Some? && userEmail.value != "")
  }

  /** After the first check exactly one of Dashboard and Admin Access shows. */
  lemma ExactlyOneEntryLink(signedIn: bool, userEmail: Option<string>)
    ensures var l := AccountLinks(false, signedIn, userEmail);
      l.dashboard != l.adminAccess
  {
  }

  class Bar {
    var signedIn: bool
    var userEmail: Option<string>
    var checking: bool
    var mobileMenuOpen: bool
    /** Targets handed to the router, oldest first. */
    var navigations: seq<string>

    function Shown(): Links
      reads this
    {
      AccountLinks(checking, signedIn, userEmail)
    }

    constructor()
      ensures !signedIn && userEmail.None? && checking && !mobileMenuOpen && navigations == []
      ensures Shown() == Links(false, false, false, false)
    {
      signedIn := false;
      userEmail := None;
      checking := true;
      mobileMenuOpen := false;
      navigations := [];
    }

    /** `checkAuth`: the first admin check settles the sign-in flag and ends the checking state. */
    method FinishInitialCheck(adminStatus: bool)
      modifies this
      ensures signedIn == adminStatus && !checking
      ensures userEmail == old(userEmail) && mobileMenuOpen == old(mobileMenuOpen) && navigations == old(navigations)
      ensures Shown().dashboard != Shown().adminAccess
    {
      signedIn := adminStatus;
      checking := false;
    }

    /**
     * The auth listener. SIGNED_IN with a user re-runs the admin check and keeps
     * the user's email; SIGNED_OUT clears both; anything else changes nothing.
     * `adminStatus` is what that admin check would answer.
     */
    method OnAuthStateChange(event: string, sessionUser: Option<User>, adminStatus: bool)
      modifies this
      ensures event == "SIGNED_IN" && sessionUser.Some? ==>
        signedIn == adminStatus && userEmail == EmailOrNull(sessionUser.value)
      ensures event == "SIGNED_OUT" ==> !signedIn && userEmail.None?
      ensures event != "SIGNED_OUT" && !(event == "SIGNED_IN" && sessionUser.Some?) ==>
        signedIn == old(signedIn) && userEmail == old(userEmail)
      ensures checking == old(checking) && mobileMenuOpen == old(mobileMenuOpen) && navigations == old(navigations)
    {
      if event == "SIGNED_IN" && sessionUser.Some? {
        signedIn := adminStatus;
        userEmail := EmailOrNull(sessionUser.value);
      } else if event == "SIGNED_OUT" {
        signedIn := false;
        userEmail := None;
      }
    }

    /** `handleLogout`: signed out, email forgotten, back to the home page. */
    method HandleLogout()
      modifies this
      ensures !signedIn && userEmail.None?
      ensures navigations == old(navigations) + ["/"]
      ensures checking == old(checking) && mobileMenuOpen == old(mobileMenuOpen)
      ensures !checking ==> Shown() == Links(false, true, false, false)
    {
      signedIn := false;
      userEmail := None;
      navigations := navigations + ["/"];
    }

    /** The mobile menu's logout button also closes the menu. */
    method MobileLogout()
      modifies this
      ensures !signedIn && userEmail.None? && !mobileMenuOpen
      ensures navigations == old(navigations) + ["/"]
      ensures checking == old(checking)
    {
      HandleLogout();
      mobileMenuOpen := false;
    }

    /** The menu button flips the mobile menu. */
    method ToggleMobileMenu()
      modifies this
      ensures mobileMenuOpen == !old(mobileMenuOpen)
      ensures signedIn == old(signedIn) && userEmail == old(userEmail)
      ensures checking == old(checking) && navigations == old(navigations)
    {
      mobileMenuOpen := !mobileMenuOpen;
    }

    /** `onSearch`. */
    method OnSearch(formValue: Option<string>)
      modifies this
      ensures navigations == old(navigations) + [SearchTarget(formValue)]
      ensures signedIn == old(signedIn) && userEmail == old(userEmail)
      ensures checking == old(checking) && mobileMenuOpen == old(mobileMenuOpen)
    {
      var raw := if formValue.Some? then formValue.value else "";
      var q := Trim(raw);
      var target := "/plants";
      if q != "" {
        target := "/plants?q=" + EncodeURIComponent(q);
      }
      navigations := navigations + [target];
    }
  }
}
