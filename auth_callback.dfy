/**
 * The OAuth landing page of src/app/admin/callback/page.tsx. Its effect looks up
 * the signed-in user, asks whether that user is an admin, and ends in one of four
 * outcomes, each with a status, a message and a delayed redirect. The one-second
 * wait, the user lookup and the admin check are inputs: each either returns a
 * value or throws.
 */
module AuthCallback {
  import opened Text

  datatype Status = Loading | Success | Error

  /** What a thrown value looks like to `catch`: an `Error` with its message, or anything else. */
  datatype Thrown = ErrorObject(message: string) | OtherValue

  /** How an awaited call settled. */
  datatype Step<T> = Returned(value: T) | Threw(error: Thrown)

  datatype User = User(email: Option<string>)

  /** A `setTimeout(() => router.push(target), delayMs)`. */
  datatype Redirect = Redirect(target: string, delayMs: nat)

  datatype Outcome = Outcome(status: Status, message: string, redirect: Redirect)

  const InitialMessage: string := "Verifying your credentials..."
  const NoUserMessage: string := "Authentication failed. Please try again."

  /** `${user.email}`: an absent email prints as "undefined". */
  function EmailText(u: User): (t: string)
    ensures u.email.Some? ==> t == u.email.value
  {
    if u.email.Some? then u.email.value else "undefined"
  }

  function DeniedMessage(u: User): string
  {
    "Access denied. " + EmailText(u) + " is not a registered admin. Please contact the administrator to grant access."
  }

  function WelcomeMessage(u: User): string
  {
    "Welcome back, " + EmailText(u) + "! Redirecting to dashboard..."
  }

  function CaughtMessage(e: Thrown): string
  {
    "An error occurred: " + (if e.ErrorObject? then e.message else "Unknown error")
  }

  /**
   * The outcome table of `handleCallback`: a thrown lookup or admin check goes to
   * the error branch, no user sends back to login, a non-admin goes home, and an
   * admin goes to the dashboard.
   */
  function CallbackOutcome(user: Step<Option<User>>, admin: Step<bool>): (o: Outcome)
    ensures o.status != Loading
    ensures o.status == Success <==> user.Returned? && user.value.Some? && admin == Returned(true)
    ensures o.status == Success ==> o.redirect.target == "/admin/dashboard"
    ensures o.redirect.target == "/" <==> user.Returned? && user.value.Some? && admin == Returned(false)
  {
    match user
    case Threw(e) => Outcome(Error, CaughtMessage(e), Redirect("/admin", 2000))
    case Returned(None) => Outcome(Error, NoUserMessage, Redirect("/admin", 2000))
    case Returned(Some(u)) =>
      match admin
      case Threw(e) => Outcome(Error, CaughtMessage(e), Redirect("/admin", 2000))
      case Returned(false) => Outcome(Error, DeniedMessage(u), Redirect("/", 3000))
      case Returned(true) => Outcome(Success, WelcomeMessage(u), Redirect("/admin/dashboard", 1000))
  }

  /** A denied user is told their own email. */
  lemma DeniedNamesUser(u: User)
    requires u.email.Some?
    ensures var m := CallbackOutcome(Returned(Some(u)), Returned(false)).message;
      Contains(m, u.email.value)
  {
    var m := DeniedMessage(u);
    var k := |"Access denied. "|;
    assert m[k..k + |u.email.value|] == u.email.value;
    assert OccursAt(m, u.email.value, k);
  }

  /** Without a user the admin answer does not matter; the run goes back to login. */
  lemma NoUserIgnoresAdmin(admin1: Step<bool>, admin2: Step<bool>)
    ensures CallbackOutcome(Returned(None), admin1) == CallbackOutcome(Returned(None), admin2)
    ensures CallbackOutcome(Returned(None), admin1) == Outcome(Error, NoUserMessage, Redirect("/admin", 2000))
  {
  }

  /** Every error outcome that is not a denial sends the user back to the login page. */
  lemma ErrorsReturnToLogin(user: Step<Option<User>>, admin: Step<bool>)
    requires CallbackOutcome(user, admin).status == Error
    requires CallbackOutcome(user, admin).redirect.target != "/"
    ensures CallbackOutcome(user, admin).redirect == Redirect("/admin", 2000)
  {
  }

  class CallbackPage {
    var status: Status
    var message: string
    /** Redirects scheduled, oldest first. */
    var redirects: seq<Redirect>
    /** How many times the admin check was asked. */
    var adminChecks: nat

    constructor()
      ensures status == Loading && message == InitialMessage
      ensures redirects == [] && adminChecks == 0
    {
      status := Loading;
      message := InitialMessage;
      redirects := [];
      adminChecks := 0;
    }

    /**
     * `handleCallback`. It settles the page on exactly one outcome and schedules
     * exactly one redirect; the admin check is asked only once a user was found.
     */
    method HandleCallback(user: Step<Option<User>>, admin: Step<bool>)
      modifies this
      ensures status == CallbackOutcome(user, admin).status && status != Loading
      ensures message == CallbackOutcome(user, admin).message
      ensures redirects == old(redirects) + [CallbackOutcome(user, admin).redirect]
      ensures adminChecks == old(adminChecks) + (if user.Returned? && user.value.Some? then 1 else 0)
    {
      var caught: Option<Thrown> := None;
      match user {
        case Threw(e) =>
          caught := Some(e);
        case Returned(found) =>
          if found.None? {
            Settle(Error, NoUserMessage, Redirect("/admin", 2000));
            return;
          }
          var u := found.value;
          adminChecks := adminChecks + 1;
          match admin {
            case Threw(e) =>
              caught := Some(e);
            case Returned(isAdmin) =>
              if !isAdmin {
                Settle(Error, DeniedMessage(u), Redirect("/", 3000));
                return;
              }
              Settle(Success, WelcomeMessage(u), Redirect("/admin/dashboard", 1000));
          }
      }
      if caught.Some? {
        Settle(Error, CaughtMessage(caught.value), Redirect("/admin", 2000));
      }
    }

    /** `setStatus`, `setMessage` and the `setTimeout` that schedules the redirect. */
    method Settle(s: Status, m: string, r: Redirect)
      modifies this
      ensures status == s && message == m && redirects == old(redirects) + [r]
      ensures adminChecks == old(adminChecks)
    {
      status := s;
      message := m;
      redirects := redirects + [r];
    }
  }
}
