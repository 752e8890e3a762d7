/** The shared authentication configuration of auth.config.ts: the sign-in
    page, the `authorized` callback and the session settings. */
module AuthConfig {
  import opened Schema
  import Middleware

  /** The page the framework sends a request to when `authorized` denies it. */
  const SignInPage := "/login"

  /** The session as the framework hands it to `authorized`; `user` is absent
      when nobody is signed in. */
  datatype Session<U> = Session(user: Option<U>)

  /** What the callback answers: `true`, `false` (the framework then redirects
      to the sign-in page) or an explicit redirect response. */
  datatype Verdict = Allow | Deny | RedirectTo(target: string)

  /** `isLoggedIn` is exactly whether the session carries a user. */
  predicate IsLoggedIn<U>(auth: Option<Session<U>>) {
    auth.Some? && auth.value.user.Some?
  }

  function Authorized<U>(auth: Option<Session<U>>, pathname: string): (v: Verdict)
    ensures Middleware.StartsWith(pathname, Middleware.DashboardPath) ==>
              (v == Allow <==> IsLoggedIn(auth)) && (v == Deny <==> !IsLoggedIn(auth))
    ensures !Middleware.StartsWith(pathname, Middleware.DashboardPath) ==>
              (v == RedirectTo(Middleware.DashboardPath) <==> IsLoggedIn(auth)) && (v == Allow <==> !IsLoggedIn(auth))
  {
    var isLoggedIn := IsLoggedIn(auth);
    var isOnDashboard := Middleware.StartsWith(pathname, Middleware.DashboardPath);
    if isOnDashboard then
      if isLoggedIn then Allow else Deny
    else if isLoggedIn then
      RedirectTo(Middleware.DashboardPath)
    else
      Allow
  }

  /** Where the browser ends up sent by a verdict, if anywhere. */
  function Destination(v: Verdict): (t: Option<string>)
    ensures t.None? <==> v == Allow
    ensures v == Deny ==> t == Some(SignInPage)
    ensures v.RedirectTo? ==> t == Some(v.target)
  {
    match v
    case Allow => None
    case Deny => Some(SignInPage)
    case RedirectTo(target) => Some(target)
  }

  /** Following the callback's redirect, or the framework's redirect on a
      denial, with the same session is always allowed. */
  lemma NoRedirectLoop<U>(auth: Option<Session<U>>, pathname: string)
    ensures Destination(Authorized(auth, pathname)).Some? ==>
              Authorized(auth, Destination(Authorized(auth, pathname)).value) == Allow
  {
  }

  /** The session strategy and lifetimes, in seconds. */
  datatype SessionSettings = SessionSettings(strategy: string, maxAge: nat, updateAge: nat)

  function SessionConfig(): (c: SessionSettings)
    ensures c.strategy == "jwt"
    ensures 0 < c.updateAge < c.maxAge
  {
    SessionSettings("jwt", 120, 60)
  }
}
