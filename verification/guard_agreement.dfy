/** How the token-based interceptor of middleware.ts and the `authorized`
    callback of auth.config.ts relate when the token is present exactly when
    the session carries a user. */
module GuardAgreement {
  import opened Schema
  import Middleware
  import AuthConfig

  /** Where the callback's verdict sends the browser, as an interceptor
      decision. */
  function AsDecision(v: AuthConfig.Verdict): (d: Middleware.Decision)
    ensures d == Middleware.Next <==> v == AuthConfig.Allow
  {
    match AuthConfig.Destination(v)
    case None => Middleware.Next
    case Some(target) => Middleware.Redirect(target)
  }

  /** On the dashboard and on the login page both guards reach the same
      outcome; elsewhere they agree exactly for visitors who are not signed
      in, while a signed-in visitor passes the interceptor but is sent to the
      dashboard by the callback. */
  lemma Agreement<Tok, U>(pathname: string, token: Option<Tok>, auth: Option<AuthConfig.Session<U>>)
    requires token.Some? == AuthConfig.IsLoggedIn(auth)
    ensures Middleware.StartsWith(pathname, Middleware.DashboardPath) || pathname == Middleware.LoginPath ==>
              Middleware.Decide(pathname, token) == AsDecision(AuthConfig.Authorized(auth, pathname))
    ensures !Middleware.StartsWith(pathname, Middleware.DashboardPath) && pathname != Middleware.LoginPath ==>
              (Middleware.Decide(pathname, token) == AsDecision(AuthConfig.Authorized(auth, pathname))
               <==> token.None?)
  {
  }
}
