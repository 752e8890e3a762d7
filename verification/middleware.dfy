/** The request interceptor of middleware.ts: a decision on the request path
    and on whether a session token could be decoded. */
module Middleware {
  import opened Schema

  const LoginPath := "/login"
  const DashboardPath := "/dashboard"

  /** What the interceptor answers: let the request through, or redirect the
      browser to a path on the same origin. */
  datatype Decision = Next | Redirect(target: string)

  predicate StartsWith(s: string, prefix: string) {
    |prefix| <= |s| && s[..|prefix|] == prefix
  }

  /** `isAuthenticated` is exactly whether a decoded token is present. */
  predicate IsAuthenticated<Tok>(token: Option<Tok>) {
    token.Some?
  }

  /** The routing decision for a request to `pathname` carrying `token`. */
  function Decide<Tok>(pathname: string, token: Option<Tok>): (d: Decision)
    ensures d == Redirect(LoginPath) <==> StartsWith(pathname, DashboardPath) && !IsAuthenticated(token)
    ensures d == Redirect(DashboardPath) <==> pathname == LoginPath && IsAuthenticated(token)
    ensures d == Next <==>
              !(StartsWith(pathname, DashboardPath) && !IsAuthenticated(token)) &&
              !(pathname == LoginPath && IsAuthenticated(token))
  {
    var isAuthenticated := IsAuthenticated(token);
    if StartsWith(pathname, DashboardPath) && !isAuthenticated then
      Redirect(LoginPath)
    else if pathname == LoginPath && isAuthenticated then
      Redirect(DashboardPath)
    else
      Next
  }

  /** The login page is not under the dashboard prefix, so the two redirect
      cases never apply to the same path. */
  lemma LoginOutsideDashboard(pathname: string)
    ensures !(StartsWith(pathname, DashboardPath) && pathname == LoginPath)
  {
  }

  /** The decision sees the token only through its presence. */
  lemma OnlyPresenceMatters<Tok>(pathname: string, t1: Option<Tok>, t2: Option<Tok>)
    requires t1.Some? == t2.Some?
    ensures Decide(pathname, t1) == Decide(pathname, t2)
  {
  }

  /** Following a redirect with the same authentication state never
      redirects again. */
  lemma NoRedirectLoop<Tok>(pathname: string, token: Option<Tok>)
    ensures Decide(pathname, token).Redirect? ==> Decide(Decide(pathname, token).target, token) == Next
  {
  }
}
