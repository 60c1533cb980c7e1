/** The login redirect of the web app: every page except the landing page and the login
    page needs the auth cookie, and a signed-in user who opens the login page is sent to
    the dashboard. */
module Middleware {
  import opened Common

  const Root: string := "/"
  const Login: string := "/login"
  const Dashboard: string := "/dashboard"

  /** What the middleware answers: let the request through, or redirect to a path. */
  datatype Decision = Next | Redirect(target: string)

  /** The `auth-token` cookie counts only when present and not empty (JavaScript truthiness). */
  predicate SignedIn(token: Option<string>) {
    token.Some? && token.value != ""
  }

  predicate IsPublic(pathname: string) {
    pathname == Root || pathname == Login
  }

  /** `middleware`, on the request's path and cookie. */
  function Decide(pathname: string, token: Option<string>): (d: Decision)
    ensures d == Redirect(Login) <==> !IsPublic(pathname) && !SignedIn(token)
    ensures d == Redirect(Dashboard) <==> pathname == Login && SignedIn(token)
    ensures d.Redirect? ==> d.target == Login || d.target == Dashboard
  {
    if !IsPublic(pathname) && !SignedIn(token) then Redirect(Login)
    else if pathname == Login && SignedIn(token) then Redirect(Dashboard)
    else Next
  }

  /** Exactly the landing page and the login page can be reached without signing in. */
  lemma PublicWithoutToken(pathname: string)
    ensures Decide(pathname, None) == Next <==> pathname == Root || pathname == Login
  {
  }

  /** A redirect target lets the same request through: there is no redirect loop. */
  lemma NoRedirectLoop(pathname: string, token: Option<string>)
    requires Decide(pathname, token).Redirect?
    ensures Decide(Decide(pathname, token).target, token) == Next
  {
  }

  /** A signed-in user reaches every page but the login page. */
  lemma SignedInPassesThrough(pathname: string, token: Option<string>)
    requires SignedIn(token) && pathname != Login
    ensures Decide(pathname, token) == Next
  {
  }
}
