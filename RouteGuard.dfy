/**
 * The edge middleware: a first-match decision over the requested path and the
 * `token` cookie, evaluated only on the paths its matcher lists.
 */
module RouteGuard {
  import opened Wrappers
  import opened Http

  const ContentSecurityPolicy :=
    "default-src 'self'; script-src 'self' 'unsafe-inline' 'unsafe-eval'; style-src 'self' 'unsafe-inline';"
  const AllowedMethods := "GET, POST, PUT, DELETE, OPTIONS"
  const AllowedHeaders := "Content-Type, Authorization"

  /** A redirect to a path of the same site, or `NextResponse.next()` carrying extra headers. */
  datatype Decision = Redirect(location: string) | Next(headers: map<string, string>)

  /** `s.startsWith(prefix)` */
  predicate StartsWith(s: string, prefix: string)
  {
    prefix <= s
  }

  /** The pages a signed-in visitor is sent away from. */
  predicate IsAuthPage(pathname: string)
  {
    pathname == "/auth/login" || pathname == "/auth/forgot-password"
  }

  /** The headers set on every response the guard lets through; `origin` is the request's `Origin` header. */
  function PassHeaders(origin: Option<string>): (h: map<string, string>)
    ensures h.Keys == {"Content-Security-Policy", "Access-Control-Allow-Origin",
                       "Access-Control-Allow-Methods", "Access-Control-Allow-Headers"}
    ensures h["Access-Control-Allow-Origin"] == if Truthy(origin) then origin.value else "*"
  {
    map[
      "Content-Security-Policy" := ContentSecurityPolicy,
      "Access-Control-Allow-Origin" := Or(origin, "*"),
      "Access-Control-Allow-Methods" := AllowedMethods,
      "Access-Control-Allow-Headers" := AllowedHeaders
    ]
  }

  /**
   * The decision for one request: `/` goes to the dashboard or the login page,
   * the dashboard needs a token, the auth pages turn a signed-in visitor away,
   * and everything else passes with the security headers.
   */
  function Guard(pathname: string, token: Option<string>, origin: Option<string>): (d: Decision)
    ensures d == Redirect("/dashboard") <==> Truthy(token) && (pathname == "/" || IsAuthPage(pathname))
    ensures d == Redirect("/auth/login") <==>
              !Truthy(token) && (pathname == "/" || StartsWith(pathname, "/dashboard"))
    ensures d.Redirect? ==> d.location == "/dashboard" || d.location == "/auth/login"
    ensures d.Next? ==> d.headers == PassHeaders(origin)
  {
    if pathname == "/" then
      if Truthy(token) && token.value != "" then Redirect("/dashboard") else Redirect("/auth/login")
    else if StartsWith(pathname, "/dashboard") && !Truthy(token) then
      Redirect("/auth/login")
    else if IsAuthPage(pathname) && Truthy(token) then
      Redirect("/dashboard")
    else
      Next(PassHeaders(origin))
  }

  /** `config.matcher`: `/`, `/dashboard/:path*`, `/auth/login`, `/auth/forgot-password`. */
  predicate Matched(pathname: string)
  {
    pathname == "/" || pathname == "/dashboard" || StartsWith(pathname, "/dashboard/") || IsAuthPage(pathname)
  }

  /** What the edge does with a request: `None` when the matcher skips the middleware altogether. */
  function Middleware(pathname: string, token: Option<string>, origin: Option<string>): (r: Option<Decision>)
    ensures r.Some? <==> Matched(pathname)
    ensures r.Some? ==> r.value == Guard(pathname, token, origin)
  {
    if Matched(pathname) then Some(Guard(pathname, token, origin)) else None
  }

  /** A missing cookie and an empty one are the same to the guard, on every path. */
  lemma EmptyTokenIsNoToken(pathname: string, origin: Option<string>)
    ensures Guard(pathname, Some(""), origin) == Guard(pathname, None, origin)
  {
  }

  /** The decision depends on the token only through whether it is present and non-empty. */
  lemma DecidedByPresence(pathname: string, t1: Option<string>, t2: Option<string>, origin: Option<string>)
    requires Truthy(t1) == Truthy(t2)
    ensures Guard(pathname, t1, origin) == Guard(pathname, t2, origin)
  {
  }

  /** Following a redirect once, with the same cookie, is let through: the guard never loops. */
  lemma NoRedirectLoop(pathname: string, token: Option<string>, origin: Option<string>, origin': Option<string>)
    requires Guard(pathname, token, origin).Redirect?
    ensures Guard(Guard(pathname, token, origin).location, token, origin').Next?
    ensures Middleware(Guard(pathname, token, origin).location, token, origin').Some?
  {
    DashboardIsNotAuthPage("/dashboard");
    AuthPagesAreNotDashboard("/auth/login");
  }

  /** Every path the matcher sends through the dashboard is refused to a visitor without a token. */
  lemma DashboardProtected(pathname: string, token: Option<string>, origin: Option<string>)
    requires pathname == "/dashboard" || StartsWith(pathname, "/dashboard/")
    ensures !Truthy(token) ==> Middleware(pathname, token, origin) == Some(Redirect("/auth/login"))
    ensures Truthy(token) ==> Middleware(pathname, token, origin) == Some(Next(PassHeaders(origin)))
  {
    DashboardIsNotAuthPage(pathname);
  }

  /** With a token the auth pages send the visitor to the dashboard; without one they are served. */
  lemma AuthPagesTurnAwaySignedIn(pathname: string, token: Option<string>, origin: Option<string>)
    requires IsAuthPage(pathname)
    ensures Truthy(token) ==> Middleware(pathname, token, origin) == Some(Redirect("/dashboard"))
    ensures !Truthy(token) ==> Middleware(pathname, token, origin) == Some(Next(PassHeaders(origin)))
  {
    AuthPagesAreNotDashboard(pathname);
  }

  /** No dashboard path is `/` or an auth page. */
  lemma DashboardIsNotAuthPage(pathname: string)
    requires StartsWith(pathname, "/dashboard")
    ensures pathname != "/" && !IsAuthPage(pathname)
  {
    assert pathname[1] == 'd';
  }

  /** No auth page is `/` or lies under the dashboard. */
  lemma AuthPagesAreNotDashboard(pathname: string)
    requires IsAuthPage(pathname)
    ensures pathname != "/" && !StartsWith(pathname, "/dashboard")
  {
    assert pathname[1] == 'a' != "/dashboard"[1];
  }
}
