/**
 * How the pieces meet in one browser: the cookie the login and logout
 * handlers write, the guard that reads it back on the next navigation, and
 * the API client that sees the handlers' statuses.
 */
module Session {
  import opened Wrappers
  import opened Http
  import RouteGuard
  import LoginRoute
  import LogoutRoute
  import ApiClient

  /** The `token` cookie the browser sends with its next request. */
  function Token(jar: CookieJar): Option<string>
  {
    Lookup(jar, "token")
  }

  /**
   * A successful login followed by a navigation to the dashboard is let
   * through: the cookie it writes is the one the guard accepts.
   */
  lemma LoginThenDashboard(jar: CookieJar, fields: LoginRoute.LoginBody, backendUrl: Option<string>,
                           backend: BackendResult, isProduction: bool, pathname: string, origin: Option<string>)
    requires LoginRoute.Post(Some(fields), backendUrl, backend, isProduction).response.status == 200
    requires pathname == "/dashboard" || RouteGuard.StartsWith(pathname, "/dashboard/")
    ensures var c := LoginRoute.Post(Some(fields), backendUrl, backend, isProduction).response.cookie.value;
            Token(Store(jar, c)) == backend.data.token &&
            RouteGuard.Middleware(pathname, Token(Store(jar, c)), origin).value.Next?
  {
    var c := LoginRoute.Post(Some(fields), backendUrl, backend, isProduction).response.cookie.value;
    RouteGuard.DashboardProtected(pathname, Token(Store(jar, c)), origin);
  }

  /**
   * After logout, whatever cookies the browser held, the token is gone and a
   * navigation to the dashboard is sent to the login page.
   */
  lemma LogoutThenDashboard(jar: CookieJar, isProduction: bool, pathname: string, origin: Option<string>)
    requires pathname == "/dashboard" || RouteGuard.StartsWith(pathname, "/dashboard/")
    ensures Token(Store(jar, LogoutRoute.Post(isProduction).cookie.value)).None?
    ensures RouteGuard.Middleware(pathname, Token(Store(jar, LogoutRoute.Post(isProduction).cookie.value)), origin)
         == Some(RouteGuard.Redirect("/auth/login"))
  {
    RouteGuard.DashboardProtected(pathname, None, origin);
  }

  /** Logging out twice leaves the browser's cookies as logging out once does. */
  lemma LogoutIdempotent(jar: CookieJar, isProduction: bool)
    ensures var c := LogoutRoute.Post(isProduction).cookie.value;
            Store(Store(jar, c), c) == Store(jar, c)
  {
  }

  /** Even a client that kept the cleared cookie's empty value is treated as having no token, on every path. */
  lemma ClearedValueIsNoToken(isProduction: bool, pathname: string, origin: Option<string>)
    ensures RouteGuard.Guard(pathname, Some(LogoutRoute.Post(isProduction).cookie.value.value), origin)
         == RouteGuard.Guard(pathname, None, origin)
  {
    RouteGuard.EmptyTokenIsNoToken(pathname, origin);
  }

  /**
   * A rejected login made through the API client (`apiClient.login`) comes
   * back as a 401, which the client's interceptor treats like an expired
   * session: in a browser it forces the login page, while the caller still
   * receives the rejection.
   */
  lemma RejectedLoginForcesLoginPage(fields: LoginRoute.LoginBody, backendUrl: Option<string>, status: int,
                                     data: BackendData, isProduction: bool, requestSent: bool, message: string)
    requires LoginRoute.ValidCredentials(fields) && Truthy(backendUrl)
    requires !LoginRoute.Grants(Replied(status, data))
    ensures var r := LoginRoute.Post(Some(fields), backendUrl, Replied(status, data), isProduction).response;
            var e := ApiClient.AxiosError(Some(ApiClient.ErrorResponse(r.status, Or(data.message, "Login failed"))),
                                          requestSent, message);
            ApiClient.HandleError(e, true) == ApiClient.ErrorHandling(ApiClient.ApiError(401, Or(data.message, "Login failed")),
                                                                      Some("/auth/login"), e)
  {
    LoginRoute.RejectionIs401(fields, backendUrl, status, data, isProduction);
  }
}
