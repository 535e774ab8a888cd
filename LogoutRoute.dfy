/** `POST /api/auth/logout`: answers success and clears the session cookie. */
module LogoutRoute {
  import opened Wrappers
  import opened Http
  import LoginRoute

  /** The cookie written by logout: empty, expiring at once, otherwise as login writes it. */
  function ClearedCookie(isProduction: bool): Cookie
  {
    Cookie("token", "", true, isProduction, "strict", 0, "/")
  }

  /** The handler; it reads no input, so its only parameter is `NODE_ENV === 'production'`. */
  function Post(isProduction: bool): (r: Response)
    ensures r.status == 200 && r.body == Envelope(true, "Logged out successfully")
    ensures r.cookie.Some?
    ensures forall token: string ::
              r.cookie.value == LoginRoute.SessionCookie(token, isProduction).(value := "", maxAge := 0)
  {
    Response(200, Envelope(true, "Logged out successfully"), Some(ClearedCookie(isProduction)))
  }
}
