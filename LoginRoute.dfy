/**
 * `POST /api/auth/login`: validates the credentials, checks that the backend
 * is configured, forwards the credentials, and on success mints the session
 * cookie without ever putting the token in the response body.
 */
module LoginRoute {
  import opened Wrappers
  import opened Http

  /** The fields read from the request's JSON body. */
  datatype LoginBody = LoginBody(username: Option<string>, password: Option<string>)

  /** Seven days, in seconds. */
  const SessionMaxAge := 60 * 60 * 24 * 7

  /** The session cookie minted on a successful login; `secure` only in production. */
  function SessionCookie(token: string, isProduction: bool): Cookie
  {
    Cookie("token", token, true, isProduction, "strict", SessionMaxAge, "/")
  }

  const MissingCredentials := Response(400, Envelope(false, "Username and password are required"), None)

  /** Whether both credentials are present and non-empty. */
  predicate ValidCredentials(fields: LoginBody)
  {
    Truthy(fields.username) && Truthy(fields.password)
  }

  /** Whether the backend's reply grants a session: `data.success && data.token`. */
  predicate Grants(backend: BackendResult)
  {
    backend.Replied? && backend.data.success && Truthy(backend.data.token)
  }

  /**
   * The handler. `body` is `None` when `request.json()` throws; `backendUrl` is
   * `BACKEND_API_URL`; `backend` is what the upstream call yields if it is made;
   * `isProduction` is `NODE_ENV === 'production'`.
   */
  function Post(body: Option<LoginBody>, backendUrl: Option<string>, backend: BackendResult, isProduction: bool)
    : (h: Handled)
    ensures h.response.status in {200, 400, 401, 500}
    ensures h.response.cookie.Some? <==> h.response.status == 200
    ensures h.response.cookie.Some? <==>
              body.Some? && ValidCredentials(body.value) && Truthy(backendUrl) && Grants(backend)
    ensures h.response.cookie.Some? ==> h.response.cookie.value == SessionCookie(backend.data.token.value, isProduction)
    ensures h.response.body.Envelope?
    ensures h.call.Some? <==> body.Some? && ValidCredentials(body.value) && Truthy(backendUrl)
    ensures h.call.Some? ==>
              h.call.value == BackendCall(backendUrl.value + "/login",
                                          Credentials(body.value.username.value, body.value.password.value))
  {
    match body
    case None => Handled(InternalError, None)
    case Some(fields) =>
      if !Truthy(fields.username) || !Truthy(fields.password) then
        Handled(MissingCredentials, None)
      else if !Truthy(backendUrl) then
        Handled(ConfigurationError, None)
      else
        var call := Some(BackendCall(backendUrl.value + "/login",
                                     Credentials(fields.username.value, fields.password.value)));
        match backend
        case Threw => Handled(InternalError, call)
        case Replied(_, data) =>
          if data.success && Truthy(data.token) then
            Handled(Response(200, Envelope(true, "Login successful"),
                             Some(SessionCookie(data.token.value, isProduction))), call)
          else
            Handled(Response(401, Envelope(false, Or(data.message, "Login failed")), None), call)
  }

  /**
   * Missing or empty credentials are refused with 400 before anything else is
   * looked at: whatever the configuration and the backend, no call is made and
   * no cookie is written.
   */
  lemma ValidationComesFirst(fields: LoginBody, backendUrl: Option<string>, backend: BackendResult, isProduction: bool)
    requires !ValidCredentials(fields)
    ensures Post(Some(fields), backendUrl, backend, isProduction) == Handled(MissingCredentials, None)
  {
  }

  /** Valid credentials without a configured backend give the configuration error, with no call and no cookie. */
  lemma MissingConfiguration(fields: LoginBody, backendUrl: Option<string>, backend: BackendResult, isProduction: bool)
    requires ValidCredentials(fields) && !Truthy(backendUrl)
    ensures Post(Some(fields), backendUrl, backend, isProduction) == Handled(ConfigurationError, None)
  {
  }

  /**
   * A failed login is answered with 401 whatever status the backend used, with
   * the backend's message or `Login failed`, and no cookie.
   */
  lemma RejectionIs401(fields: LoginBody, backendUrl: Option<string>, status: int, data: BackendData, isProduction: bool)
    requires ValidCredentials(fields) && Truthy(backendUrl)
    requires !Grants(Replied(status, data))
    ensures Post(Some(fields), backendUrl, Replied(status, data), isProduction).response
         == Response(401, Envelope(false, if Truthy(data.message) then data.message.value else "Login failed"), None)
  {
  }

  /** Any exception, from parsing the request or from the upstream hop, becomes the generic 500 with no cookie. */
  lemma ExceptionsAreInternalErrors(body: Option<LoginBody>, backendUrl: Option<string>, isProduction: bool)
    requires body.Some? ==> ValidCredentials(body.value) && Truthy(backendUrl)
    ensures Post(body, backendUrl, Threw, isProduction).response == InternalError
    ensures Post(None, backendUrl, Threw, isProduction).call.None?
  {
  }

  /**
   * On success the response is the same whatever the token is: the body never
   * carries it; only the cookie does.
   */
  lemma SuccessBodyOmitsToken(fields: LoginBody, backendUrl: Option<string>, status1: int, data1: BackendData,
                              status2: int, data2: BackendData, isProduction: bool)
    requires ValidCredentials(fields) && Truthy(backendUrl)
    requires Grants(Replied(status1, data1)) && Grants(Replied(status2, data2))
    ensures Post(Some(fields), backendUrl, Replied(status1, data1), isProduction).response.body
         == Post(Some(fields), backendUrl, Replied(status2, data2), isProduction).response.body
         == Envelope(true, "Login successful")
  {
  }

  /** A missing backend URL (500) is never answered like a rejected login (401). */
  lemma ConfigurationErrorIsNotRejection(fields: LoginBody, url: Option<string>, status: int, data: BackendData,
                                         isProduction: bool)
    requires ValidCredentials(fields) && !Grants(Replied(status, data))
    ensures Truthy(url) ==> Post(Some(fields), url, Replied(status, data), isProduction).response.status == 401
    ensures !Truthy(url) ==> Post(Some(fields), url, Replied(status, data), isProduction).response.status == 500
  {
  }
}
