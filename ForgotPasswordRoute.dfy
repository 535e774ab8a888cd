/**
 * `POST /api/auth/forgot-password`: validates the email, checks that the
 * backend is configured, and hands the backend's answer back unchanged. It
 * never writes a cookie.
 */
module ForgotPasswordRoute {
  import opened Wrappers
  import opened Http

  /** The field read from the request's JSON body. */
  datatype ForgotBody = ForgotBody(email: Option<string>)

  const MissingEmail := Response(400, Envelope(false, "Email is required"), None)

  /**
   * The handler. `body` is `None` when `request.json()` throws; `backend` is
   * what the upstream call yields if it is made.
   */
  function Post(body: Option<ForgotBody>, backendUrl: Option<string>, backend: BackendResult): (h: Handled)
    ensures h.response.cookie.None?
    ensures h.call.Some? <==> body.Some? && Truthy(body.value.email) && Truthy(backendUrl)
    ensures h.call.Some? ==> h.call.value == BackendCall(backendUrl.value + "/forgot-password",
                                                         EmailOnly(body.value.email.value))
    ensures h.call.Some? && backend.Replied? ==> h.response == Response(backend.status, Forwarded(backend.data), None)
    ensures h.response.body.Forwarded? ==> h.call.Some? && backend.Replied?
  {
    match body
    case None => Handled(InternalError, None)
    case Some(fields) =>
      if !Truthy(fields.email) then
        Handled(MissingEmail, None)
      else if !Truthy(backendUrl) then
        Handled(ConfigurationError, None)
      else
        var call := Some(BackendCall(backendUrl.value + "/forgot-password", EmailOnly(fields.email.value)));
        match backend
        case Threw => Handled(InternalError, call)
        case Replied(status, data) => Handled(Response(status, Forwarded(data), None), call)
  }

  /** A missing or empty email is refused with 400 whatever the configuration and the backend. */
  lemma ValidationComesFirst(fields: ForgotBody, backendUrl: Option<string>, backend: BackendResult)
    requires !Truthy(fields.email)
    ensures Post(Some(fields), backendUrl, backend) == Handled(MissingEmail, None)
  {
  }

  /** A valid email without a configured backend gives the configuration error and no call. */
  lemma MissingConfiguration(fields: ForgotBody, backendUrl: Option<string>, backend: BackendResult)
    requires Truthy(fields.email) && !Truthy(backendUrl)
    ensures Post(Some(fields), backendUrl, backend) == Handled(ConfigurationError, None)
  {
  }

  /** Any exception becomes the generic 500. */
  lemma ExceptionsAreInternalErrors(body: Option<ForgotBody>, backendUrl: Option<string>)
    requires body.Some? ==> Truthy(body.value.email) && Truthy(backendUrl)
    ensures Post(body, backendUrl, Threw).response == InternalError
  {
  }
}
