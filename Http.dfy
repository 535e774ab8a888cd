/**
 * Values the route handlers and the route guard exchange with the outside
 * world: optional strings read with JavaScript truthiness, the session cookie,
 * JSON response bodies, and what the upstream identity backend answers.
 */
module Http {
  import opened Wrappers

  /** `!!x` for a value that is either absent or a string: only a present, non-empty string is truthy. */
  predicate Truthy(x: Option<string>)
  {
    x.Some? && x.value != ""
  }

  /** `x || fallback` for an optional string. */
  function Or(x: Option<string>, fallback: string): string
  {
    if Truthy(x) then x.value else fallback
  }

  /** A `Set-Cookie` written with `res.cookies.set(name, value, options)`. */
  datatype Cookie = Cookie(
    name: string,
    value: string,
    httpOnly: bool,
    secure: bool,
    sameSite: string,
    maxAge: int,
    path: string)

  /** What the upstream identity backend answers with: `{ success, token?, message? }`. */
  datatype BackendData = BackendData(success: bool, token: Option<string>, message: Option<string>)

  /** The outcome of `fetch(...)` followed by `response.json()`: a reply, or an exception from either. */
  datatype BackendResult = Replied(status: int, data: BackendData) | Threw

  /** The JSON body of a handler's response. */
  datatype Body =
    | Envelope(success: bool, message: string)  // `{ success, message }` built by the handler itself
    | Forwarded(data: BackendData)              // the backend's own JSON, passed on as it came

  /** A `NextResponse.json(body, { status })`, with the cookie written on it, if any. */
  datatype Response = Response(status: int, body: Body, cookie: Option<Cookie>)

  /** The JSON payload a handler posts upstream. */
  datatype Payload = Credentials(username: string, password: string) | EmailOnly(email: string)

  /** A `POST` to the identity backend: the URL and the payload. */
  datatype BackendCall = BackendCall(url: string, payload: Payload)

  /** What a handler does: the response it returns and the upstream call it made, if it made one. */
  datatype Handled = Handled(response: Response, call: Option<BackendCall>)

  /** The answer of every handler's `catch` block. */
  const InternalError := Response(500, Envelope(false, "Internal server error"), None)

  /** The answer when `BACKEND_API_URL` is not set. */
  const ConfigurationError := Response(500, Envelope(false, "Server configuration error"), None)

  /** A browser's cookie store for one site, reduced to name and value. */
  type CookieJar = map<string, string>

  /**
   * Applies a `Set-Cookie` to the jar as RFC 6265 section 5.3 prescribes: a
   * Max-Age of zero or less expires the cookie at once, so it is removed;
   * otherwise the cookie of that name is replaced.
   */
  function Store(jar: CookieJar, c: Cookie): (r: CookieJar)
    ensures c.maxAge <= 0 ==> c.name !in r
    ensures c.maxAge > 0 ==> c.name in r && r[c.name] == c.value
    ensures forall n :: n != c.name ==> (n in r <==> n in jar) && (n in r ==> r[n] == jar[n])
  {
    if c.maxAge <= 0 then jar - {c.name} else jar[c.name := c.value]
  }

  /** `request.cookies.get(name)?.value` */
  function Lookup(jar: CookieJar, name: string): Option<string>
  {
    if name in jar then Some(jar[name]) else None
  }
}
