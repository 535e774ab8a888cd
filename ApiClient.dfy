/**
 * The browser-side API client: its configuration, the response interceptor
 * that classifies every failure, and the response envelope callers receive.
 */
module ApiClient {
  import opened Wrappers

  /** `{ success: true, data }` or `{ success: false, message, code? }`. */
  datatype ApiResponse<T> = ApiSuccess(data: T) | ApiFailure(message: string, code: Option<string>)
  {
    /** The `success` discriminant. */
    predicate Success()
    {
      ApiSuccess?
    }
  }

  /** A JSON envelope as it arrives, before a caller has branched on `success`. */
  datatype WireEnvelope<T> = WireEnvelope(success: bool, data: Option<T>, message: Option<string>, code: Option<string>)

  /**
   * Reads an envelope as an `ApiResponse`: one that carries `success: true`
   * must carry `data`, one that carries `success: false` must carry `message`,
   * and anything else fits neither alternative of the union.
   */
  function Classify<T>(e: WireEnvelope<T>): (r: Option<ApiResponse<T>>)
    ensures r.Some? && r.value.Success() ==> e.success && e.data == Some(r.value.data)
    ensures r.Some? && !r.value.Success() ==> !e.success && e.message == Some(r.value.message) && e.code == r.value.code
    ensures r.None? <==> (e.success && e.data.None?) || (!e.success && e.message.None?)
  {
    if e.success then
      if e.data.Some? then Some(ApiSuccess(e.data.value)) else None
    else
      if e.message.Some? then Some(ApiFailure(e.message.value, e.code)) else None
  }

  /** The envelope a response is sent as. */
  function Serialize<T>(r: ApiResponse<T>): (e: WireEnvelope<T>)
    ensures e.success == r.Success()
    ensures e.data.Some? <==> r.Success()
  {
    match r
    case ApiSuccess(data) => WireEnvelope(true, Some(data), None, None)
    case ApiFailure(message, code) => WireEnvelope(false, None, Some(message), code)
  }

  /** Every response survives being sent and read back. */
  lemma ClassifySerialize<T>(r: ApiResponse<T>)
    ensures Classify(Serialize(r)) == Some(r)
  {
  }

  /** The part of an axios error the interceptor looks at: `error.response`, `error.request`, `error.message`. */
  datatype ErrorResponse = ErrorResponse(status: int, data: string)
  datatype AxiosError = AxiosError(response: Option<ErrorResponse>, requestSent: bool, message: string)

  /** What the interceptor logs. */
  datatype LogEntry = ApiError(status: int, data: string) | NetworkError | SetupError(message: string)

  /** The interceptor's effects on one failure: its log entry, the navigation it forces, and the rejection it returns. */
  datatype ErrorHandling = ErrorHandling(log: LogEntry, redirectTo: Option<string>, rejection: AxiosError)

  /**
   * `handleError`. `hasWindow` is `typeof window !== 'undefined'`; the
   * assignment to `window.location.href` is returned as `redirectTo`.
   */
  function HandleError(error: AxiosError, hasWindow: bool): (h: ErrorHandling)
    ensures h.rejection == error
    ensures h.redirectTo.Some? <==> error.response.Some? && error.response.value.status == 401 && hasWindow
    ensures h.redirectTo.Some? ==> h.redirectTo.value == "/auth/login"
    ensures h.log.ApiError? <==> error.response.Some?
    ensures h.log.ApiError? ==> h.log.status == error.response.value.status && h.log.data == error.response.value.data
    ensures h.log.NetworkError? <==> error.response.None? && error.requestSent
    ensures h.log.SetupError? <==> error.response.None? && !error.requestSent
  {
    var redirect := if error.response.Some? && error.response.value.status == 401 && hasWindow
                    then Some("/auth/login") else None;
    var log := if error.response.Some? then ApiError(error.response.value.status, error.response.value.data)
               else if error.requestSent then NetworkError
               else SetupError(error.message);
    ErrorHandling(log, redirect, error)
  }

  /** How a request settles: with a response, or with an error. */
  datatype Settled<R> = Fulfilled(response: R) | Rejected(error: AxiosError)

  /**
   * The response interceptor: `(response) => response` for successes,
   * `handleError` for failures. It returns how the call settles for its caller
   * and the navigation it forces, if any.
   */
  function Intercept<R>(s: Settled<R>, hasWindow: bool): (r: (Settled<R>, Option<string>))
    ensures r.0 == s
    ensures r.1.Some? <==> s.Rejected? && HandleError(s.error, hasWindow).redirectTo.Some?
    ensures r.1.Some? ==> r.1.value == "/auth/login"
  {
    match s
    case Fulfilled(response) => (Fulfilled(response), None)
    case Rejected(error) =>
      var h := HandleError(error, hasWindow);
      (Rejected(h.rejection), h.redirectTo)
  }

  /** A 401 in the browser both forces the login page and still rejects the caller's call with the same error. */
  lemma UnauthorizedRedirectsAndRejects<R>(status: int, data: string, requestSent: bool, message: string)
    requires status == 401
    ensures var e := AxiosError(Some(ErrorResponse(status, data)), requestSent, message);
            Intercept<R>(Rejected(e), true) == (Rejected(e), Some("/auth/login"))
  {
  }

  /** The client object: an axios instance configured once, at construction. */
  class ApiClient {
    var baseURL: string
    var headers: map<string, string>
    var withCredentials: bool

    /** `new ApiClient(baseURL?)`; `None` stands for the argument left out. */
    constructor (baseURL: Option<string>)
      ensures this.baseURL == if baseURL.Some? then baseURL.value else "/api"
      ensures headers == map["Content-Type" := "application/json"]
      ensures withCredentials
    {
      this.baseURL := baseURL.GetOr("/api");
      headers := map["Content-Type" := "application/json"];
      withCredentials := true;
    }
  }

  /** `export const apiClient = new ApiClient()`: the shared instance every browser call goes through. */
  method SharedClient() returns (c: ApiClient)
    ensures c.baseURL == "/api"
    ensures c.headers == map["Content-Type" := "application/json"]
    ensures c.withCredentials
  {
    c := new ApiClient(None);
  }
}
