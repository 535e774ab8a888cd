# Session and authentication core of a Next.js dashboard, in Dafny

This project models the part of the dashboard that decides who is signed in
and what they may see:

- the **route guard** (`src/middleware.ts`): a first-match decision over the
  requested path and the `token` cookie, run only on the paths its matcher
  lists, that redirects to `/dashboard` or `/auth/login` or lets the request
  through with security and CORS headers (module `RouteGuard`);
- the **session issuance handlers** (`POST /api/auth/login`, `/logout`,
  `/forgot-password`): validation, the configuration check, the upstream call,
  and the session cookie minted on success or cleared on logout (modules
  `LoginRoute`, `LogoutRoute`, `ForgotPasswordRoute`, sharing the types in
  `Http`);
- the **API client** (`src/lib/apiClient.ts`): its configuration, the response
  interceptor that classifies every failure and redirects on 401, and the
  `ApiResponse<T>` envelope (module `ApiClient`);
- the **client session store** (`src/store/authStore.ts`) as a class with the
  four fields and six actions (module `AuthStore`);
- the **cart store** (`src/store/cartStore.ts`) as a class whose actions replace
  `items`, `totalPrice` and `totalItems`, specified by pure functions over the
  sequence of lines (module `CartStore`).

Module `Session` connects them: the cookie written by login is the one the
guard accepts, the cookie written by logout removes the session in any
browser state, and a rejected login made through the API client triggers the
client's 401 redirect.

Inputs the handlers read from their environment are parameters: the parsed
request body (`None` when `request.json()` throws), `BACKEND_API_URL` as
`backendUrl: Option<string>`, `NODE_ENV === 'production'` as `isProduction`,
the upstream call's outcome as `BackendResult` (`Replied(status, data)` or
`Threw`), and `typeof window !== 'undefined'` as `hasWindow`. Every optional
string the code tests with `!x`, `x && ...` or `x || fallback` is read with
JavaScript truthiness (`Http.Truthy`: present and non-empty), so a missing
cookie and an empty one are the same thing everywhere.

A failed login is always answered with 401, whatever status the backend
replied with (`src/app/api/auth/login/route.ts:57`);
`LoginRoute.RejectionIs401` states it.

The guard tests `pathname.startsWith("/dashboard")`, which would also catch
`/dashboardx`, but the matcher only runs it on `/dashboard` and
`/dashboard/...`; `RouteGuard.Middleware` models both, and
`RouteGuard.DashboardProtected` states the protection over exactly the paths
the matcher sends.

Browser cookie handling (`Http.Store`) follows RFC 6265 section 5.3: a cookie
written with a Max-Age of zero or less is removed. It is used only by the
lemmas of `Session`.

## Model

| member | source | states |
|---|---|---|
| RouteGuard.Guard | src/middleware.ts:17-50 | the decision table as equivalences: redirect to `/dashboard` iff a token is present and the path is `/` or an auth page; redirect to `/auth/login` iff there is no token and the path is `/` or starts with `/dashboard`; otherwise pass through with the security headers |
| RouteGuard.PassHeaders | src/middleware.ts:39-48 | pass-through sets exactly the CSP and three CORS headers; `Access-Control-Allow-Origin` is the request origin, or `*` when it is missing or empty |
| RouteGuard.Matched | src/middleware.ts:53-55 | the matcher's path set; no ensures of its own: `RouteGuard.Middleware` states that the guard runs exactly on it, `RouteGuard.DashboardProtected` what it does on its dashboard paths |
| RouteGuard.Middleware | src/middleware.ts:53-55 | the guard is evaluated exactly on `/`, `/dashboard`, `/dashboard/...`, `/auth/login`, `/auth/forgot-password`; every other path bypasses it |
| RouteGuard.EmptyTokenIsNoToken | src/middleware.ts:19-32 | an empty `token` cookie and a missing one give the same decision on every path |
| RouteGuard.DecidedByPresence | src/middleware.ts:17-34 | the decision depends on the token only through whether it is present and non-empty |
| RouteGuard.NoRedirectLoop | src/middleware.ts:17-34 | following any redirect once, with the same cookie, lands on a matched path that passes through |
| RouteGuard.DashboardProtected | src/middleware.ts:26-29 | every dashboard path the matcher sends is redirected to `/auth/login` without a token and passes through with one |
| RouteGuard.AuthPagesTurnAwaySignedIn | src/middleware.ts:31-34 | the login and forgot-password pages redirect to `/dashboard` with a token and are served without one |
| LoginRoute.SessionCookie | src/app/api/auth/login/route.ts:45-51 | the session cookie: `token`, httpOnly, secure in production, sameSite strict, max-age 604800, path `/`; no ensures of its own: `LoginRoute.Post` states it is written exactly on success with the backend token, `Session.LoginThenDashboard` that the guard accepts it |
| LoginRoute.Post | src/app/api/auth/login/route.ts:3-67 | status is 200, 400, 401 or 500; a cookie is written iff the status is 200 iff the input is valid, the backend configured and the reply grants a session; that cookie holds the backend's token; the body is always the handler's own envelope; the upstream call is made iff input is valid and configured, with the credentials verbatim to `<backendUrl>/login` |
| LoginRoute.ValidationComesFirst | src/app/api/auth/login/route.ts:9-25 | missing or empty username or password gives 400 `Username and password are required`, no call and no cookie, whatever the configuration and backend |
| LoginRoute.MissingConfiguration | src/app/api/auth/login/route.ts:17-25 | valid credentials with no backend URL give 500 `Server configuration error`, no call and no cookie |
| LoginRoute.RejectionIs401 | src/app/api/auth/login/route.ts:54-58 | any reply that does not grant a session gives 401, with the backend's message or `Login failed`, and no cookie, whatever the backend's status |
| LoginRoute.ExceptionsAreInternalErrors | src/app/api/auth/login/route.ts:60-65 | a body that fails to parse, or an upstream hop that throws, gives 500 `Internal server error` with no cookie |
| LoginRoute.SuccessBodyOmitsToken | src/app/api/auth/login/route.ts:37-42 | every successful login answers the same body `{success: true, message: 'Login successful'}`, whatever the token |
| LoginRoute.ConfigurationErrorIsNotRejection | src/app/api/auth/login/route.ts:17-58 | with a rejecting backend, a configured URL gives 401 and a missing one 500: the two failures are never conflated |
| LogoutRoute.ClearedCookie | src/app/api/auth/logout/route.ts:11-17 | the cleared cookie; no ensures of its own: `LogoutRoute.Post` states it is the login cookie with value `""` and max-age 0, `Session.LogoutThenDashboard` and `Session.ClearedValueIsNoToken` what the guard makes of it |
| LogoutRoute.Post | src/app/api/auth/logout/route.ts:3-19 | always 200 `Logged out successfully` with a `token` cookie that is the login cookie with an empty value and max-age 0 (same name, path, httpOnly, sameSite, secure) |
| ForgotPasswordRoute.Post | src/app/api/auth/forgot-password/route.ts:3-43 | never writes a cookie; calls `<backendUrl>/forgot-password` with the email iff it is non-empty and the backend configured; then echoes the backend's status and body verbatim; a forwarded body only ever comes from a backend reply |
| ForgotPasswordRoute.ValidationComesFirst | src/app/api/auth/forgot-password/route.ts:7-23 | a missing or empty email gives 400 `Email is required` and no call, whatever the configuration and backend |
| ForgotPasswordRoute.MissingConfiguration | src/app/api/auth/forgot-password/route.ts:15-23 | a valid email with no backend URL gives 500 `Server configuration error` and no call |
| ForgotPasswordRoute.ExceptionsAreInternalErrors | src/app/api/auth/forgot-password/route.ts:36-41 | any exception gives 500 `Internal server error` |
| ApiClient.Classify | src/lib/apiClient.ts:3-14 | an envelope is a success iff `success` holds and `data` is present, a failure iff `success` is false and `message` is present; `data` is only ever read from a success |
| ApiClient.Serialize | src/lib/apiClient.ts:3-14 | a response is sent with `success` equal to its alternative and with `data` only when it is a success |
| ApiClient.ClassifySerialize | src/lib/apiClient.ts:3-14 | every `ApiResponse` is read back as itself |
| ApiClient.HandleError | src/lib/apiClient.ts:35-56 | the rejection is always the original error; redirect to `/auth/login` iff a response exists with status 401 and a window exists; the three log kinds are exclusive and exhaustive (response, request only, neither) |
| ApiClient.Intercept | src/lib/apiClient.ts:28-32 | the interceptor never changes how a call settles: successes pass unchanged, failures reject with the same error; it navigates only for failures `HandleError` redirects |
| ApiClient.UnauthorizedRedirectsAndRejects | src/lib/apiClient.ts:40-55 | a 401 in a browser both forces `/auth/login` and still rejects the caller with the same error |
| ApiClient.ApiClient.constructor | src/lib/apiClient.ts:19-26 | base URL defaults to `/api`, the only default header is `Content-Type: application/json`, credentials are sent |
| ApiClient.SharedClient | src/lib/apiClient.ts:116 | the exported instance uses base URL `/api`, JSON content type and credentials |
| AuthStore.LoggedOut | src/store/authStore.ts:35-39 | logout's state is the initial one except that `isLoading` keeps its value |
| AuthStore.LoggedOutIdempotent | src/store/authStore.ts:35-46 | logging out twice equals logging out once; logging out of the initial state changes nothing |
| AuthStore.AuthStore.constructor | src/store/authStore.ts:24-28 | the store starts with no user, not authenticated, not loading, no error |
| AuthStore.AuthStore.SetUser | src/store/authStore.ts:30 | changes `user` only |
| AuthStore.AuthStore.SetIsAuthenticated | src/store/authStore.ts:31 | changes `isAuthenticated` only |
| AuthStore.AuthStore.SetIsLoading | src/store/authStore.ts:32 | changes `isLoading` only |
| AuthStore.AuthStore.SetError | src/store/authStore.ts:33 | changes `error` only |
| AuthStore.AuthStore.Logout | src/store/authStore.ts:35-39 | clears user, authentication and error and leaves `isLoading` as it was |
| AuthStore.AuthStore.Reset | src/store/authStore.ts:41-46 | yields the initial state from any state |
| AuthStore.AuthenticatedWithoutUser | src/store/authStore.ts:30-31 | the setters validate nothing: a store can be authenticated with no user |
| AuthStore.LogoutTwice | src/store/authStore.ts:35-39 | two logouts leave the state one logout leaves |
| CartStore.TotalItems | src/store/cartStore.ts:43 | the item-count `reduce` (also lines 56, 76, 95); no ensures of its own: `CartStore.TotalsAppend`, `AddedTotals`, `RemovedTotals` and `UpdateTotals` state how each action changes it |
| CartStore.TotalPrice | src/store/cartStore.ts:42 | the price `reduce` (also lines 55, 75, 94); no ensures of its own: specified by the same lemmas as `TotalItems` |
| CartStore.Find | src/store/cartStore.ts:31 | finds a line iff one has the id, and returns the first line with it |
| CartStore.Removed | src/store/cartStore.ts:54 | the remaining lines are exactly the lines whose id differs; none has the id |
| CartStore.TotalsAppend | src/store/cartStore.ts:42-43 | both totals add up over concatenation of carts |
| CartStore.MergeQuantity | src/store/cartStore.ts:35-37 | only quantities change: same lines, order, ids, names, prices and images; `CartStore.AddExisting` and `MergeTotals` say which quantities and by how much |
| CartStore.Added | src/store/cartStore.ts:31-40 | afterwards the id is in the cart; the cart grows by one line only when the id was new; the set of ids present becomes the old set plus the item's id; `AddExisting`, `AddNew`, `AddedTotals` and `AddedKeepsUnique` give the rest |
| CartStore.AddExisting | src/store/cartStore.ts:34-37 | with the id present, lines, order, ids, names, prices and images stay; each line with the id gains the incoming quantity, others are unchanged |
| CartStore.AddNew | src/store/cartStore.ts:38-40 | with the id absent, the incoming item is appended at the end |
| CartStore.MergeTotals | src/store/cartStore.ts:35-43 | with unique ids, merging adds the incoming quantity once, at the existing line's price |
| CartStore.AddedTotals | src/store/cartStore.ts:29-50 | with unique ids, `addItem` raises the item total by the incoming quantity and the price total by that quantity times the price of the line it lands in |
| CartStore.AddedKeepsUnique | src/store/cartStore.ts:31-40 | unique ids stay unique after `addItem` |
| CartStore.RemovedKeepsOrder | src/store/cartStore.ts:54 | removal works piecewise over concatenation, so surviving lines keep their order |
| CartStore.RemovedAbsent | src/store/cartStore.ts:54 | removing an absent id changes nothing |
| CartStore.RemovedTotals | src/store/cartStore.ts:52-63 | with unique ids, removal takes the removed line's quantity and price times quantity off the totals |
| CartStore.RemovedKeepsUnique | src/store/cartStore.ts:54 | unique ids stay unique after removal |
| CartStore.WithQuantity | src/store/cartStore.ts:71-73 | only quantities change: same lines, order, ids, names, prices and images; `UpdateChangesOnlyQuantity`, `UpdateUnknownId` and `UpdateTotals` say which quantities |
| CartStore.UpdateChangesOnlyQuantity | src/store/cartStore.ts:71-73 | setting a quantity changes only the quantity of the lines with that id |
| CartStore.UpdateUnknownId | src/store/cartStore.ts:71-73 | setting the quantity of an absent id changes nothing |
| CartStore.UpdateKeepsUnique | src/store/cartStore.ts:71-73 | unique ids stay unique after a quantity update |
| CartStore.UpdateTotals | src/store/cartStore.ts:65-83 | with unique ids, the line's old quantity is replaced by the new one in both totals |
| CartStore.CartStore.constructor | src/store/cartStore.ts:24-27 | the cart starts empty with both totals 0 |
| CartStore.CartStore.AddItem | src/store/cartStore.ts:29-50 | the lines become the merged-or-appended lines and the totals are recomputed; unique ids stay unique; with consistent totals the item count grows by the incoming quantity |
| CartStore.CartStore.RemoveItem | src/store/cartStore.ts:52-63 | the lines become those without the id and the totals are recomputed; unique ids stay unique |
| CartStore.CartStore.UpdateQuantity | src/store/cartStore.ts:65-83 | a quantity of 0 or less changes nothing at all; otherwise the quantities are set and the totals recomputed; consistent totals and unique ids are preserved either way |
| CartStore.CartStore.ClearCart | src/store/cartStore.ts:85-90 | yields the initial empty state |
| CartStore.CartStore.CalculateTotals | src/store/cartStore.ts:92-101 | leaves the lines untouched and makes both totals agree with them |
| Http.Lookup | src/middleware.ts:5 | `request.cookies.get("token")?.value` over the browser's cookies; no ensures of its own: used by `Session.LoginThenDashboard` and `Session.LogoutThenDashboard` |
| Session.LoginThenDashboard | src/app/api/auth/login/route.ts:45-51 | after a successful login the browser holds the backend's token and the dashboard is let through |
| Session.LogoutThenDashboard | src/app/api/auth/logout/route.ts:11-17 | after logout, from any browser state, no token is held and the dashboard redirects to `/auth/login` |
| Session.LogoutIdempotent | src/app/api/auth/logout/route.ts:11-17 | logging out twice leaves the browser's cookies as logging out once |
| Session.ClearedValueIsNoToken | src/middleware.ts:19-27 | the cleared cookie's empty value is treated by the guard as no token on every path |
| Session.RejectedLoginForcesLoginPage | src/lib/apiClient.ts:41-55 | a login the backend rejects, made through the API client, comes back as 401 and makes the interceptor force `/auth/login` while rejecting with the same error |

## Left out

- Logging (`console.log`/`console.error`) and the development-only diagnostic block of the middleware: observability only.
- Redirect targets are paths; `new URL(path, request.url)` resolving them against the request's origin is not modelled.
- `fetch`, `request.json()`, `response.json()` and axios internals: their outcomes are the inputs `body` and `BackendResult`, which include the exception case.
- Request fields are modelled as absent or a string; JSON values of other types (numbers, objects) for `username`, `password`, `email` or the backend's fields are not.
- ForgotPasswordRoute.Post: a backend status that `NextResponse.json` rejects (outside 200-599) would throw into the `catch` block; the model echoes any status.
- LogoutRoute.Post: its `catch` block is not modelled, because nothing in its `try` block can throw.
- The API client's `login`, `logout`, `forgotPassword`, `get`, `post`, `put` and `delete` wrappers: each sends one request through axios and returns `response.data`, rethrowing errors.
- ApiClient.HandleError: the response body logged with the status is an opaque string, and `window.location.href` is returned as `redirectTo` instead of being assigned.
- Zustand's `create`/`set` and subscriptions: only the resulting field updates are modelled.
- CartStore: prices and quantities are integers (a price in the smallest currency unit), not JavaScript floating-point numbers; the totals are summed from the front, which for integers equals `reduce` from the left.
- The login form, the forgot-password and login pages and the splash screen are UI code and are not part of this model.
