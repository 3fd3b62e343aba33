# Authenticated requests and token refresh of a course-browsing web app

This project models the session and token plumbing of a Next.js course
catalogue in Dafny: the authenticated axios instance with its two
interceptors, the internal refresh endpoint, the credentials provider with
its `jwt` and `session` callbacks, and the two server-side ways of fetching
the course list.

- `common.dfy` (`Common`): optional JSON fields, JavaScript truthiness
  (`Truthy`, `Or`, `OrStatus` for `a || b`), the error value the code
  inspects (`error.message`, `error.response?.status`), settled promises
  (`Settled`), the `Bearer <token>` header and the `Course` record.
- `axios.dfy` (`Axios`): the authenticated axios instance of `lib/axios.ts`.
  `Send` and `Respond` are the specification of one call
  `authAxiosInstance(config)`. They are mutually recursive like the code: the
  replay after a refresh goes through `Send` again, and termination rests on
  the `_retry` flag. `RequestConfig` (headers, `_retry`) and `AuthClient`
  (`window.location.href`, plus counters of session lookups, requests on the
  wire, refresh calls and redirects) perform the same steps in place. Their
  methods are proved equal to `Send`/`Respond`. The outside world is an
  oracle, `Network`: the k-th session lookup, the k-th request on the wire
  and the k-th refresh call get its k-th answer.
- `refresh_route.dfy` (`RefreshRoute`): the `GET /api/auth/refresh` handler
  as a function from the settled `getToken` and the settled backend
  `POST /refresh-token` to the response and the backend call made.
- `auth.dfy` (`Auth`): `authorize`, and the `jwt` and `session` callbacks as
  record updates that return the updated record.
- `courses_route.dfy` (`CoursesRoute`) and `server_query.dfy` (`ServerQuery`):
  the `GET /api/courses` handler and `fetchCourses`. Each takes the settled
  `getServerSession` and the settled backend `GET /courses`.
- `flow.dfy` (`Flow`): properties that span files.

The code does not do what a hardened design would, and the model follows the
code. Neither the interceptor nor the refresh route writes a new token
anywhere, so the replay presents whatever the session lookup returns again
(`Axios.WireCarriesBearer`). On refresh failure the caller gets the refresh
error, not the original 401. Concurrent 401s each refresh on their own.

A failed session lookup inside the request interceptor rejects before
anything is sent. Axios hands that rejection to the response interceptor's
error handler, but a fetch error has no HTTP response. The 401 test
(`lib/axios.ts:40`) therefore fails, and the error is rejected unchanged
without reading `_retry`. The model rejects it directly.

The guards the code tests are named predicates and small functions, used
inside the contracts below rather than stated on their own:
`Common.Truthy` is JavaScript truthiness of an optional string;
`Auth.HasCredentials` is the username and password test of
`lib/auth.ts:15`; `Auth.SignedIn` is the `!session || !session.accessToken`
test of `app/api/courses/route.ts:10` and `lib/server-query.ts:15`, negated;
`RefreshRoute.HasRefreshToken` and `RefreshRoute.IssuedAccessToken` are the
tests of `app/api/auth/refresh/route.ts:10` and `:22`, negated;
`Axios.RefreshOk` is `res.ok` of `lib/axios.ts:46`; `Axios.RefreshError` is
the error the refresh step rejects with (`lib/axios.ts:46`, `:55`); and
`Axios.Redirect` is the assignment `window.location.href = '/login'` of
`lib/axios.ts:54`. `Common.Or` and `Common.OrStatus` define `a || b` for a
string and for a status.

## Model

| member | source | states |
|---|---|---|
| `Common.CoursesGet` | app/api/courses/route.ts:17-21 | the call handed to `authAxiosInstance.get` has path `/courses` and config headers exactly `{Authorization: Bearer <accessToken>}` |
| `Axios.WithBearer` | lib/axios.ts:24-28 | with a truthy access token, `Authorization` becomes exactly `Bearer <token>` and every other header is kept; otherwise the headers are unchanged |
| `Axios.Send` | lib/axios.ts:19-61 | one call `authAxiosInstance(config)` makes at least one session lookup, only extends the trace (counters never go down, earlier requests on the wire are kept), keeps `_retry` once set, and leaves the location unchanged or at `/login`. Its finer properties are the lemmas below |
| `Axios.Respond` | lib/axios.ts:34-60 | the response interceptor only extends the trace, passes a successful response through unchanged, leaves an already retried config untouched, and leaves the location unchanged or at `/login`. Its finer properties are the lemmas below |
| `Axios.RespondPassesThrough` | lib/axios.ts:34-60 | a successful response, an error whose status is not 401, and a 401 on a config whose `_retry` is set all come back unchanged; nothing is refreshed, replayed or redirected |
| `Axios.FreshUnauthorized` | lib/axios.ts:40-56 | a 401 on a config not yet retried sets `_retry` and makes one refresh call. If the refresh is `ok`, the result is a single `Send` of the now-retried config. Otherwise nothing more is sent, the location becomes `/login` and the reply is the refresh error |
| `Axios.RetriedSend` | lib/axios.ts:40-59 | sending an already retried config makes no refresh call and no redirect, puts at most one request on the wire and leaves `_retry` set |
| `Axios.AtMostOneRefresh` | lib/axios.ts:19-61 | one original request makes at most one refresh call, at most two sends and at most one redirect. A redirect happens only when the refresh was called and did not succeed, and then the reply is the refresh error. Without a redirect the location is untouched. Earlier trace entries are preserved |
| `Axios.WireCarriesBearer` | lib/axios.ts:19-51 | when every session lookup holds the same non-empty access token, every request a call puts on the wire, the replay included, carries `Authorization: Bearer <token>` |
| `Axios.AuthClient.InterceptRequest` | lib/axios.ts:19-31 | one session lookup; a failed lookup is the interceptor's error and leaves the headers alone; otherwise the headers become `WithBearer` of the session's access token |
| `Axios.AuthClient.FetchRefresh` | lib/axios.ts:45-48 | one more refresh call, whose answer is the next refresh answer of the network |
| `Axios.AuthClient.Request` | lib/axios.ts:19-61 | `authAxiosInstance(config)` performed in place: the reply, the config's headers and `_retry`, the wire, the counters and the location afterwards are those of `Send` on the state before |
| `Axios.AuthClient.InterceptResponse` | lib/axios.ts:34-61 | the response interceptor performed in place, with the replay through `Request`: its reply and final state are those of `Respond`. That `_retry` is assigned before the refresh call is in the method body only; the observable consequence (the replayed config is retried) is in `Axios.FreshUnauthorized` |
| `RefreshRoute.Get` | app/api/auth/refresh/route.ts:5-43 | the backend is called exactly when a refresh token is stored, once, as `POST /refresh-token {refreshToken}`. There are four outcomes: 401 "No refresh token found", 500 "Server error during token refresh" when `getToken` or the post throws, 401 "Failed to refresh token" with no access token in the data, and 200 `{success: true, accessToken}` with the token copied verbatim |
| `RefreshRoute.ResponseStatuses` | app/api/auth/refresh/route.ts:10-42 | the handler answers only 200, 401 or 500, and only the 200 body carries a token |
| `Auth.Authorize` | lib/auth.ts:13-41 | a missing or empty username or password gives null without a login call. Otherwise one `POST auth/login/ {username, password}` is made. A thrown call or absent `data` gives null. On success: email is the username, id is `data.id` or "user-id", name is `data.name` or the username, and the tokens are copied |
| `Auth.Jwt` | lib/auth.ts:45-56 | with a user, the access and refresh tokens and the email come from the user; without one the token is unchanged; name and subject are always kept |
| `Auth.SessionCallback` | lib/auth.ts:57-67 | both tokens come from the JWT, `user` becomes exactly `{name, email}` of the JWT, and the expiry is kept |
| `Auth.SignInSession` | lib/auth.ts:26-64 | after a successful `authorize`, the session built by `jwt` then `session` carries the login response's tokens and the submitted username as its email |
| `CoursesRoute.ErrorResponse` | app/api/courses/route.ts:24-31 | the error response has the error's HTTP status when it has a non-zero one and 500 otherwise, so never 0, and body `{error: error.message}`, or "Failed to fetch courses" when the message is empty |
| `CoursesRoute.Get` | app/api/courses/route.ts:6-32 | without a session access token: 401 "Not authenticated" and no backend call. With one: one `authAxiosInstance.get('/courses', …)` call whose config headers are exactly `{Authorization: Bearer <token>}`; its data is answered verbatim with 200 and whose error goes through `ErrorResponse`. A throwing `getServerSession` also goes through `ErrorResponse` |
| `CoursesRoute.ErrorMirrorsBackend` | app/api/courses/route.ts:17-30 | for a signed-in session whose backend call failed, the route's status is the backend's non-zero status, otherwise 500, and its message is the backend error's own unless it is empty |
| `ServerQuery.FetchCourses` | lib/server-query.ts:11-30 | without a session access token it rejects with `Error("Not authenticated")` and no backend call. With one it makes one `authAxiosInstance.get('/courses', …)` call whose config headers are exactly `{Authorization: Bearer <token>}` and settles as that call settled. A throwing `getServerSession` is rethrown unchanged |
| `Flow.CoursesRouteMirrorsFetchCourses` | app/api/courses/route.ts:10-30 | the route and `fetchCourses` make the same backend call. The route answers 200 with data exactly when `fetchCourses` resolves with it. Otherwise the route's error response is built from the error `fetchCourses` rethrows |
| `Flow.RefreshRouteDrivesReplay` | lib/axios.ts:45-51 | the interceptor replays exactly when the refresh route answered 200, that is, when a refresh token was stored and the backend issued an access token |
| `Flow.SignInRefreshToken` | app/api/auth/refresh/route.ts:18-20 | after a sign-in whose login response held a refresh token, the refresh route posts exactly that token |
| `Flow.SignInAuthorizesCourses` | lib/server-query.ts:19-23 | after a sign-in whose login response held an access token, both `fetchCourses` and the courses route make one `authAxiosInstance.get('/courses', …)` call whose config headers are exactly `{Authorization: Bearer <that token>}` |

## Left out

- The transport: `fetch`, the axios adapters, the base URL from the environment and the default `Content-Type` header are not modelled. Their answers are the `Network` oracle (client side) or `Settled` inputs (server side).
- next-auth's `getToken`, `getServerSession` and the way it fills the JWT (`name`, `sub`) at sign-in are library code; their results are inputs.
- `console.log` and `console.error` calls are output only.
- React's `cache` around `fetchCourses` and the `QueryClient` of `lib/server-query.ts` are library memoisation.
- The request interceptor's error handler (`lib/axios.ts:30`) only passes on a rejection from an earlier interceptor. There is none, so it never runs.
- Axios errors are reduced to their message and HTTP status. The `error.config` object identity is represented by the `RequestConfig` passed along. Axios's merge of the replayed config with its defaults is not modelled; the model takes `_retry` to survive that merge.
- Concurrency is left out: each `AuthClient` call runs alone. Simultaneous 401s from different requests are not coalesced in the code, and the model adds nothing for them.
- The courses route and `fetchCourses` send their `GET` through the authenticated instance and its interceptors; there the whole call is an input `Settled` value and not composed with `Axios.Send`. Through the interceptors, that one call puts between zero and two requests on the wire (`Axios.AtMostOneRefresh`), and each carries the bearer the request interceptor takes from the session lookup when that token is truthy, overriding the header the caller set (`Axios.WithBearer`).
- `Auth.Authorize`: `data.id` and `data.name` are taken to be strings; a numeric id from the backend is not modelled.
- `Course.price` is a JavaScript number, kept as a `real` with no arithmetic; its formatting belongs to the UI.
- The UI, the login form's validation messages and `middleware.ts` (whose redirect logic is commented out) are outside this model.
