/**
 * Values shared by the client interceptors, the API routes and the server
 * helpers: optional JSON fields, JavaScript truthiness, the error values the
 * code throws and catches, settled promises, the bearer header and the
 * course record.
 */
module Common {

  /** An optional JSON field: `None` stands for `undefined` or `null`. */
  datatype Option<+T> = None | Some(value: T)

  /**
   * An error as the code inspects it: `error.message` and
   * `error.response?.status`. Axios errors with an HTTP response carry its
   * status; network errors, fetch errors and `new Error(...)` carry none.
   */
  datatype Error = Error(message: string, status: Option<int>)

  /** A settled promise: fulfilled with a value or rejected with an error. */
  datatype Settled<+T> = Resolved(value: T) | Rejected(error: Error)

  /** JavaScript truthiness of an optional string: present and not empty. */
  predicate Truthy(s: Option<string>)
  {
    s.Some? && s.value != ""
  }

  /** `s || fallback` for an optional string. */
  function Or(s: Option<string>, fallback: string): string
  {
    if Truthy(s) then s.value else fallback
  }

  /** `status || fallback` for an optional HTTP status (0 is falsy). */
  function OrStatus(status: Option<int>, fallback: int): int
  {
    if status.Some? && status.value != 0 then status.value else fallback
  }

  const AUTHORIZATION: string := "Authorization"
  const BEARER_PREFIX: string := "Bearer "

  /** The header value `Bearer ${token}`. */
  function Bearer(token: string): (h: string)
    ensures |h| == |BEARER_PREFIX| + |token|
    ensures h[..|BEARER_PREFIX|] == BEARER_PREFIX && h[|BEARER_PREFIX|..] == token
  {
    BEARER_PREFIX + token
  }

  /** The course record returned by the backend's `GET /courses`. */
  datatype Course = Course(
    id: string,
    title: string,
    description: string,
    imageUrl: Option<string>,
    duration: Option<string>,
    level: Option<string>,
    price: Option<real>)

  const COURSES_PATH: string := "/courses"

  /** A `GET` handed to the authenticated axios instance, with its config headers. */
  datatype BackendGet = BackendGet(path: string, headers: map<string, string>)

  /**
   * The `/courses` call both server-side callers hand to the authenticated
   * instance for a session token: its path and its config headers.
   */
  function CoursesGet(accessToken: string): (g: BackendGet)
    ensures g.path == COURSES_PATH
    ensures g.headers.Keys == {AUTHORIZATION} && g.headers[AUTHORIZATION] == Bearer(accessToken)
  {
    BackendGet(COURSES_PATH, map[AUTHORIZATION := Bearer(accessToken)])
  }
}
