/**
 * `fetchCourses` of lib/server-query.ts: check the server session, call
 * the authenticated instance for `/courses` with the session's bearer token, and return the response
 * data; every error, the "Not authenticated" one included, is rethrown as
 * it is. The settled result stands for the returned promise.
 */
module ServerQuery {
  import opened Common
  import Auth

  const NOT_AUTHENTICATED: string := "Not authenticated"

  /** The error `new Error('Not authenticated')`. */
  const NotAuthenticated: Error := Error(NOT_AUTHENTICATED, None)

  datatype Fetched = Fetched(result: Settled<seq<Course>>, get: Option<BackendGet>)

  /**
   * Without a session token it rejects with "Not authenticated" and calls
   * no backend; with one it makes one call of the authenticated instance
   * for `/courses` whose config headers are exactly
   * `Authorization: Bearer <token>`, and settles as that call settled. A
   * throwing `getServerSession` is rethrown unchanged.
   */
  function FetchCourses(session: Settled<Option<Auth.Session>>, backend: Settled<seq<Course>>): (r: Fetched)
    ensures r.get.Some? <==> Auth.SignedIn(session)
    ensures r.get.Some? ==> r.get.value == CoursesGet(session.value.value.accessToken.value)
    ensures session.Rejected? ==> r.result == Rejected(session.error)
    ensures session.Resolved? && !Auth.SignedIn(session) ==> r.result == Rejected(NotAuthenticated)
    ensures Auth.SignedIn(session) ==> r.result == backend
  {
    match session
    case Rejected(e) => Fetched(Rejected(e), None)
    case Resolved(s) =>
      if !Auth.SignedIn(session) then
        Fetched(Rejected(NotAuthenticated), None)
      else
        Fetched(backend, Some(CoursesGet(s.value.accessToken.value)))
  }
}
