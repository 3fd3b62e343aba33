/**
 * The `GET` handler of app/api/courses/route.ts: check the server session,
 * proxy `GET /courses` through the authenticated instance with the
 * session's bearer token, and
 * answer with the backend's data or with an error status and message.
 * Its inputs are the settled `getServerSession` call and the settled
 * backend call; its outputs are the response and the backend call it made.
 */
module CoursesRoute {
  import opened Common
  import Auth

  const NOT_AUTHENTICATED: string := "Not authenticated"
  const FETCH_FAILED: string := "Failed to fetch courses"

  /** The JSON bodies the handler answers with. */
  datatype Body = ErrorBody(error: string) | Courses(courses: seq<Course>)

  datatype Response = Response(status: int, body: Body)

  datatype Handled = Handled(response: Response, get: Option<BackendGet>)

  /**
   * The catch block: status `error.response?.status || 500`, body
   * `{error: error.message || "Failed to fetch courses"}`.
   */
  function ErrorResponse(e: Error): (r: Response)
    ensures e.message != "" ==> r.body == ErrorBody(e.message)
    ensures e.message == "" ==> r.body == ErrorBody(FETCH_FAILED)
    ensures e.status.Some? && e.status.value != 0 ==> r.status == e.status.value
    ensures e.status.None? || e.status.value == 0 ==> r.status == 500
    ensures r.status != 0
  {
    Response(OrStatus(e.status, 500), ErrorBody(Or(Some(e.message), FETCH_FAILED)))
  }

  /**
   * The handler. Without a session token: 401 "Not authenticated" and no
   * backend call. With one: one call of the authenticated instance for
   * `/courses` whose config headers are exactly
   * `Authorization: Bearer <token>`; its data is answered verbatim with
   * status 200, its error through `ErrorResponse`. A throwing
   * `getServerSession` also lands in `ErrorResponse`.
   */
  function Get(session: Settled<Option<Auth.Session>>, backend: Settled<seq<Course>>): (r: Handled)
    ensures r.get.Some? <==> Auth.SignedIn(session)
    ensures r.get.Some? ==> r.get.value == CoursesGet(session.value.value.accessToken.value)
    ensures session.Rejected? ==> r.response == ErrorResponse(session.error)
    ensures session.Resolved? && !Auth.SignedIn(session) ==>
      r.response == Response(401, ErrorBody(NOT_AUTHENTICATED))
    ensures Auth.SignedIn(session) && backend.Resolved? ==>
      r.response == Response(200, Courses(backend.value))
    ensures Auth.SignedIn(session) && backend.Rejected? ==>
      r.response == ErrorResponse(backend.error)
  {
    match session
    case Rejected(e) => Handled(ErrorResponse(e), None)
    case Resolved(s) =>
      if !Auth.SignedIn(session) then
        Handled(Response(401, ErrorBody(NOT_AUTHENTICATED)), None)
      else
        var get := Some(CoursesGet(s.value.accessToken.value));
        match backend
        case Resolved(data) => Handled(Response(200, Courses(data)), get)
        case Rejected(e) => Handled(ErrorResponse(e), get)
  }

  /**
   * For a signed-in session whose backend call failed, the route mirrors
   * the backend: its status is the backend's HTTP status when there is a
   * non-zero one and 500 otherwise, and its message is the backend error's
   * message unless that is empty.
   */
  lemma ErrorMirrorsBackend(session: Settled<Option<Auth.Session>>, e: Error)
    requires Auth.SignedIn(session)
    ensures var r := Get(session, Rejected(e)).response;
      && (e.status.Some? && e.status.value != 0 ==> r.status == e.status.value)
      && (e.status.None? ==> r.status == 500)
      && (e.message != "" ==> r.body == ErrorBody(e.message))
      && (e.message == "" ==> r.body == ErrorBody(FETCH_FAILED))
  {
  }
}
