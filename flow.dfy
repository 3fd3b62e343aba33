/**
 * Properties that connect the files: the courses route against
 * `fetchCourses`, the refresh route against the response interceptor, and
 * the sign-in callbacks against the routes that read the stored tokens.
 */
module Flow {
  import opened Common
  import Auth
  import Axios
  import RefreshRoute
  import CoursesRoute
  import ServerQuery

  /**
   * The courses route and `fetchCourses` make the same backend call, the
   * route answers 200 with data exactly when `fetchCourses` resolves with
   * that data, and otherwise the route's error response is built from the
   * very error `fetchCourses` rethrows (the missing-session error becomes a
   * 401 with the same message).
   */
  lemma CoursesRouteMirrorsFetchCourses(session: Settled<Option<Auth.Session>>, backend: Settled<seq<Course>>)
    ensures
      var route, fetched := CoursesRoute.Get(session, backend), ServerQuery.FetchCourses(session, backend);
      && route.get == fetched.get
      && (forall data :: fetched.result == Resolved(data) <==>
            route.response == CoursesRoute.Response(200, CoursesRoute.Courses(data)))
      && (fetched.result.Rejected? && (session.Rejected? || Auth.SignedIn(session)) ==>
            route.response == CoursesRoute.ErrorResponse(fetched.result.error))
      && (session.Resolved? && !Auth.SignedIn(session) ==>
            route.response == CoursesRoute.Response(401, CoursesRoute.ErrorBody(fetched.result.error.message)))
  {
  }

  /**
   * The response interceptor replays the original request exactly when the
   * refresh route answered 200, which is exactly when a refresh token was
   * stored and the backend issued an access token; its 401 and 500 answers
   * are not `ok` and lead to the redirect.
   */
  lemma RefreshRouteDrivesReplay(token: Settled<Option<Auth.Token>>, backend: Settled<Option<RefreshRoute.RefreshData>>)
    ensures
      var status := RefreshRoute.Get(token, backend).response.status;
      Axios.RefreshOk(Resolved(status)) <==>
        RefreshRoute.HasRefreshToken(token) && RefreshRoute.IssuedAccessToken(backend)
  {
  }

  /**
   * After a sign-in whose login response held a refresh token, the refresh
   * route posts exactly that refresh token to the backend.
   */
  lemma SignInRefreshToken(
    credentials: Option<Auth.Credentials>, data: Auth.LoginData, token: Auth.Token,
    backend: Settled<Option<RefreshRoute.RefreshData>>)
    requires Auth.HasCredentials(credentials) && Truthy(data.refreshToken)
    ensures
      var stored := Auth.Jwt(token, Auth.Authorize(credentials, Resolved(Some(data))).user);
      RefreshRoute.Get(Resolved(Some(stored)), backend).post ==
        Some(RefreshRoute.RefreshPost(RefreshRoute.REFRESH_PATH, data.refreshToken.value))
  {
  }

  /**
   * After a sign-in whose login response held an access token, the session
   * built by the callbacks lets `fetchCourses` and the courses route send
   * `GET /courses` with `Authorization: Bearer <that access token>`.
   */
  lemma SignInAuthorizesCourses(
    credentials: Option<Auth.Credentials>, data: Auth.LoginData, token: Auth.Token,
    session: Auth.Session, backend: Settled<seq<Course>>)
    requires Auth.HasCredentials(credentials) && Truthy(data.accessToken)
    ensures
      var user := Auth.Authorize(credentials, Resolved(Some(data))).user;
      var s := Resolved(Some(Auth.SessionCallback(session, Auth.Jwt(token, user))));
      && ServerQuery.FetchCourses(s, backend).get == Some(CoursesGet(data.accessToken.value))
      && CoursesRoute.Get(s, backend).get == Some(CoursesGet(data.accessToken.value))
  {
  }
}
