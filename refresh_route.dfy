/**
 * The `GET` handler of app/api/auth/refresh/route.ts: read the stored JWT,
 * exchange its refresh token with the backend and answer with the new access
 * token. Its inputs are the settled `getToken` call and the settled backend
 * `POST /refresh-token`; its outputs are the response and the backend call it
 * made. The handler writes no token anywhere: the stored JWT is an input only.
 */
module RefreshRoute {
  import opened Common
  import Auth

  const REFRESH_PATH: string := "/refresh-token"
  const NO_REFRESH_TOKEN: string := "No refresh token found"
  const REFRESH_FAILED: string := "Failed to refresh token"
  const SERVER_ERROR: string := "Server error during token refresh"

  /** The JSON body of the backend's refresh response. */
  datatype RefreshData = RefreshData(accessToken: Option<string>)

  /** The JSON bodies the handler answers with. */
  datatype Body = ErrorBody(error: string) | Refreshed(success: bool, accessToken: string)

  datatype Response = Response(status: int, body: Body)

  /** The backend call `POST /refresh-token {refreshToken}`. */
  datatype RefreshPost = RefreshPost(path: string, refreshToken: string)

  datatype Handled = Handled(response: Response, post: Option<RefreshPost>)

  /** `token && token.refreshToken` of a settled `getToken`. */
  predicate HasRefreshToken(token: Settled<Option<Auth.Token>>)
  {
    token.Resolved? && token.value.Some? && Truthy(token.value.value.refreshToken)
  }

  /** `response.data && response.data.accessToken` of a settled backend call. */
  predicate IssuedAccessToken(backend: Settled<Option<RefreshData>>)
  {
    backend.Resolved? && backend.value.Some? && Truthy(backend.value.value.accessToken)
  }

  /**
   * The handler. Four outcomes: 401 "No refresh token found" without a
   * backend call; 500 when `getToken` or the backend call throws; 401
   * "Failed to refresh token" when the backend answered without an access
   * token; 200 with that access token otherwise. The backend is called at
   * most once, and exactly when a refresh token is stored, with that token.
   */
  function Get(token: Settled<Option<Auth.Token>>, backend: Settled<Option<RefreshData>>): (r: Handled)
    ensures r.post.Some? <==> HasRefreshToken(token)
    ensures r.post.Some? ==> r.post.value == RefreshPost(REFRESH_PATH, token.value.value.refreshToken.value)
    ensures token.Rejected? ==> r.response == Response(500, ErrorBody(SERVER_ERROR))
    ensures token.Resolved? && !HasRefreshToken(token) ==> r.response == Response(401, ErrorBody(NO_REFRESH_TOKEN))
    ensures HasRefreshToken(token) && backend.Rejected? ==> r.response == Response(500, ErrorBody(SERVER_ERROR))
    ensures HasRefreshToken(token) && backend.Resolved? && !IssuedAccessToken(backend) ==>
      r.response == Response(401, ErrorBody(REFRESH_FAILED))
    ensures r.response.status == 200 <==> HasRefreshToken(token) && IssuedAccessToken(backend)
    ensures r.response.status == 200 ==>
      r.response.body == Refreshed(true, backend.value.value.accessToken.value)
  {
    match token
    case Rejected(_) => Handled(Response(500, ErrorBody(SERVER_ERROR)), None)
    case Resolved(stored) =>
      if !HasRefreshToken(token) then
        Handled(Response(401, ErrorBody(NO_REFRESH_TOKEN)), None)
      else
        var post := Some(RefreshPost(REFRESH_PATH, stored.value.refreshToken.value));
        match backend
        case Rejected(_) => Handled(Response(500, ErrorBody(SERVER_ERROR)), post)
        case Resolved(data) =>
          if !IssuedAccessToken(backend) then
            Handled(Response(401, ErrorBody(REFRESH_FAILED)), post)
          else
            Handled(Response(200, Refreshed(true, data.value.accessToken.value)), post)
  }

  /** The handler answers 200, 401 or 500, and only 200 carries a token. */
  lemma ResponseStatuses(token: Settled<Option<Auth.Token>>, backend: Settled<Option<RefreshData>>)
    ensures
      var r := Get(token, backend).response;
      && (r.status == 200 || r.status == 401 || r.status == 500)
      && (r.body.Refreshed? <==> r.status == 200)
  {
  }
}
