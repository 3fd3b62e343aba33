/**
 * The credentials provider and the two session callbacks of lib/auth.ts.
 *
 * `authorize` guards its input, posts the credentials to the backend's login
 * endpoint and shapes the returned user. The `jwt` and `session` callbacks
 * assign fields of the object they are given and return that same object;
 * here each takes the record and returns it with those fields updated.
 */
module Auth {
  import opened Common

  /** The submitted form fields; either may be missing. */
  datatype Credentials = Credentials(username: Option<string>, password: Option<string>)

  /** The JSON body of the backend's login response. */
  datatype LoginData = LoginData(
    id: Option<string>,
    name: Option<string>,
    accessToken: Option<string>,
    refreshToken: Option<string>)

  const LOGIN_ENDPOINT: string := "auth/login/"
  const DEFAULT_USER_ID: string := "user-id"

  /** The `POST auth/login/ {username, password}` sent to the backend. */
  datatype LoginPost = LoginPost(path: string, username: string, password: string)

  /** The user object `authorize` hands to next-auth. */
  datatype User = User(
    id: string,
    email: string,
    name: string,
    accessToken: Option<string>,
    refreshToken: Option<string>)

  /** What `authorize` returns (`None` is `null`) and the login call it made, if any. */
  datatype Authorized = Authorized(user: Option<User>, post: Option<LoginPost>)

  /** `credentials?.username && credentials?.password`. */
  predicate HasCredentials(credentials: Option<Credentials>)
  {
    credentials.Some? && Truthy(credentials.value.username) && Truthy(credentials.value.password)
  }

  /**
   * `authorize(credentials)`, given the settled login call. Missing fields
   * give null with no backend call; a thrown login call or a falsy `data`
   * gives null; otherwise a user built with `||` defaults.
   */
  function Authorize(credentials: Option<Credentials>, login: Settled<Option<LoginData>>): (r: Authorized)
    ensures r.post.Some? <==> HasCredentials(credentials)
    ensures r.post.Some? ==>
      r.post.value == LoginPost(LOGIN_ENDPOINT, credentials.value.username.value, credentials.value.password.value)
    ensures r.user.Some? <==> HasCredentials(credentials) && login.Resolved? && login.value.Some?
    ensures r.user.Some? ==>
      var u, data, username := r.user.value, login.value.value, credentials.value.username.value;
      && u.email == username
      && u.id == (if Truthy(data.id) then data.id.value else DEFAULT_USER_ID)
      && u.name == (if Truthy(data.name) then data.name.value else username)
      && u.accessToken == data.accessToken
      && u.refreshToken == data.refreshToken
  {
    if !HasCredentials(credentials) then
      Authorized(None, None)
    else
      var username, password := credentials.value.username.value, credentials.value.password.value;
      var post := Some(LoginPost(LOGIN_ENDPOINT, username, password));
      match login
      case Rejected(_) => Authorized(None, post)
      case Resolved(None) => Authorized(None, post)
      case Resolved(Some(data)) =>
        var user := User(
          Or(data.id, DEFAULT_USER_ID),
          username,
          Or(data.name, username),
          data.accessToken,
          data.refreshToken);
        Authorized(Some(user), post)
  }

  /** The server-side JWT record, with the two fields lib/auth.ts adds. */
  datatype Token = Token(
    name: Option<string>,
    email: Option<string>,
    sub: Option<string>,
    accessToken: Option<string>,
    refreshToken: Option<string>)

  /**
   * The `jwt` callback. With a user (at sign-in) the tokens and the email are
   * copied from it; without one the token is returned as it was.
   */
  function Jwt(token: Token, user: Option<User>): (r: Token)
    ensures user.None? ==> r == token
    ensures user.Some? ==>
      && r.accessToken == user.value.accessToken
      && r.refreshToken == user.value.refreshToken
      && r.email == Some(user.value.email)
    ensures r.name == token.name && r.sub == token.sub
  {
    match user
    case None => token
    case Some(u) => token.(accessToken := u.accessToken, refreshToken := u.refreshToken, email := Some(u.email))
  }

  /** The `user` object of a session. */
  datatype SessionUser = SessionUser(name: Option<string>, email: Option<string>, image: Option<string>)

  /** The session object next-auth hands to clients, with the two added token fields. */
  datatype Session = Session(
    user: SessionUser,
    expires: string,
    accessToken: Option<string>,
    refreshToken: Option<string>)

  /** `session && session.accessToken` of a settled `getServerSession`. */
  predicate SignedIn(session: Settled<Option<Session>>)
  {
    session.Resolved? && session.value.Some? && Truthy(session.value.value.accessToken)
  }

  /**
   * The `session` callback: both tokens come from the JWT and `user` is
   * replaced by exactly `{name, email}` of the JWT; `expires` is kept.
   */
  function SessionCallback(session: Session, token: Token): (r: Session)
    ensures r.accessToken == token.accessToken && r.refreshToken == token.refreshToken
    ensures r.user == SessionUser(token.name, token.email, None)
    ensures r.expires == session.expires
  {
    session.(
      accessToken := token.accessToken,
      refreshToken := token.refreshToken,
      user := SessionUser(token.name, token.email, None))
  }

  /**
   * Sign-in end to end: the session built from a successful `authorize`
   * carries the tokens of the login response and the submitted username as
   * its email, whatever the token and session were before.
   */
  lemma SignInSession(credentials: Option<Credentials>, data: LoginData, token: Token, session: Session)
    requires HasCredentials(credentials)
    ensures
      var user := Authorize(credentials, Resolved(Some(data))).user;
      var s := SessionCallback(session, Jwt(token, user));
      && user.Some?
      && s.accessToken == data.accessToken
      && s.refreshToken == data.refreshToken
      && s.user.email == credentials.value.username
      && s.user.name == token.name
  {
  }
}
