/**
 * The authenticated axios instance of lib/axios.ts and its two interceptors.
 *
 * Every call `authAxiosInstance(config)` runs the request interceptor (fetch
 * the session, attach `Authorization: Bearer <accessToken>`), puts the
 * request on the wire and runs the response interceptor on the answer. On a
 * 401 for a config whose `_retry` flag is unset, the response interceptor
 * sets the flag, calls `/api/auth/refresh` and, if that answered `ok`,
 * replays the same config through `authAxiosInstance` again; otherwise it
 * sends the browser to `/login` and rejects with the refresh error.
 *
 * The network is an oracle: the k-th session lookup, the k-th request on the
 * wire and the k-th refresh call of a client get the k-th answer of
 * `Network`. `Send` and `Respond` specify one call; the classes
 * `RequestConfig` and `AuthClient` carry out the same steps in place and are
 * proved to agree with them.
 */
module Axios {
  import opened Common
  import Auth

  type Headers = map<string, string>

  const LOGIN_PATH: string := "/login"
  const REFRESH_FAILED: string := "Failed to refresh token"
  const UNAUTHORIZED: int := 401

  /**
   * The answers the outside world gives, by call number:
   * `session(k)` to the k-th `fetch('/api/auth/session').then(res => res.json())`,
   * `transport(k)` to the k-th request put on the wire (the response data,
   * or an axios error with or without an HTTP status),
   * `refresh(k)` to the k-th `fetch('/api/auth/refresh')`: the HTTP status
   * of its response once its JSON body was read, or the error thrown.
   */
  datatype Network = Network(
    session: nat -> Settled<Option<Auth.Session>>,
    transport: nat -> Settled<seq<Course>>,
    refresh: nat -> Settled<int>)

  /** What the caller of `authAxiosInstance` gets. */
  type Reply = Settled<seq<Course>>

  /** The request config as the interceptors see it: its headers and `_retry`. */
  datatype Req = Req(headers: Headers, retry: bool)

  /**
   * What a client has done so far: session lookups, the headers of every
   * request put on the wire, refresh calls, redirects, and
   * `window.location.href`.
   */
  datatype Trace = Trace(lookups: nat, wire: seq<Headers>, refreshes: nat, redirects: nat, location: string)

  /** The outcome of one call: the reply, the config afterwards, the trace afterwards. */
  datatype Step = Step(reply: Reply, req: Req, trace: Trace)

  /** How many more refresh-and-replay rounds the config allows. */
  function Budget(q: Req): (b: nat)
  {
    if q.retry then 0 else 1
  }

  /** `session?.accessToken`. */
  function SessionToken(session: Option<Auth.Session>): (token: Option<string>)
  {
    if session.Some? then session.value.accessToken else None
  }

  /**
   * The request interceptor's header update: with a truthy access token,
   * `Authorization` becomes exactly `Bearer <token>` and every other header
   * is kept; otherwise the headers are unchanged.
   */
  function WithBearer(headers: Headers, token: Option<string>): (r: Headers)
    ensures Truthy(token) ==> AUTHORIZATION in r && r[AUTHORIZATION] == Bearer(token.value)
    ensures Truthy(token) ==> r.Keys == headers.Keys + {AUTHORIZATION}
    ensures Truthy(token) ==> forall h :: h in headers && h != AUTHORIZATION ==> r[h] == headers[h]
    ensures !Truthy(token) ==> r == headers
  {
    if Truthy(token) then headers[AUTHORIZATION := Bearer(token.value)] else headers
  }

  /** `res.ok` of the refresh call: a 2xx status. */
  predicate RefreshOk(answer: Settled<int>)
  {
    answer.Resolved? && 200 <= answer.value <= 299
  }

  /** The error the refresh step rejects with when it did not succeed. */
  function RefreshError(answer: Settled<int>): (e: Error)
  {
    if answer.Rejected? then answer.error else Error(REFRESH_FAILED, None)
  }

  /** `window.location.href = '/login'`. */
  function Redirect(t: Trace): (u: Trace)
  {
    t.(redirects := t.redirects + 1, location := LOGIN_PATH)
  }

  /**
   * `authAxiosInstance(config)`: the request interceptor, the wire, then
   * the response interceptor. A failed session lookup rejects before
   * anything is sent; its error reaches the response interceptor's error
   * handler, but a fetch error has no HTTP response, so the 401 test fails
   * there and it is rejected unchanged.
   */
  function Send(net: Network, q: Req, t: Trace): (s: Step)
    decreases Budget(q), 1
    ensures Extends(t, s.trace) && s.trace.lookups > t.lookups
    ensures q.retry ==> s.req.retry
    ensures s.trace.location == t.location || s.trace.location == LOGIN_PATH
  {
    var t1 := t.(lookups := t.lookups + 1);
    match net.session(t.lookups)
    case Rejected(e) => Step(Rejected(e), q, t1)
    case Resolved(session) =>
      var q1 := q.(headers := WithBearer(q.headers, SessionToken(session)));
      Respond(net, q1, t1.(wire := t.wire + [q1.headers]), net.transport(|t.wire|))
  }

  /**
   * The response interceptor applied to the answer `incoming` for config
   * `q`: success passes through; a 401 on a config not yet retried sets
   * `_retry`, calls the refresh endpoint and replays or redirects; every
   * other error is rejected unchanged.
   */
  function Respond(net: Network, q: Req, t: Trace, incoming: Reply): (s: Step)
    decreases Budget(q), 0
    ensures Extends(t, s.trace) && s.trace.lookups >= t.lookups
    ensures q.retry ==> s.req == q
    ensures incoming.Resolved? ==> s == Step(incoming, q, t)
    ensures s.trace.location == t.location || s.trace.location == LOGIN_PATH
  {
    match incoming
    case Resolved(_) => Step(incoming, q, t)
    case Rejected(e) =>
      if e.status == Some(UNAUTHORIZED) && !q.retry then
        var q1 := q.(retry := true);
        var t1 := t.(refreshes := t.refreshes + 1);
        var answer := net.refresh(t.refreshes);
        if RefreshOk(answer) then Send(net, q1, t1)
        else Step(Rejected(RefreshError(answer)), q1, Redirect(t1))
      else
        Step(incoming, q, t)
  }

  /** The trace `u` extends `t`: counters never go down and the wire only grows. */
  predicate Extends(t: Trace, u: Trace)
  {
    && t.lookups <= u.lookups
    && t.refreshes <= u.refreshes
    && t.redirects <= u.redirects
    && |t.wire| <= |u.wire|
    && u.wire[..|t.wire|] == t.wire
  }

  /**
   * The response interceptor leaves a successful response, an error other
   * than 401 and a 401 on an already retried config untouched: the reply is
   * the incoming value and nothing is refreshed, replayed or redirected.
   */
  lemma RespondPassesThrough(net: Network, q: Req, t: Trace, incoming: Reply)
    requires incoming.Resolved? || incoming.error.status != Some(UNAUTHORIZED) || q.retry
    ensures Respond(net, q, t, incoming) == Step(incoming, q, t)
  {
  }

  /**
   * A 401 on a config not yet retried: `_retry` is set before the refresh
   * call, exactly one refresh call is made, and then either the config
   * (now retried) is sent once more, or, if the refresh failed, nothing is
   * sent, the browser goes to `/login` and the reply is the refresh error.
   */
  lemma FreshUnauthorized(net: Network, q: Req, t: Trace, e: Error)
    requires e.status == Some(UNAUTHORIZED) && !q.retry
    ensures
      var s := Respond(net, q, t, Rejected(e));
      var answer := net.refresh(t.refreshes);
      && s.req.retry
      && (RefreshOk(answer) ==> s == Send(net, q.(retry := true), t.(refreshes := t.refreshes + 1)))
      && (!RefreshOk(answer) ==>
            && s.reply == Rejected(RefreshError(answer))
            && s.trace == Redirect(t.(refreshes := t.refreshes + 1))
            && s.trace.wire == t.wire
            && s.trace.location == LOGIN_PATH)
  {
  }

  /**
   * Sending a config that is already retried makes no refresh call and no
   * redirect, puts at most one request on the wire, and keeps `_retry` set.
   */
  lemma RetriedSend(net: Network, q: Req, t: Trace)
    requires q.retry
    ensures
      var s := Send(net, q, t);
      && Extends(t, s.trace)
      && s.trace.refreshes == t.refreshes
      && s.trace.redirects == t.redirects
      && s.trace.location == t.location
      && |s.trace.wire| <= |t.wire| + 1
      && s.req.retry
  {
  }

  /**
   * At most one refresh and at most two sends per original request: one
   * call of `authAxiosInstance` makes at most one refresh call, puts at most
   * two requests on the wire, and redirects at most once, and only when it
   * did call the refresh endpoint and that call failed; then the reply is
   * the refresh error.
   */
  lemma {:induction false} AtMostOneRefresh(net: Network, q: Req, t: Trace)
    ensures
      var s := Send(net, q, t);
      && Extends(t, s.trace)
      && s.trace.refreshes <= t.refreshes + 1
      && |s.trace.wire| <= |t.wire| + 2
      && s.trace.redirects <= t.redirects + 1
      && (s.trace.redirects > t.redirects ==>
            && s.trace.refreshes == t.refreshes + 1
            && !RefreshOk(net.refresh(t.refreshes))
            && s.reply == Rejected(RefreshError(net.refresh(t.refreshes)))
            && s.trace.location == LOGIN_PATH)
      && (s.trace.redirects == t.redirects ==> s.trace.location == t.location)
  {
    if q.retry {
      RetriedSend(net, q, t);
    } else {
      match net.session(t.lookups)
      case Rejected(_) =>
      case Resolved(session) =>
        var q1 := q.(headers := WithBearer(q.headers, SessionToken(session)));
        var t2 := t.(lookups := t.lookups + 1, wire := t.wire + [q1.headers]);
        var incoming := net.transport(|t.wire|);
        if incoming.Rejected? && incoming.error.status == Some(UNAUTHORIZED) {
          FreshUnauthorized(net, q1, t2, incoming.error);
          if RefreshOk(net.refresh(t.refreshes)) {
            RetriedSend(net, q1.(retry := true), t2.(refreshes := t.refreshes + 1));
          }
        } else {
          RespondPassesThrough(net, q1, t2, incoming);
        }
    }
  }

  /** Every session lookup answers with a session whose access token is `token`. */
  ghost predicate SessionAlways(net: Network, token: string)
  {
    forall k: nat :: SessionToken(Answered(net.session(k))) == Some(token)
  }

  /** The session a lookup answered with, or `None` if the lookup failed. */
  function Answered(answer: Settled<Option<Auth.Session>>): (session: Option<Auth.Session>)
  {
    if answer.Resolved? then answer.value else None
  }

  /**
   * When the session always holds the non-empty access token `token`, every
   * request one call puts on the wire, the replay included, carries
   * `Authorization: Bearer <token>`. The refresh route stores no new token,
   * so the replay presents the same token as the first attempt.
   */
  lemma {:induction false} WireCarriesBearer(net: Network, q: Req, t: Trace, token: string)
    requires token != "" && SessionAlways(net, token)
    ensures
      var s := Send(net, q, t);
      forall i :: |t.wire| <= i < |s.trace.wire| ==>
        AUTHORIZATION in s.trace.wire[i] && s.trace.wire[i][AUTHORIZATION] == Bearer(token)
  {
    AtMostOneRefresh(net, q, t);
    assert SessionToken(Answered(net.session(t.lookups))) == Some(token);
    var q1 := q.(headers := WithBearer(q.headers, Some(token)));
    var t2 := t.(lookups := t.lookups + 1, wire := t.wire + [q1.headers]);
    var incoming := net.transport(|t.wire|);
    var s := Send(net, q, t);
    assert s == Respond(net, q1, t2, incoming);
    if incoming.Rejected? && incoming.error.status == Some(UNAUTHORIZED) && !q1.retry {
      FreshUnauthorized(net, q1, t2, incoming.error);
      if RefreshOk(net.refresh(t.refreshes)) {
        var t3 := t2.(refreshes := t.refreshes + 1);
        assert SessionToken(Answered(net.session(t3.lookups))) == Some(token);
        RetriedSend(net, q1.(retry := true), t3);
      }
    } else {
      RespondPassesThrough(net, q1, t2, incoming);
    }
  }

  /** A request config: the headers axios will send and the `_retry` flag. */
  class RequestConfig {
    var headers: Headers
    var retry: bool

    function Snapshot(): Req
      reads this
    {
      Req(headers, retry)
    }

    constructor (headers: Headers)
      ensures Snapshot() == Req(headers, false)
    {
      this.headers := headers;
      this.retry := false;
    }
  }

  /**
   * The authenticated axios instance together with the browser location it
   * may reassign, and the calls it has made so far.
   */
  class AuthClient {
    const net: Network
    var lookups: nat
    var wire: seq<Headers>
    var refreshes: nat
    var redirects: nat
    var location: string

    function Snapshot(): Trace
      reads this
    {
      Trace(lookups, wire, refreshes, redirects, location)
    }

    constructor (net: Network, location: string)
      ensures this.net == net && Snapshot() == Trace(0, [], 0, 0, location)
    {
      this.net := net;
      this.lookups := 0;
      this.wire := [];
      this.refreshes := 0;
      this.redirects := 0;
      this.location := location;
    }

    /**
     * The request interceptor: fetch the session and, when it has a truthy
     * access token, set `Authorization` on the config; a failed lookup is
     * returned as the error the interceptor throws.
     */
    method InterceptRequest(config: RequestConfig) returns (failure: Option<Error>)
      modifies this`lookups, config`headers
      ensures lookups == old(lookups) + 1
      ensures net.session(old(lookups)).Rejected? ==>
        failure == Some(net.session(old(lookups)).error) && config.headers == old(config.headers)
      ensures net.session(old(lookups)).Resolved? ==>
        failure == None && config.headers == WithBearer(old(config.headers), SessionToken(net.session(old(lookups)).value))
    {
      var answer := net.session(lookups);
      lookups := lookups + 1;
      match answer
      case Rejected(e) =>
        failure := Some(e);
      case Resolved(session) =>
        var token := SessionToken(session);
        if Truthy(token) {
          config.headers := config.headers[AUTHORIZATION := Bearer(token.value)];
        }
        failure := None;
    }

    /** Put the config's request on the wire and take its answer. */
    method Transmit(config: RequestConfig) returns (incoming: Reply)
      modifies this`wire
      ensures wire == old(wire) + [config.headers]
      ensures incoming == net.transport(|old(wire)|)
    {
      incoming := net.transport(|wire|);
      wire := wire + [config.headers];
    }

    /** `fetch('/api/auth/refresh')`, its `ok` check and its JSON body. */
    method FetchRefresh() returns (answer: Settled<int>)
      modifies this`refreshes
      ensures refreshes == old(refreshes) + 1
      ensures answer == net.refresh(old(refreshes))
    {
      answer := net.refresh(refreshes);
      refreshes := refreshes + 1;
    }

    /** `authAxiosInstance(config)`. */
    method Request(config: RequestConfig) returns (reply: Reply)
      modifies this, config
      decreases Budget(config.Snapshot()), 1
      ensures Step(reply, config.Snapshot(), Snapshot()) == Send(net, old(config.Snapshot()), old(Snapshot()))
    {
      var failure := InterceptRequest(config);
      if failure.Some? {
        reply := Rejected(failure.value);
        return;
      }
      var incoming := Transmit(config);
      reply := InterceptResponse(config, incoming);
    }

    /** The response interceptor, for the answer `incoming` to `config`. */
    method InterceptResponse(config: RequestConfig, incoming: Reply) returns (reply: Reply)
      modifies this, config
      decreases Budget(config.Snapshot()), 0
      ensures Step(reply, config.Snapshot(), Snapshot()) == Respond(net, old(config.Snapshot()), old(Snapshot()), incoming)
    {
      if incoming.Rejected? && incoming.error.status == Some(UNAUTHORIZED) && !config.retry {
        config.retry := true;
        var answer := FetchRefresh();
        if RefreshOk(answer) {
          reply := Request(config);
        } else {
          location := LOGIN_PATH;
          redirects := redirects + 1;
          reply := Rejected(RefreshError(answer));
        }
      } else {
        reply := incoming;
      }
    }
  }
}
