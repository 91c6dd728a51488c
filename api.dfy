/** The HTTP gateway of src/services/api/api.js: an axios instance whose response
    interceptor passes successes through and answers a 401/403 with one call to
    `/refresh-token` followed by one reissue of the failed request. The legacy
    src/api.js installs the same interceptor on its own instance; in an `async`
    handler `return Promise.reject(e)` and `throw e` settle alike, so this one
    model stands for both.

    The browser globals the gateway and the session services touch are the fields
    of `Client`: the 'user' and 'lang' slots of localStorage, the last value given
    to `location.href`, the instance's default Authorization header, and the log of
    calls put on the wire. The server is an oracle: the reply to the call at
    position `n` of the log is `server(n)`. */
module Api {
  import opened Js

  const LoginPath := "/login"
  const RefreshTokenUrl := "/refresh-token"

  datatype Verb = Get | Post | Put

  /** An outbound call as the server sees it: the verb, the URL and the
      Authorization header it carries, which is the instance's default header at
      the time the call is put on the wire. */
  datatype Call = Call(verb: Verb, url: string, authorization: Option<string>)

  /** The refresh call the interceptor makes for a failed request; nothing changes
      the default header in between, so it carries the request's header. */
  function RefreshCall(request: Call): Call {
    Call(Post, RefreshTokenUrl, request.authorization)
  }

  /** The profile the server returns from `/user` and the client caches in the
      'user' slot. */
  datatype User = User(id: int, username: string, userRole: string,
                       firstName: Option<string>, lastName: Option<string>,
                       middleName: Option<string>, hemisId: Option<string>,
                       departmentId: Option<nat>)

  /** The parts of a response body (`res.data`) the client reads: the access token
      of an `/authenticate` answer and the user of a `/user` answer. */
  datatype Body = Body(accessToken: string, user: User)

  /** The server's reply to one call: a 2xx answer with its body, an error status
      (which axios rejects), or no response at all (a transport failure). */
  datatype Reply = Answer(body: Body) | Status(code: int) | NoResponse

  /** What a rejected request carries: the axios error of the call at a position of
      the log, with its status; or the TypeError the error handler raises when it
      reads `error.response.status` of an error that has no response. */
  datatype Failure = HttpError(call: nat, status: int) | TypeError

  /** How a request settles for its caller: the response to the call at a position
      of the log, or a rejection. */
  datatype Outcome = Resolved(call: nat, body: Body) | Rejected(failure: Failure)

  /** How an `async` service function settles: with a value or by throwing. */
  datatype Settled<T> = Done(value: T) | Threw(failure: Failure)

  /** The browser state the client shares: the 'user' and 'lang' slots of
      localStorage, the last value given to `location.href`, the default
      Authorization header and the calls put on the wire so far. */
  datatype Globals = Globals(user: Option<User>, lang: Option<string>, location: Option<string>,
                             authorization: Option<string>, calls: seq<Call>)

  predicate IsAuthFailure(code: int) {
    code == 401 || code == 403
  }

  /** How the call at position `n` settles when nothing intercepts it. */
  function Settle(server: nat -> Reply, n: nat): Outcome {
    match server(n)
    case Answer(b) => Resolved(n, b)
    case Status(code) => Rejected(HttpError(n, code))
    case NoResponse => Rejected(TypeError)
  }

  /** The per-request state machine: what sending `request` as the call at position
      `n` leads to, given whether its `_retry` flag is already set. */
  datatype Trace = Trace(outcome: Outcome, issued: seq<Call>, evicts: bool, redirects: bool, marksRetry: bool)

  function Expected(server: nat -> Reply, n: nat, request: Call, retried: bool): (t: Trace)
    // every request is put on the wire, and at most two more calls follow it
    ensures 1 <= |t.issued| <= 3 && t.issued[0] == request
    // anything but an unretried 401/403 passes through untouched
    ensures (retried || !server(n).Status? || !IsAuthFailure(server(n).code)) ==>
              t == Trace(Settle(server, n), [request], false, false, false)
    // the flag is set exactly on an unretried 401/403
    ensures t.marksRetry <==> !retried && server(n).Status? && IsAuthFailure(server(n).code)
    // a failing refresh call is not refreshed: redirect, no eviction, the original error
    ensures t.marksRetry && request.url == RefreshTokenUrl ==>
              t == Trace(Rejected(HttpError(n, server(n).code)), [request], false, true, true)
    // an unretried 401/403 on any other URL always makes the refresh call
    ensures t.marksRetry && request.url != RefreshTokenUrl ==> |t.issued| >= 2
    // otherwise the one extra call is a refresh, and a reissue follows only a refresh answer
    ensures |t.issued| >= 2 ==>
              t.marksRetry && request.url != RefreshTokenUrl && t.issued[1] == RefreshCall(request)
    ensures |t.issued| == 3 <==> t.marksRetry && request.url != RefreshTokenUrl && server(n + 1).Answer?
    // the reissue's own settlement is what the caller receives
    ensures |t.issued| == 3 ==> t.issued[2] == request && t.outcome == Settle(server, n + 2) && !t.evicts && !t.redirects
    // a failed refresh evicts, redirects, and hands the caller the refresh's failure
    ensures t.evicts <==> |t.issued| == 2
    ensures t.evicts ==> t.redirects && t.outcome == Settle(server, n + 1) && t.outcome.Rejected?
    // the session is only evicted on the way to the login page
    ensures t.evicts ==> t.redirects
    // a resolved request carries the body of an answered call
    ensures t.outcome.Resolved? ==>
              t.outcome.call == n + |t.issued| - 1 && server(t.outcome.call) == Answer(t.outcome.body)
  {
    if retried || !server(n).Status? || !IsAuthFailure(server(n).code) then
      Trace(Settle(server, n), [request], false, false, false)
    else if request.url == RefreshTokenUrl then
      Trace(Rejected(HttpError(n, server(n).code)), [request], false, true, true)
    else if server(n + 1).Answer? then
      Trace(Settle(server, n + 2), [request, RefreshCall(request), request], false, false, true)
    else
      Trace(Settle(server, n + 1), [request, RefreshCall(request)], true, true, true)
  }

  /** When the refresh call is itself refused with 401/403, its own activation
      redirects and rethrows, and the original request's handler then evicts the
      session: the client ends logged out, on the login page. */
  lemma RefreshRefusedEndsLoggedOut(server: nat -> Reply, n: nat, request: Call)
    requires request.url != RefreshTokenUrl
    requires server(n).Status? && IsAuthFailure(server(n).code)
    requires server(n + 1).Status? && IsAuthFailure(server(n + 1).code)
    ensures var inner := Expected(server, n + 1, RefreshCall(request), false);
      inner.redirects && !inner.evicts && inner.outcome == Rejected(HttpError(n + 1, server(n + 1).code))
    ensures var t := Expected(server, n, request, false);
      t.evicts && t.redirects && t.outcome == Rejected(HttpError(n + 1, server(n + 1).code))
  {
  }

  /** The effect on the shared state of sending `request` with the given `_retry`
      flag: the outcome, and the state after the interceptor is done with it. */
  function Send(server: nat -> Reply, g: Globals, request: Call, retried: bool): (r: (Outcome, Globals))
    ensures r.1.lang == g.lang && r.1.authorization == g.authorization
    ensures r.1.user == g.user || r.1.user == None
    ensures r.1.location == g.location || r.1.location == Some(LoginPath)
    ensures |g.calls| < |r.1.calls| <= |g.calls| + 3 && r.1.calls[..|g.calls|] == g.calls
    ensures r.0.Resolved? ==>
              && r.0.call == |r.1.calls| - 1 && r.1.calls[r.0.call] == request
              && server(r.0.call) == Answer(r.0.body) && r.1.user == g.user && r.1.location == g.location
  {
    var t := Expected(server, |g.calls|, request, retried);
    (t.outcome, g.(user := if t.evicts then None else g.user,
                   location := if t.redirects then Some(LoginPath) else g.location,
                   calls := g.calls + t.issued))
  }

  /** How many nested interceptor activations a request can still start: the
      refresh call and the reissue of a fresh request, none once `_retry` is set. */
  function Budget(url: string, retried: bool): nat {
    if retried then 0 else if url == RefreshTokenUrl then 1 else 2
  }

  /** An axios request config; the interceptor marks it with `_retry`. */
  class RequestConfig {
    const verb: Verb
    const url: string
    var retry: bool

    constructor (verb: Verb, url: string)
      ensures this.verb == verb && this.url == url && !retry
    {
      this.verb := verb;
      this.url := url;
      retry := false;
    }
  }

  class Client {
    const server: nat -> Reply
    /** localStorage 'user'. */
    var user: Option<User>
    /** localStorage 'lang'. */
    var lang: Option<string>
    /** The last value assigned to `location.href`. */
    var location: Option<string>
    /** `API.defaults.headers.common.Authorization`. */
    var authorization: Option<string>
    /** The calls put on the wire, in order. */
    var calls: seq<Call>

    constructor (server: nat -> Reply, user: Option<User>, lang: Option<string>)
      ensures this.server == server && this.user == user && this.lang == lang
      ensures location == None && authorization == None && calls == []
    {
      this.server := server;
      this.user := user;
      this.lang := lang;
      location := None;
      authorization := None;
      calls := [];
    }

    /** The shared state as a value. */
    function State(): Globals
      reads this
    {
      Globals(user, lang, location, authorization, calls)
    }

    /** The transport: puts one call on the wire and returns the server's reply. */
    method Transmit(config: RequestConfig) returns (reply: Reply, position: nat)
      modifies this`calls
      ensures position == old(|calls|) && reply == server(position)
      ensures calls == old(calls) + [Call(config.verb, config.url, authorization)]
    {
      position := |calls|;
      calls := calls + [Call(config.verb, config.url, authorization)];
      reply := server(position);
    }

    /** `API(config)`: sends a request; the success handler returns the response
        unchanged and any other reply goes to the error handler. */
    method Request(config: RequestConfig) returns (out: Outcome)
      modifies this, config
      decreases Budget(config.url, config.retry), 1
      ensures (out, State()) == Send(server, old(State()), Call(config.verb, config.url, old(authorization)), old(config.retry))
      ensures config.retry ==
                (old(config.retry)
                 || Expected(server, old(|calls|), Call(config.verb, config.url, old(authorization)), old(config.retry)).marksRetry)
    {
      ghost var t := Expected(server, |calls|, Call(config.verb, config.url, authorization), config.retry);
      var reply, n := Transmit(config);
      match reply {
        case Answer(body) =>
          out := Resolved(n, body);
        case Status(code) =>
          out := OnRejected(config, n, Some(code));
        case NoResponse =>
          out := OnRejected(config, n, None);
      }
      assert t.issued == [t.issued[0]] + t.issued[1..];
      assert calls == old(calls) + t.issued;
    }

    /** The error handler, for the call at position `n` whose error carries the
        response status `status` (`None` when there is no response). */
    method OnRejected(config: RequestConfig, n: nat, status: Option<int>) returns (out: Outcome)
      requires |calls| == n + 1 && calls[n] == Call(config.verb, config.url, authorization)
      requires server(n) == if status.Some? then Status(status.value) else NoResponse
      modifies this, config
      decreases Budget(config.url, config.retry), 0
      ensures var t := Expected(server, n, Call(config.verb, config.url, old(authorization)), old(config.retry));
        && out == t.outcome
        && calls == old(calls) + t.issued[1..]
        && user == (if t.evicts then None else old(user))
        && location == (if t.redirects then Some(LoginPath) else old(location))
        && config.retry == (old(config.retry) || t.marksRetry)
      ensures lang == old(lang) && authorization == old(authorization)
    {
      if status.None? {
        // `error.response.status` throws before any decision is taken
        return Rejected(TypeError);
      }
      var error := HttpError(n, status.value);
      if IsAuthFailure(status.value) && !config.retry {
        config.retry := true;
        if config.url == RefreshTokenUrl {
          location := Some(LoginPath);
          return Rejected(error);
        }
        var refresh := new RequestConfig(Post, RefreshTokenUrl);
        var refreshed := Request(refresh);
        if refreshed.Rejected? {
          user := None;
          location := Some(LoginPath);
          return refreshed;
        }
        // `return API(originalRequest)` is not awaited inside the `try`, so its
        // rejection reaches the caller without passing through the `catch`
        out := Request(config);
        return;
      }
      return Rejected(error);
    }
  }
}
