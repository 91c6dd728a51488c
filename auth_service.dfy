/** src/services/api/AuthService.js: logging in (the token goes into the default
    Authorization header, then the profile into the 'user' slot) and logging out
    (the slot is cleared whatever the server says). */
module AuthService {
  import opened Js
  import opened Api

  const AuthenticateUrl := "/authenticate"
  const UserUrl := "/user"
  const SignOutUrl := "/sign-out"
  const BearerPrefix := "Bearer "

  /** `authenticate`: the role of the user just stored, or the error that stopped it. */
  function Authentication(server: nat -> Reply, g: Globals): (r: (Settled<string>, Globals))
    ensures r.1.lang == g.lang
    // the header changes only when `/authenticate` was answered, to that answer's token
    ensures var first := Send(server, g, Call(Post, AuthenticateUrl, g.authorization), false).0;
      r.1.authorization == if first.Resolved? then Some(BearerPrefix + first.body.accessToken) else g.authorization
    // success stores the answer of the last call, a `/user` call sent with the new
    // header (the one above, as `/authenticate` was answered), and returns its role
    ensures r.0.Done? ==>
      && Send(server, g, Call(Post, AuthenticateUrl, g.authorization), false).0.Resolved?
      && |r.1.calls| > |g.calls| + 1
      && Last(r.1.calls) == Call(Get, UserUrl, r.1.authorization)
      && server(|r.1.calls| - 1).Answer?
      && r.1.user == Some(server(|r.1.calls| - 1).body.user)
      && r.0.value == r.1.user.value.userRole
    // a failure rethrows the error of the call that failed: `/authenticate`, or
    // `/user` sent with the new header
    ensures r.0.Threw? ==>
      var (login, g1) := Send(server, g, Call(Post, AuthenticateUrl, g.authorization), false);
      var bearer := if login.Resolved? then Some(BearerPrefix + login.body.accessToken) else None;
      || (login.Rejected? && r.0.failure == login.failure)
      || (login.Resolved?
          && var who := Send(server, g1.(authorization := bearer), Call(Get, UserUrl, bearer), false).0;
             who.Rejected? && r.0.failure == who.failure)
    // a failure never writes the slot; at most the interceptor has evicted it
    ensures r.0.Threw? ==> r.1.user == g.user || r.1.user == None
  {
    var (login, g1) := Send(server, g, Call(Post, AuthenticateUrl, g.authorization), false);
    if login.Rejected? then (Threw(login.failure), g1)
    else
      var bearer := Some(BearerPrefix + login.body.accessToken);
      var g2 := g1.(authorization := bearer);
      var (who, g3) := Send(server, g2, Call(Get, UserUrl, bearer), false);
      if who.Rejected? then (Threw(who.failure), g3)
      else (Done(who.body.user.userRole), g3.(user := Some(who.body.user)))
  }

  function Last<T>(s: seq<T>): T
    requires s != []
  {
    s[|s| - 1]
  }

  /** `signout`: never throws; the slot ends empty. */
  function SignOut(server: nat -> Reply, g: Globals): (r: Globals)
    ensures r.user == None
    ensures r.lang == g.lang && r.authorization == g.authorization
    ensures |r.calls| > |g.calls| && r.calls[|g.calls|] == Call(Post, SignOutUrl, g.authorization)
  {
    Send(server, g, Call(Post, SignOutUrl, g.authorization), false).1.(user := None)
  }

  method Authenticate(c: Client, username: string, password: string) returns (r: Settled<string>)
    modifies c
    ensures (r, c.State()) == Authentication(c.server, old(c.State()))
  {
    var login := new RequestConfig(Post, AuthenticateUrl);
    var res := c.Request(login);
    if res.Rejected? {
      return Threw(res.failure);
    }
    c.authorization := Some(BearerPrefix + res.body.accessToken);
    var who := new RequestConfig(Get, UserUrl);
    var userRes := c.Request(who);
    if userRes.Rejected? {
      return Threw(userRes.failure);
    }
    c.user := Some(userRes.body.user);
    return Done(userRes.body.user.userRole);
  }

  method Signout(c: Client)
    modifies c
    ensures c.State() == SignOut(c.server, old(c.State()))
  {
    var call := new RequestConfig(Post, SignOutUrl);
    var _ := c.Request(call);
    // `finally`: runs whether the call settled or not
    c.user := None;
  }
}
