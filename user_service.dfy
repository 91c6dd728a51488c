/** src/services/api/UserService.js: refreshing and updating the cached profile,
    changing the password and registering an author. The request bodies are not
    modelled: what the server answers is the oracle's. */
module UserService {
  import opened Js
  import opened Api

  const UserUrl := "/user"
  const PasswordUrl := "/user/password"
  const RegisterAuthorUrl := "/register/author"

  /** `updateUserInStorage`: fetch `/user`, store and return it; on failure go to
      the login page and rethrow. */
  function Refreshed(server: nat -> Reply, g: Globals): (r: (Settled<User>, Globals))
    ensures r.1.lang == g.lang && r.1.authorization == g.authorization
    ensures |r.1.calls| > |g.calls| && r.1.calls[|g.calls|] == Call(Get, UserUrl, g.authorization)
    ensures r.0.Done? ==>
      && server(|r.1.calls| - 1).Answer? && r.0.value == server(|r.1.calls| - 1).body.user
      && r.1.user == Some(r.0.value) && r.1.location == g.location
    // a failure is the gateway's rejection, rethrown after going to the login page
    ensures var sent := Send(server, g, Call(Get, UserUrl, g.authorization), false).0;
      && (r.0.Threw? <==> sent.Rejected?)
      && (r.0.Threw? ==> r.0.failure == sent.failure)
    ensures r.0.Threw? ==> r.1.location == Some(LoginPath) && (r.1.user == g.user || r.1.user == None)
  {
    var (res, g1) := Send(server, g, Call(Get, UserUrl, g.authorization), false);
    if res.Rejected? then (Threw(res.failure), g1.(location := Some(LoginPath)))
    else (Done(res.body.user), g1.(user := Some(res.body.user)))
  }

  /** `updateUserDetails`: the slot takes the server's copy of the profile, not the
      submitted one; a failure is rethrown with the slot left to the interceptor. */
  function DetailsUpdated(server: nat -> Reply, g: Globals): (r: (Settled<User>, Globals))
    ensures r.1.lang == g.lang && r.1.authorization == g.authorization
    ensures |r.1.calls| > |g.calls| && r.1.calls[|g.calls|] == Call(Put, UserUrl, g.authorization)
    ensures r.0.Done? ==>
      && server(|r.1.calls| - 1).Answer? && r.0.value == server(|r.1.calls| - 1).body.user
      && r.1.user == Some(r.0.value) && r.1.location == g.location
    // a failure is the gateway's rejection, rethrown
    ensures var sent := Send(server, g, Call(Put, UserUrl, g.authorization), false).0;
      && (r.0.Threw? <==> sent.Rejected?)
      && (r.0.Threw? ==> r.0.failure == sent.failure)
    ensures r.0.Threw? ==> r.1.user == g.user || r.1.user == None
  {
    var (res, g1) := Send(server, g, Call(Put, UserUrl, g.authorization), false);
    if res.Rejected? then (Threw(res.failure), g1)
    else (Done(res.body.user), g1.(user := Some(res.body.user)))
  }

  /** `updateUserPassword`: true once the server accepts; the service itself never
      writes the slot. */
  function PasswordUpdated(server: nat -> Reply, g: Globals): (r: (Settled<bool>, Globals))
    ensures r.1.user == g.user || r.1.user == None
    ensures r.0.Done? ==> r.0.value && r.1.user == g.user && r.1.location == g.location
    ensures r.0.Done? <==> Send(server, g, Call(Put, PasswordUrl, g.authorization), false).0.Resolved?
  {
    var (res, g1) := Send(server, g, Call(Put, PasswordUrl, g.authorization), false);
    if res.Rejected? then (Threw(res.failure), g1) else (Done(true), g1)
  }

  /** `registerAuthor`: the response body of the registration; the slot is not the
      service's to touch. */
  function AuthorRegistered(server: nat -> Reply, g: Globals): (r: (Settled<Body>, Globals))
    ensures r.1.user == g.user || r.1.user == None
    ensures |r.1.calls| > |g.calls| && r.1.calls[|g.calls|] == Call(Post, RegisterAuthorUrl, g.authorization)
    ensures r.0.Done? ==> server(|r.1.calls| - 1) == Answer(r.0.value) && r.1.user == g.user
  {
    var (res, g1) := Send(server, g, Call(Post, RegisterAuthorUrl, g.authorization), false);
    if res.Rejected? then (Threw(res.failure), g1) else (Done(res.body), g1)
  }

  method UpdateUserInStorage(c: Client) returns (r: Settled<User>)
    modifies c
    ensures (r, c.State()) == Refreshed(c.server, old(c.State()))
  {
    var config := new RequestConfig(Get, UserUrl);
    var res := c.Request(config);
    if res.Rejected? {
      c.location := Some(LoginPath);
      return Threw(res.failure);
    }
    c.user := Some(res.body.user);
    return Done(res.body.user);
  }

  method UpdateUserDetails(c: Client) returns (r: Settled<User>)
    modifies c
    ensures (r, c.State()) == DetailsUpdated(c.server, old(c.State()))
  {
    var config := new RequestConfig(Put, UserUrl);
    var res := c.Request(config);
    if res.Rejected? {
      return Threw(res.failure);
    }
    c.user := Some(res.body.user);
    return Done(res.body.user);
  }

  method UpdateUserPassword(c: Client) returns (r: Settled<bool>)
    modifies c
    ensures (r, c.State()) == PasswordUpdated(c.server, old(c.State()))
  {
    var config := new RequestConfig(Put, PasswordUrl);
    var res := c.Request(config);
    if res.Rejected? {
      return Threw(res.failure);
    }
    return Done(true);
  }

  method RegisterAuthor(c: Client) returns (r: Settled<Body>)
    modifies c
    ensures (r, c.State()) == AuthorRegistered(c.server, old(c.State()))
  {
    var config := new RequestConfig(Post, RegisterAuthorUrl);
    var res := c.Request(config);
    if res.Rejected? {
      return Threw(res.failure);
    }
    return Done(res.body);
  }
}

/** src/services/UserService.js, the older copy on the legacy instance of
    src/api.js. It redirects through `window.location` and rejects with
    `Promise.reject`, which an `async` function settles exactly as a `throw`;
    the `return null` at its line 13 is commented out, so a failed refresh never
    resolves. Its three functions therefore meet the same specifications. */
module LegacyUserService {
  import opened Js
  import opened Api
  import UserService

  method UpdateUserInStorage(c: Client) returns (r: Settled<User>)
    modifies c
    ensures (r, c.State()) == UserService.Refreshed(c.server, old(c.State()))
  {
    var config := new RequestConfig(Get, UserService.UserUrl);
    var res := c.Request(config);
    if res.Rejected? {
      c.location := Some(LoginPath);
      return Threw(res.failure);
    }
    var updatedUser := res.body.user;
    c.user := Some(updatedUser);
    return Done(updatedUser);
  }

  method UpdateUserDetails(c: Client) returns (r: Settled<User>)
    modifies c
    ensures (r, c.State()) == UserService.DetailsUpdated(c.server, old(c.State()))
  {
    var config := new RequestConfig(Put, UserService.UserUrl);
    var res := c.Request(config);
    if res.Rejected? {
      return Threw(res.failure);
    }
    var updatedUser := res.body.user;
    c.user := Some(updatedUser);
    return Done(updatedUser);
  }

  method UpdateUserPassword(c: Client) returns (r: Settled<bool>)
    modifies c
    ensures (r, c.State()) == UserService.PasswordUpdated(c.server, old(c.State()))
  {
    var config := new RequestConfig(Put, UserService.PasswordUrl);
    var res := c.Request(config);
    if res.Rejected? {
      return Threw(res.failure);
    }
    return Done(true);
  }
}
