/**
 * The functions of manageSearchHeads.py as they run: each method performs
 * its steps in the source's order, threading the trace of requests and log
 * lines, and is proved to produce exactly the outcome the reference
 * semantics (module Orchestration) assigns to it.
 */
module Manager {
  import opened Wrappers
  import opened Strings
  import opened Http
  import opened Trace
  import opened Config
  import opened Session
  import opened Orchestration

  /** `callRestEndpoint`: build the request, add the header and the method override, send it. */
  method CallRestEndpoint(net: Network, h: seq<Effect>, url: string, data: Option<Form>, key: Option<string>, delete: bool)
    returns (o: Outcome<Option<string>>)
    ensures o == Exchange(net, h, RequestFor(url, data, key, delete))
  {
    var request := new Request(url, data);
    if key.Some? {
      request.AddHeader(AuthHeader, AuthPrefix + key.value);
    }
    if delete {
      request.OverrideMethod(DELETE);
    }
    var sent := request.Snapshot();
    assert sent == RequestFor(url, data, key, delete);
    var t := h + [Call(sent)];
    match net(h, sent)
    case Delivered(body) =>
      o := Outcome(t, Ok(Some(body)));
    case Rejected(body) =>
      o := Outcome(t + [Log(Error, RestErrorMessage(body))], Ok(None));
    case Unreachable =>
      o := Outcome(t, Err(TransportFailure(url)));
  }

  /** `getRestSessionKey`. */
  method GetRestSessionKey(net: Network, c: Credentials, searchHead: string, h: seq<Effect>)
    returns (o: Outcome<string>)
    ensures o == Login(net, c, searchHead, h)
  {
    var authenticateUrl := BuildUrl(searchHead, LoginPath);
    var data := map["username" := c.username, "password" := c.password];
    var authResults := CallRestEndpoint(net, h, authenticateUrl, Some(data), None, false);
    if authResults.result.Err? {
      return Outcome(authResults.trace, Err(authResults.result.error));
    }
    if authResults.result.value.None? {
      return Outcome(authResults.trace, Err(LoginFailed(searchHead)));
    }
    var sessionKey := ExtractSessionKey(authResults.result.value.value);
    if sessionKey.None? {
      return Outcome(authResults.trace, Err(NoSessionKey(searchHead)));
    }
    o := Outcome(authResults.trace, Ok(sessionKey.value));
  }

  /** `configureUserEndpoint`: for every UserList value, split it, delete the user, create it again. */
  method ConfigureUserEndpoint(net: Network, searchHead: string, sessionKey: string, cfg: EndpointConfig, h: seq<Effect>)
    returns (o: Outcome<()>)
    ensures o == ConfigureUsers(net, searchHead, sessionKey, cfg, h)
  {
    if cfg.userList.None? {
      return Outcome(h, Err(MissingUserList));
    }
    var entries := cfg.userList.value;
    var t := h;
    var i := 0;
    while i < |entries|
      invariant i <= |entries|
      invariant ReconcileUsers(net, searchHead, sessionKey, entries[i..], t)
             == ReconcileUsers(net, searchHead, sessionKey, entries, h)
    {
      assert entries[i..][0] == entries[i] && entries[i..][1..] == entries[i + 1..];
      var userPasswordValue := Split(entries[i], EntrySeparator);
      if |userPasswordValue| < 3 {
        return Outcome(t, Err(MalformedEntry(entries[i])));
      }
      var username, password, role := userPasswordValue[0], userPasswordValue[1], userPasswordValue[2];
      ghost var e := UserEntry(username, password, role);
      assert ParseEntry(entries[i]) == Some(e);

      var userDeleteUrl := BuildUrl(searchHead, UsersPath + "/" + username);
      var userDeleteResult := CallRestEndpoint(net, t, userDeleteUrl, None, Some(sessionKey), true);
      if userDeleteResult.result.Err? {
        return Outcome(userDeleteResult.trace, Err(userDeleteResult.result.error));
      }
      t := userDeleteResult.trace + [Log(Deleted, DeletedMessage(username))];

      var userCreateUrl := BuildUrl(searchHead, UsersPath);
      var data := map["name" := username, "password" := password, "roles" := role];
      assert data == CreateForm(e);
      var userResult := CallRestEndpoint(net, t, userCreateUrl, Some(data), Some(sessionKey), false);
      if userResult.result.Err? {
        return Outcome(userResult.trace, Err(userResult.result.error));
      }
      t := userResult.trace + [Log(Created, CreatedMessage(username))];
      i := i + 1;
    }
    o := Outcome(t, Ok(()));
  }

  /** `configureSearchPeerEndpoint`: a stub that only logs a placeholder line. */
  method ConfigureSearchPeerEndpoint(searchHead: string, sessionKey: string, cfg: EndpointConfig, h: seq<Effect>)
    returns (t: seq<Effect>)
    ensures t == h + [Log(Placeholder, SearchPeerNote)]
  {
    t := h + [Log(Placeholder, SearchPeerNote)];
  }

  /** `configureLdapEndpoint`: a stub that only logs a placeholder line. */
  method ConfigureLdapEndpoint(searchHead: string, sessionKey: string, cfg: EndpointConfig, h: seq<Effect>)
    returns (t: seq<Effect>)
    ensures t == h + [Log(Placeholder, LdapNote)]
  {
    t := h + [Log(Placeholder, LdapNote)];
  }

  /** `performConfigurationEndpoint`: read the type (default `*not found*`) and dispatch on it. */
  method PerformConfigurationEndpoint(net: Network, searchHead: string, sessionKey: string, ep: Endpoint, h: seq<Effect>)
    returns (o: Outcome<()>)
    ensures o == ConfigureEndpoint(net, searchHead, sessionKey, ep, h)
  {
    var t := h + [Log(Info, ConfiguringMessage(searchHead, ep.path))];
    var endpointType := if ep.config.endpointType.Some? then ep.config.endpointType.value else NotFound;
    if endpointType == "user" {
      o := ConfigureUserEndpoint(net, searchHead, sessionKey, ep.config, t);
    } else if endpointType == "searchpeer" {
      var t' := ConfigureSearchPeerEndpoint(searchHead, sessionKey, ep.config, t);
      o := Outcome(t', Ok(()));
    } else if endpointType == "LDAP" {
      var t' := ConfigureLdapEndpoint(searchHead, sessionKey, ep.config, t);
      o := Outcome(t', Ok(()));
    } else {
      o := Outcome(t + [Log(Error, UnknownTypeMessage(endpointType))], Ok(()));
    }
  }

  /** `processTargetConfigFile`: for every section, log in, then configure each of its options. */
  method ProcessTargetConfigFile(net: Network, c: Credentials, fleet: seq<Node>, h: seq<Effect>)
    returns (o: Outcome<()>)
    ensures o == ConfigureFleet(net, c, fleet, h)
  {
    var t := h;
    var n := 0;
    ghost var goal := ConfigureFleet(net, c, fleet, h);
    while n < |fleet|
      invariant n <= |fleet|
      invariant ConfigureFleet(net, c, fleet[n..], t) == goal
    {
      assert fleet[n..][0] == fleet[n] && fleet[n..][1..] == fleet[n + 1..];
      ghost var node := ConfigureNode(net, c, fleet[n], t);
      assert goal == (if node.result.Err? then node else ConfigureFleet(net, c, fleet[n + 1..], node.trace));
      var searchHead := fleet[n].host;
      var session := GetRestSessionKey(net, c, searchHead, t);
      if session.result.Err? {
        return Outcome(session.trace, Err(session.result.error));
      }
      var sessionKey := session.result.value;
      t := session.trace + [Log(Info, SessionMessage(searchHead, sessionKey))];

      var options := fleet[n].endpoints;
      var m := 0;
      while m < |options|
        invariant m <= |options|
        invariant ConfigureEndpoints(net, searchHead, sessionKey, options[m..], t) == node
      {
        assert options[m..][0] == options[m] && options[m..][1..] == options[m + 1..];
        var done := PerformConfigurationEndpoint(net, searchHead, sessionKey, options[m], t);
        if done.result.Err? {
          return done;
        }
        t := done.trace;
        m := m + 1;
      }
      assert options[m..] == [];
      n := n + 1;
    }
    o := Outcome(t, Ok(()));
  }
}
