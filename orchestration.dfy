/**
 * The reference semantics of one run of the manager over a fleet: every
 * step maps the trace so far to the extended trace and to either a value or
 * the fault (an uncaught exception) that ends the whole run.
 */
module Orchestration {
  import opened Wrappers
  import opened Http
  import opened Trace
  import opened Config
  import opened Session

  /** The administrative account used to log in to every node. */
  datatype Credentials = Credentials(username: string, password: string)

  const Info := "INFO"
  const Error := "ERROR"
  const Deleted := "DELETED"
  const Created := "CREATED"
  const Placeholder := "PLACEHOLDER"

  const SearchPeerNote := "SearchPeer Handler Placeholder..."
  const LdapNote := "LDAP Handler Placeholder..."

  /** The log states are pairwise distinct. */
  lemma StatesDistinct()
    ensures Info != Deleted && Info != Created && Deleted != Created
    ensures Error != Info && Error != Deleted && Error != Created
  {
    assert Info[0] != Deleted[0] && Info[0] != Created[0] && Deleted[0] != Created[0];
    assert Error[0] != Info[0] && Error[0] != Deleted[0] && Error[0] != Created[0];
  }

  function RestErrorMessage(body: string): string { "REST endpoint error: " + body }
  function SessionMessage(host: string, key: string): string { host + " sessionKey is " + key }
  function ConfiguringMessage(host: string, path: string): string { "Configuring " + host + " " + path }
  function UnknownTypeMessage(name: string): string { "Unknown endpointType " + name }
  function DeletedMessage(name: string): string { "Deleted User " + name }
  function CreatedMessage(name: string): string { "Created User " + name }

  function LoginForm(c: Credentials): Form
  {
    map["username" := c.username, "password" := c.password]
  }

  /** The body of a user creation: one name, one password, one role. */
  function CreateForm(e: UserEntry): Form
  {
    map["name" := e.name, "password" := e.password, "roles" := e.role]
  }

  /** The login: a POST of the credentials to the node's login path, with no Authorization header. */
  function LoginRequest(c: Credentials, host: string): (r: Sent)
    ensures r.verb == POST && r.url == BuildUrl(host, LoginPath)
    ensures r.body == Some(LoginForm(c)) && r.headers == map[]
  {
    RequestFor(BuildUrl(host, LoginPath), Some(LoginForm(c)), None, false)
  }

  /** The delete of one user: a DELETE of the user's path, with no body, carrying the session key. */
  function DeleteRequest(host: string, key: string, name: string): (r: Sent)
    ensures r.verb == DELETE && r.url == BuildUrl(host, UsersPath + "/" + name)
    ensures r.body == None && r.headers == map[AuthHeader := AuthPrefix + key]
  {
    RequestFor(BuildUrl(host, UsersPath + "/" + name), None, Some(key), true)
  }

  /** The creation of one user: a POST of its form to the users path, carrying the session key. */
  function CreateRequest(host: string, key: string, e: UserEntry): (r: Sent)
    ensures r.verb == POST && r.url == BuildUrl(host, UsersPath)
    ensures r.body == Some(CreateForm(e)) && r.headers == map[AuthHeader := AuthPrefix + key]
  {
    RequestFor(BuildUrl(host, UsersPath), Some(CreateForm(e)), Some(key), false)
  }

  /**
   * `callRestEndpoint` once the request is prepared: the request goes out;
   * a body is returned, an HTTP error is logged and gives no body, and any
   * other transport failure ends the run.
   */
  function Exchange(net: Network, h: seq<Effect>, req: Sent): (o: Outcome<Option<string>>)
    ensures h + [Call(req)] <= o.trace
    ensures !net(h, req).Rejected? ==> o.trace == h + [Call(req)]
    ensures net(h, req).Rejected? ==> o.trace == h + [Call(req), Log(Error, RestErrorMessage(net(h, req).body))]
    ensures CallsOf(o.trace) == CallsOf(h) + [req]
    ensures forall state :: state != Error ==> Messages(o.trace, state) == Messages(h, state)
    ensures o.result.Err? <==> net(h, req).Unreachable?
    ensures o.result.Err? ==> o.result.error == TransportFailure(req.url)
    ensures o.result == Ok(None) <==> net(h, req).Rejected?
    ensures net(h, req).Delivered? ==> o.result == Ok(Some(net(h, req).body))
  {
    var t := h + [Call(req)];
    CallsOfSnoc(h, Call(req));
    match net(h, req)
    case Delivered(body) =>
      Outcome(t, Ok(Some(body)))
    case Rejected(body) =>
      CallsOfSnoc(t, Log(Error, RestErrorMessage(body)));
      Outcome(t + [Log(Error, RestErrorMessage(body))], Ok(None))
    case Unreachable =>
      Outcome(t, Err(TransportFailure(req.url)))
  }

  /** `getRestSessionKey`: the login call and the key read from its answer. */
  function Login(net: Network, c: Credentials, host: string, h: seq<Effect>): (o: Outcome<string>)
    ensures h + [Call(LoginRequest(c, host))] <= o.trace
  {
    var x := Exchange(net, h, LoginRequest(c, host));
    match x.result
    case Err(f) => Outcome(x.trace, Err(f))
    case Ok(None) => Outcome(x.trace, Err(LoginFailed(host)))
    case Ok(Some(body)) =>
      match ExtractSessionKey(body)
      case None => Outcome(x.trace, Err(NoSessionKey(host)))
      case Some(key) => Outcome(x.trace, Ok(key))
  }

  /** One pass of the loop of `configureUserEndpoint`: delete, then recreate, one entry. */
  function ReconcileEntry(net: Network, host: string, key: string, raw: string, h: seq<Effect>): (o: Outcome<()>)
    ensures h <= o.trace
    ensures o.result.Ok? ==> ParseEntry(raw).Some?
    ensures ParseEntry(raw).None? <==> o.result == Err(MalformedEntry(raw))
    ensures o.result.Err? ==> o.result.error.MalformedEntry? || o.result.error.TransportFailure?
  {
    match ParseEntry(raw)
    case None => Outcome(h, Err(MalformedEntry(raw)))
    case Some(e) =>
      var d := Exchange(net, h, DeleteRequest(host, key, e.name));
      if d.result.Err? then Outcome(d.trace, Err(d.result.error))
      else
        var c := Exchange(net, d.trace + [Log(Deleted, DeletedMessage(e.name))], CreateRequest(host, key, e));
        if c.result.Err? then Outcome(c.trace, Err(c.result.error))
        else Outcome(c.trace + [Log(Created, CreatedMessage(e.name))], Ok(()))
  }

  /** The entries of a UserList, in order, until one of them ends the run. */
  function ReconcileUsers(net: Network, host: string, key: string, entries: seq<string>, h: seq<Effect>): (o: Outcome<()>)
    ensures h <= o.trace
    ensures o.result.Err? ==> o.result.error.MalformedEntry? || o.result.error.TransportFailure?
    decreases |entries|
  {
    if entries == [] then Outcome(h, Ok(()))
    else
      var o := ReconcileEntry(net, host, key, entries[0], h);
      if o.result.Err? then o else ReconcileUsers(net, host, key, entries[1..], o.trace)
  }

  /** `configureUserEndpoint`: a user endpoint file must have a UserList section. */
  function ConfigureUsers(net: Network, host: string, key: string, cfg: EndpointConfig, h: seq<Effect>): (o: Outcome<()>)
    ensures h <= o.trace
    ensures cfg.userList.None? <==> o.result == Err(MissingUserList)
  {
    match cfg.userList
    case None => Outcome(h, Err(MissingUserList))
    case Some(entries) => ReconcileUsers(net, host, key, entries, h)
  }

  /** `performConfigurationEndpoint`: announce the file, then run the handler its type selects. */
  function ConfigureEndpoint(net: Network, host: string, key: string, ep: Endpoint, h: seq<Effect>): (o: Outcome<()>)
    ensures h + [Log(Info, ConfiguringMessage(host, ep.path))] <= o.trace
    ensures Classify(ep.config.endpointType) != UserKind ==> o.result.Ok? && |o.trace| == |h| + 2
  {
    var t := h + [Log(Info, ConfiguringMessage(host, ep.path))];
    match Classify(ep.config.endpointType)
    case UserKind => ConfigureUsers(net, host, key, ep.config, t)
    case SearchPeerKind => Outcome(t + [Log(Placeholder, SearchPeerNote)], Ok(()))
    case LdapKind => Outcome(t + [Log(Placeholder, LdapNote)], Ok(()))
    case UnknownKind(name) => Outcome(t + [Log(Error, UnknownTypeMessage(name))], Ok(()))
  }

  /** The endpoint options of one node, in order. */
  function ConfigureEndpoints(net: Network, host: string, key: string, eps: seq<Endpoint>, h: seq<Effect>): (o: Outcome<()>)
    ensures h <= o.trace
    decreases |eps|
  {
    if eps == [] then Outcome(h, Ok(()))
    else
      var o := ConfigureEndpoint(net, host, key, eps[0], h);
      if o.result.Err? then o else ConfigureEndpoints(net, host, key, eps[1..], o.trace)
  }

  /** One section of the fleet file: log in, log the key, then configure every endpoint. */
  function ConfigureNode(net: Network, c: Credentials, node: Node, h: seq<Effect>): (o: Outcome<()>)
    ensures h + [Call(LoginRequest(c, node.host))] <= o.trace
  {
    var s := Login(net, c, node.host, h);
    match s.result
    case Err(f) => Outcome(s.trace, Err(f))
    case Ok(key) =>
      ConfigureEndpoints(net, node.host, key, node.endpoints, s.trace + [Log(Info, SessionMessage(node.host, key))])
  }

  /** `processTargetConfigFile`: the sections of the fleet file, in order. */
  function ConfigureFleet(net: Network, c: Credentials, fleet: seq<Node>, h: seq<Effect>): (o: Outcome<()>)
    ensures h <= o.trace
    ensures fleet != [] ==> h + [Call(LoginRequest(c, fleet[0].host))] <= o.trace
    decreases |fleet|
  {
    if fleet == [] then Outcome(h, Ok(()))
    else
      var o := ConfigureNode(net, c, fleet[0], h);
      if o.result.Err? then o else ConfigureFleet(net, c, fleet[1..], o.trace)
  }
}
