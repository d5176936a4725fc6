/**
 * What a run over a fleet promises: the login of each node, the dispatch of
 * each endpoint option by its type, and the order and number of requests
 * and INFO lines over the whole fleet.
 */
module FleetOrchestration {
  import opened Wrappers
  import opened Strings
  import opened Http
  import opened Trace
  import opened Config
  import opened Session
  import opened Orchestration
  import opened Expected
  import opened UserReconciliation

  // ---------------------------------------------------------------------
  // Session manager
  // ---------------------------------------------------------------------

  /**
   * A login issues exactly the login request; it yields a key exactly when
   * the node answers with a body holding one, and that key is the result.
   */
  lemma LoginOutcome(net: Network, c: Credentials, host: string, h: seq<Effect>)
    ensures var o := Login(net, c, host, h); var r := net(h, LoginRequest(c, host));
      && CallsOf(o.trace) == CallsOf(h) + [LoginRequest(c, host)]
      && (o.result.Ok? <==> r.Delivered? && ExtractSessionKey(r.body).Some?)
      && (o.result.Ok? ==> o.result.value == ExtractSessionKey(r.body).value)
      && (r.Rejected? ==> o.result == Err(LoginFailed(host)))
      && (forall state :: state != Error ==> Messages(o.trace, state) == Messages(h, state))
  {
    var x := Exchange(net, h, LoginRequest(c, host));
    assert Login(net, c, host, h).trace == x.trace;
  }

  /** A rejected login ends the whole run: no later node is contacted. */
  lemma LoginFailureEndsRun(net: Network, c: Credentials, fleet: seq<Node>, h: seq<Effect>)
    requires fleet != []
    requires net(h, LoginRequest(c, fleet[0].host)).Rejected?
    ensures var req := LoginRequest(c, fleet[0].host);
      ConfigureFleet(net, c, fleet, h)
      == Outcome(h + [Call(req), Log(Error, RestErrorMessage(net(h, req).body))], Err(LoginFailed(fleet[0].host)))
  {
  }

  // ---------------------------------------------------------------------
  // Endpoint dispatcher
  // ---------------------------------------------------------------------

  /** A `user` endpoint runs the user handler after its INFO line. */
  lemma UserDispatch(net: Network, host: string, key: string, ep: Endpoint, h: seq<Effect>)
    requires ep.config.endpointType == Some("user")
    ensures ConfigureEndpoint(net, host, key, ep, h)
         == ConfigureUsers(net, host, key, ep.config, h + [Log(Info, ConfiguringMessage(host, ep.path))])
  {
  }

  /**
   * A user endpoint file without a UserList section ends the run right after
   * its INFO line, before any request.
   */
  lemma MissingUserListAborts(net: Network, host: string, key: string, ep: Endpoint, h: seq<Effect>)
    requires ep.config.endpointType == Some("user") && ep.config.userList.None?
    ensures ConfigureEndpoint(net, host, key, ep, h)
         == Outcome(h + [Log(Info, ConfiguringMessage(host, ep.path))], Err(MissingUserList))
  {
  }

  /** The handler note of `searchpeer` and `LDAP`. */
  function PlaceholderNote(endpointType: Option<string>): string
  {
    if endpointType == Some("LDAP") then LdapNote else SearchPeerNote
  }

  /** `searchpeer` and `LDAP` write their INFO line and then one PLACEHOLDER line. */
  lemma PlaceholderStep(net: Network, host: string, key: string, ep: Endpoint, h: seq<Effect>)
    requires ep.config.endpointType == Some("searchpeer") || ep.config.endpointType == Some("LDAP")
    ensures var o := ConfigureEndpoint(net, host, key, ep, h);
      && o.result == Ok(())
      && o.trace == (h + [Log(Info, ConfiguringMessage(host, ep.path))]) + [Log(Placeholder, PlaceholderNote(ep.config.endpointType))]
  {
  }

  /** `searchpeer` and `LDAP` write one PLACEHOLDER line and issue no request. */
  lemma PlaceholderDispatch(net: Network, host: string, key: string, ep: Endpoint, h: seq<Effect>)
    requires ep.config.endpointType == Some("searchpeer") || ep.config.endpointType == Some("LDAP")
    ensures var o := ConfigureEndpoint(net, host, key, ep, h);
      && o.result == Ok(())
      && o.trace == h + [Log(Info, ConfiguringMessage(host, ep.path)), Log(Placeholder, PlaceholderNote(ep.config.endpointType))]
      && CallsOf(o.trace) == CallsOf(h)
      && Messages(o.trace, Placeholder) == Messages(h, Placeholder) + [PlaceholderNote(ep.config.endpointType)]
  {
    PlaceholderStep(net, host, key, ep, h);
    StatesDistinct();
    assert Info[0] != Placeholder[0];
    TwoLogs(h, Log(Info, ConfiguringMessage(host, ep.path)), Log(Placeholder, PlaceholderNote(ep.config.endpointType)), Placeholder);
  }

  /** Any other type writes its INFO line and then one ERROR line naming the type. */
  lemma UnknownStep(net: Network, host: string, key: string, ep: Endpoint, h: seq<Effect>)
    requires ep.config.endpointType !in {Some("user"), Some("searchpeer"), Some("LDAP")}
    ensures var o := ConfigureEndpoint(net, host, key, ep, h);
      && o.result == Ok(())
      && o.trace == (h + [Log(Info, ConfiguringMessage(host, ep.path))])
                    + [Log(Error, UnknownTypeMessage(TypeName(ep.config.endpointType)))]
  {
  }

  /**
   * Any other type, a missing one included, writes one ERROR line naming it
   * and issues no request; the run goes on.
   */
  lemma UnknownDispatch(net: Network, host: string, key: string, ep: Endpoint, h: seq<Effect>)
    requires ep.config.endpointType !in {Some("user"), Some("searchpeer"), Some("LDAP")}
    ensures var o := ConfigureEndpoint(net, host, key, ep, h);
      && o.result == Ok(())
      && o.trace == h + [Log(Info, ConfiguringMessage(host, ep.path)),
                         Log(Error, UnknownTypeMessage(TypeName(ep.config.endpointType)))]
      && CallsOf(o.trace) == CallsOf(h)
      && Messages(o.trace, Error) == Messages(h, Error) + [UnknownTypeMessage(TypeName(ep.config.endpointType))]
  {
    UnknownStep(net, host, key, ep, h);
    StatesDistinct();
    TwoLogs(h, Log(Info, ConfiguringMessage(host, ep.path)), Log(Error, UnknownTypeMessage(TypeName(ep.config.endpointType))), Error);
  }

  /** An endpoint file without a `type` reads as `*not found*`, and its ERROR line says so. */
  lemma MissingTypeDispatch(net: Network, host: string, key: string, ep: Endpoint, h: seq<Effect>)
    requires ep.config.endpointType.None?
    ensures ConfigureEndpoint(net, host, key, ep, h).trace[|h| + 1] == Log(Error, "Unknown endpointType *not found*")
  {
    UnknownStep(net, host, key, ep, h);
    assert UnknownTypeMessage(NotFound) == "Unknown endpointType *not found*";
  }

  // ---------------------------------------------------------------------
  // Orchestrator
  // ---------------------------------------------------------------------

  /** A completed `user` endpoint had a UserList, and ran the user handler on it after its INFO line. */
  lemma UserEndpointStep(net: Network, host: string, key: string, ep: Endpoint, h: seq<Effect>)
    requires Classify(ep.config.endpointType) == UserKind
    requires ConfigureEndpoint(net, host, key, ep, h).result.Ok?
    ensures ep.config.userList.Some?
    ensures ConfigureEndpoint(net, host, key, ep, h)
         == ReconcileUsers(net, host, key, ep.config.userList.value, h + [Log(Info, ConfiguringMessage(host, ep.path))])
  {
  }

  /** Any endpoint but a `user` one adds its INFO line and one line of another state, and completes. */
  lemma QuietEndpointStep(net: Network, host: string, key: string, ep: Endpoint, h: seq<Effect>)
    requires Classify(ep.config.endpointType) != UserKind
    ensures var o := ConfigureEndpoint(net, host, key, ep, h);
      var t := h + [Log(Info, ConfiguringMessage(host, ep.path))];
      && o.result.Ok? && |o.trace| == |t| + 1 && o.trace == t + [o.trace[|t|]]
      && o.trace[|t|].Log? && o.trace[|t|].state != Info
  {
    StatesDistinct();
    assert Placeholder[0] != Info[0];
  }

  /** A log line then a step that keeps the INFO lines and issues `calls`. */
  lemma LoggedStep(h: seq<Effect>, l: Effect, o: seq<Effect>, calls: seq<Sent>)
    requires l.Log?
    requires CallsOf(o) == CallsOf(h + [l]) + calls
    requires Messages(o, Info) == Messages(h + [l], Info)
    ensures CallsOf(o) == CallsOf(h) + calls
    ensures Messages(o, Info) == Messages(h, Info) + (if l.state == Info then [l.message] else [])
  {
    CallsOfSnoc(h, l);
    MessagesSnoc(h, l, Info);
  }

  lemma UserEndpointComplete(net: Network, host: string, key: string, ep: Endpoint, h: seq<Effect>)
    requires Classify(ep.config.endpointType) == UserKind
    requires ConfigureEndpoint(net, host, key, ep, h).result.Ok?
    ensures var o := ConfigureEndpoint(net, host, key, ep, h);
      && CallsOf(o.trace) == CallsOf(h) + EndpointCalls(host, key, ep)
      && Messages(o.trace, Info) == Messages(h, Info) + [ConfiguringMessage(host, ep.path)]
  {
    var l := Log(Info, ConfiguringMessage(host, ep.path));
    UserEndpointStep(net, host, key, ep, h);
    var entries := ep.config.userList.value;
    ReconcileComplete(net, host, key, entries, h + [l]);
    LoggedStep(h, l, ReconcileUsers(net, host, key, entries, h + [l]).trace, UserCalls(host, key, entries));
  }

  lemma QuietEndpointComplete(net: Network, host: string, key: string, ep: Endpoint, h: seq<Effect>)
    requires Classify(ep.config.endpointType) != UserKind
    ensures var o := ConfigureEndpoint(net, host, key, ep, h);
      && CallsOf(o.trace) == CallsOf(h) + EndpointCalls(host, key, ep)
      && Messages(o.trace, Info) == Messages(h, Info) + [ConfiguringMessage(host, ep.path)]
  {
    var l := Log(Info, ConfiguringMessage(host, ep.path));
    var t := h + [l];
    var o := ConfigureEndpoint(net, host, key, ep, h);
    QuietEndpointStep(net, host, key, ep, h);
    CallsOfSnoc(t, o.trace[|t|]);
    MessagesSnoc(t, o.trace[|t|], Info);
    LoggedStep(h, l, o.trace, []);
  }

  /** A completed endpoint issued exactly its expected requests and announced itself once. */
  lemma EndpointComplete(net: Network, host: string, key: string, ep: Endpoint, h: seq<Effect>)
    requires ConfigureEndpoint(net, host, key, ep, h).result.Ok?
    ensures var o := ConfigureEndpoint(net, host, key, ep, h);
      && CallsOf(o.trace) == CallsOf(h) + EndpointCalls(host, key, ep)
      && Messages(o.trace, Info) == Messages(h, Info) + [ConfiguringMessage(host, ep.path)]
  {
    if Classify(ep.config.endpointType) == UserKind {
      UserEndpointComplete(net, host, key, ep, h);
    } else {
      QuietEndpointComplete(net, host, key, ep, h);
    }
  }

  /** A non-empty list of endpoints that completes: its first completed, and the rest ran after it. */
  lemma EndpointsStep(net: Network, host: string, key: string, eps: seq<Endpoint>, h: seq<Effect>)
    requires eps != []
    requires ConfigureEndpoints(net, host, key, eps, h).result.Ok?
    ensures var o0 := ConfigureEndpoint(net, host, key, eps[0], h);
      && o0.result.Ok?
      && ConfigureEndpoints(net, host, key, eps, h) == ConfigureEndpoints(net, host, key, eps[1..], o0.trace)
  {
  }

  /** Every endpoint option is dispatched exactly once, in option order. */
  lemma {:induction false} EndpointsComplete(net: Network, host: string, key: string, eps: seq<Endpoint>, h: seq<Effect>)
    requires ConfigureEndpoints(net, host, key, eps, h).result.Ok?
    ensures var o := ConfigureEndpoints(net, host, key, eps, h);
      && CallsOf(o.trace) == CallsOf(h) + EndpointsCalls(host, key, eps)
      && Messages(o.trace, Info) == Messages(h, Info) + ConfiguringMessages(host, eps)
    decreases |eps|
  {
    if eps != [] {
      EndpointsStep(net, host, key, eps, h);
      var o0 := ConfigureEndpoint(net, host, key, eps[0], h);
      var o := ConfigureEndpoints(net, host, key, eps[1..], o0.trace);
      EndpointComplete(net, host, key, eps[0], h);
      EndpointsComplete(net, host, key, eps[1..], o0.trace);
      AppendChain(CallsOf(h), CallsOf(o0.trace), CallsOf(o.trace),
                  EndpointCalls(host, key, eps[0]), EndpointsCalls(host, key, eps[1..]));
      AppendChain(Messages(h, Info), Messages(o0.trace, Info), Messages(o.trace, Info),
                  [ConfiguringMessage(host, eps[0].path)], ConfiguringMessages(host, eps[1..]));
    }
  }

  /** A completed node logged in, logged its key, and then configured its endpoints with that key. */
  lemma NodeStep(net: Network, c: Credentials, node: Node, h: seq<Effect>)
    requires ConfigureNode(net, c, node, h).result.Ok?
    ensures var s := Login(net, c, node.host, h);
      && s.result.Ok?
      && ConfigureNode(net, c, node, h)
         == ConfigureEndpoints(net, node.host, s.result.value, node.endpoints,
                               s.trace + [Log(Info, SessionMessage(node.host, s.result.value))])
  {
  }

  /** A completed node: its login, then its endpoints' requests; its key line, then its endpoint lines. */
  lemma NodeComplete(net: Network, c: Credentials, node: Node, h: seq<Effect>)
    requires ConfigureNode(net, c, node, h).result.Ok?
    ensures var s := Login(net, c, node.host, h); var o := ConfigureNode(net, c, node, h);
      && s.result.Ok?
      && CallsOf(o.trace) == CallsOf(h) + NodeCalls(c, node, s.result.value)
      && Messages(o.trace, Info)
         == Messages(h, Info) + ([SessionMessage(node.host, s.result.value)] + ConfiguringMessages(node.host, node.endpoints))
  {
    NodeStep(net, c, node, h);
    var s := Login(net, c, node.host, h);
    var key := s.result.value;
    var l := Log(Info, SessionMessage(node.host, key));
    var o := ConfigureEndpoints(net, node.host, key, node.endpoints, s.trace + [l]);
    LoginOutcome(net, c, node.host, h);
    CallsOfSnoc(s.trace, l);
    MessagesSnoc(s.trace, l, Info);
    EndpointsComplete(net, node.host, key, node.endpoints, s.trace + [l]);
    AppendChain(CallsOf(h), CallsOf(s.trace + [l]), CallsOf(o.trace),
                [LoginRequest(c, node.host)], EndpointsCalls(node.host, key, node.endpoints));
    AppendChain(Messages(h, Info), Messages(s.trace + [l], Info), Messages(o.trace, Info),
                [SessionMessage(node.host, key)], ConfiguringMessages(node.host, node.endpoints));
  }

  /** A non-empty fleet that completes: its first node completed, and the rest ran after it. */
  lemma FleetStep(net: Network, c: Credentials, fleet: seq<Node>, h: seq<Effect>)
    requires fleet != []
    requires ConfigureFleet(net, c, fleet, h).result.Ok?
    ensures var o0 := ConfigureNode(net, c, fleet[0], h);
      && o0.result.Ok?
      && ConfigureFleet(net, c, fleet, h) == ConfigureFleet(net, c, fleet[1..], o0.trace)
  {
  }

  /**
   * The session key each section's login returned in a completed run: the
   * key read from the answer to that node's login request, given what the
   * run had emitted before it.
   */
  function SessionKeys(net: Network, c: Credentials, fleet: seq<Node>, h: seq<Effect>): (keys: seq<string>)
    requires ConfigureFleet(net, c, fleet, h).result.Ok?
    ensures |keys| == |fleet|
    decreases |fleet|
  {
    if fleet == [] then []
    else
      FleetStep(net, c, fleet, h);
      NodeStep(net, c, fleet[0], h);
      LoginOutcome(net, c, fleet[0].host, h);
      var answer := net(h, LoginRequest(c, fleet[0].host));
      [ExtractSessionKey(answer.body).value] + SessionKeys(net, c, fleet[1..], ConfigureNode(net, c, fleet[0], h).trace)
  }

  /** What a completed run over a fleet shows, for given session keys. */
  predicate FleetShows(t: seq<Effect>, h: seq<Effect>, c: Credentials, fleet: seq<Node>, keys: seq<string>)
  {
    && |keys| == |fleet|
    && CallsOf(t) == CallsOf(h) + FleetCalls(c, fleet, keys)
    && Messages(t, Info) == Messages(h, Info) + FleetInfo(fleet, keys)
  }

  /**
   * A completed run over N sections, with the key each login returned: the
   * requests are, section by section in order, its login followed by its
   * endpoints' requests; each section's key line precedes its endpoint lines.
   */
  lemma {:induction false} FleetComplete(net: Network, c: Credentials, fleet: seq<Node>, h: seq<Effect>)
    requires ConfigureFleet(net, c, fleet, h).result.Ok?
    ensures FleetShows(ConfigureFleet(net, c, fleet, h).trace, h, c, fleet, SessionKeys(net, c, fleet, h))
    decreases |fleet|
  {
    if fleet == [] {
      assert FleetShows(h, h, c, fleet, []);
    } else {
      FleetStep(net, c, fleet, h);
      var o0 := ConfigureNode(net, c, fleet[0], h);
      var o := ConfigureFleet(net, c, fleet[1..], o0.trace);
      NodeComplete(net, c, fleet[0], h);
      LoginOutcome(net, c, fleet[0].host, h);
      var k := Login(net, c, fleet[0].host, h).result.value;
      FleetComplete(net, c, fleet[1..], o0.trace);
      var rest := SessionKeys(net, c, fleet[1..], o0.trace);
      assert SessionKeys(net, c, fleet, h) == [k] + rest;
      FleetStepShows(o0.trace, o.trace, h, c, fleet, k, rest);
    }
  }

  lemma FleetStepShows(t0: seq<Effect>, t: seq<Effect>, h: seq<Effect>, c: Credentials, fleet: seq<Node>, k: string, rest: seq<string>)
    requires fleet != []
    requires CallsOf(t0) == CallsOf(h) + NodeCalls(c, fleet[0], k)
    requires Messages(t0, Info) == Messages(h, Info) + ([SessionMessage(fleet[0].host, k)] + ConfiguringMessages(fleet[0].host, fleet[0].endpoints))
    requires FleetShows(t, t0, c, fleet[1..], rest)
    ensures FleetShows(t, h, c, fleet, [k] + rest)
  {
    var keys := [k] + rest;
    assert keys[0] == k && keys[1..] == rest;
    AppendChain(CallsOf(h), CallsOf(t0), CallsOf(t), NodeCalls(c, fleet[0], k), FleetCalls(c, fleet[1..], rest));
    AppendChain(Messages(h, Info), Messages(t0, Info), Messages(t, Info),
                [SessionMessage(fleet[0].host, k)] + ConfiguringMessages(fleet[0].host, fleet[0].endpoints),
                FleetInfo(fleet[1..], rest));
  }

  /**
   * For a fleet with N sections, a completed run issued exactly N requests
   * without an Authorization header: the logins, the i-th to the i-th
   * section's node.
   */
  lemma OneLoginPerNode(net: Network, c: Credentials, fleet: seq<Node>, h: seq<Effect>)
    requires ConfigureFleet(net, c, fleet, h).result.Ok?
    ensures Unauthenticated(CallsOf(ConfigureFleet(net, c, fleet, h).trace))
         == Unauthenticated(CallsOf(h)) + LoginRequests(c, fleet)
  {
    FleetComplete(net, c, fleet, h);
    var keys := SessionKeys(net, c, fleet, h);
    UnauthenticatedAppend(CallsOf(h), FleetCalls(c, fleet, keys));
    FleetLogins(c, fleet, keys);
  }

  // ---------------------------------------------------------------------
  // When a run completes
  // ---------------------------------------------------------------------

  /** Every login is answered with a body that holds a session key. */
  ghost predicate LoginsSucceed(net: Network, c: Credentials)
  {
    forall t, host :: net(t, LoginRequest(c, host)).Delivered?
                      && ExtractSessionKey(net(t, LoginRequest(c, host)).body).Some?
  }

  /** An endpoint file its handler can run through: a user file has a UserList whose entries all parse. */
  predicate Runnable(ep: Endpoint)
  {
    Classify(ep.config.endpointType) == UserKind ==>
      && ep.config.userList.Some?
      && forall i :: 0 <= i < |ep.config.userList.value| ==> ParseEntry(ep.config.userList.value[i]).Some?
  }

  /** Every endpoint file of every section is runnable. */
  predicate RunnableFleet(fleet: seq<Node>)
  {
    forall n, i :: 0 <= n < |fleet| && 0 <= i < |fleet[n].endpoints| ==> Runnable(fleet[n].endpoints[i])
  }

  /** A runnable endpoint file completes whatever HTTP errors its requests get back. */
  lemma EndpointCompletes(net: Network, host: string, key: string, ep: Endpoint, h: seq<Effect>)
    requires AlwaysReachable(net)
    requires Runnable(ep)
    ensures ConfigureEndpoint(net, host, key, ep, h).result.Ok?
  {
    if Classify(ep.config.endpointType) == UserKind {
      ReconcileCompletes(net, host, key, ep.config.userList.value, h + [Log(Info, ConfiguringMessage(host, ep.path))]);
    } else {
      QuietEndpointStep(net, host, key, ep, h);
    }
  }

  /** Runnable endpoint files complete, one after the other. */
  lemma {:induction false} EndpointsCompletes(net: Network, host: string, key: string, eps: seq<Endpoint>, h: seq<Effect>)
    requires AlwaysReachable(net)
    requires forall i :: 0 <= i < |eps| ==> Runnable(eps[i])
    ensures ConfigureEndpoints(net, host, key, eps, h).result.Ok?
    decreases |eps|
  {
    if eps != [] {
      EndpointCompletes(net, host, key, eps[0], h);
      var o0 := ConfigureEndpoint(net, host, key, eps[0], h);
      forall i | 0 <= i < |eps[1..]| ensures Runnable(eps[1..][i]) {
        assert eps[1..][i] == eps[i + 1];
      }
      EndpointsCompletes(net, host, key, eps[1..], o0.trace);
    }
  }

  /** A node whose login succeeds completes its runnable endpoint files. */
  lemma NodeCompletes(net: Network, c: Credentials, node: Node, h: seq<Effect>)
    requires AlwaysReachable(net) && LoginsSucceed(net, c)
    requires forall i :: 0 <= i < |node.endpoints| ==> Runnable(node.endpoints[i])
    ensures ConfigureNode(net, c, node, h).result.Ok?
  {
    LoginOutcome(net, c, node.host, h);
    var s := Login(net, c, node.host, h);
    assert s.result.Ok?;
    EndpointsCompletes(net, node.host, s.result.value, node.endpoints,
                       s.trace + [Log(Info, SessionMessage(node.host, s.result.value))]);
  }

  /**
   * With every request answered, every login giving a key and every file
   * runnable, the run over the fleet completes, so the N logins and the
   * requests of `FleetComplete` are issued whatever HTTP errors the
   * deletes and creates get back.
   */
  lemma {:induction false} FleetCompletes(net: Network, c: Credentials, fleet: seq<Node>, h: seq<Effect>)
    requires AlwaysReachable(net) && LoginsSucceed(net, c)
    requires RunnableFleet(fleet)
    ensures ConfigureFleet(net, c, fleet, h).result.Ok?
    decreases |fleet|
  {
    if fleet != [] {
      assert forall i :: 0 <= i < |fleet[0].endpoints| ==> Runnable(fleet[0].endpoints[i]) by {
        forall i | 0 <= i < |fleet[0].endpoints| ensures Runnable(fleet[0].endpoints[i]) {
          assert 0 <= 0 < |fleet|;
        }
      }
      NodeCompletes(net, c, fleet[0], h);
      var o0 := ConfigureNode(net, c, fleet[0], h);
      assert RunnableFleet(fleet[1..]) by {
        forall n, i | 0 <= n < |fleet[1..]| && 0 <= i < |fleet[1..][n].endpoints|
          ensures Runnable(fleet[1..][n].endpoints[i])
        {
          assert fleet[1..][n] == fleet[n + 1];
        }
      }
      FleetCompletes(net, c, fleet[1..], o0.trace);
    }
  }

  /**
   * Hence, under the same conditions, a fleet of N sections issues exactly
   * N requests without an Authorization header, the logins, in section order.
   */
  lemma FleetLoginsAlways(net: Network, c: Credentials, fleet: seq<Node>, h: seq<Effect>)
    requires AlwaysReachable(net) && LoginsSucceed(net, c)
    requires RunnableFleet(fleet)
    ensures Unauthenticated(CallsOf(ConfigureFleet(net, c, fleet, h).trace))
         == Unauthenticated(CallsOf(h)) + LoginRequests(c, fleet)
  {
    FleetCompletes(net, c, fleet, h);
    OneLoginPerNode(net, c, fleet, h);
  }
}
