/**
 * What a run is expected to produce, defined without the network: the
 * requests of each entry, endpoint, node and fleet, the log lines of a user
 * endpoint, and the facts about them that need no trace (contents of each
 * request, layout of the requests, which ones carry the Authorization header).
 */
module Expected {
  import opened Wrappers
  import opened Strings
  import opened Http
  import opened Config
  import opened Orchestration

  // ---------------------------------------------------------------------
  // Expected requests and lines
  // ---------------------------------------------------------------------

  /** The two requests a well-formed entry causes: delete the user, then create it. */
  function EntryCalls(host: string, key: string, raw: string): seq<Sent>
  {
    match ParseEntry(raw)
    case None => []
    case Some(e) => [DeleteRequest(host, key, e.name), CreateRequest(host, key, e)]
  }

  function UserCalls(host: string, key: string, entries: seq<string>): seq<Sent>
  {
    if entries == [] then [] else EntryCalls(host, key, entries[0]) + UserCalls(host, key, entries[1..])
  }

  /** The log lines with `state` that a well-formed entry writes when it completes. */
  function EntryLines(raw: string, state: string): seq<string>
  {
    match ParseEntry(raw)
    case None => []
    case Some(e) =>
      (if state == Deleted then [DeletedMessage(e.name)] else [])
      + (if state == Created then [CreatedMessage(e.name)] else [])
  }

  function UserLines(entries: seq<string>, state: string): seq<string>
  {
    if entries == [] then [] else EntryLines(entries[0], state) + UserLines(entries[1..], state)
  }

  /** The position of the first malformed entry, or the number of entries when there is none. */
  function FirstMalformed(entries: seq<string>): (j: nat)
    ensures j <= |entries|
    ensures forall i :: 0 <= i < j ==> ParseEntry(entries[i]).Some?
    ensures j < |entries| ==> ParseEntry(entries[j]).None?
  {
    if entries == [] || ParseEntry(entries[0]).None? then 0
    else
      var r := FirstMalformed(entries[1..]);
      assert forall i :: 0 < i <= r && i < |entries| ==> entries[i] == entries[1..][i - 1];
      1 + r
  }

  /** Only a user endpoint (with its UserList) issues requests. */
  function EndpointCalls(host: string, key: string, ep: Endpoint): seq<Sent>
  {
    if Classify(ep.config.endpointType) == UserKind && ep.config.userList.Some?
    then UserCalls(host, key, ep.config.userList.value)
    else []
  }

  function EndpointsCalls(host: string, key: string, eps: seq<Endpoint>): seq<Sent>
  {
    if eps == [] then [] else EndpointCalls(host, key, eps[0]) + EndpointsCalls(host, key, eps[1..])
  }

  /** A node's requests: its login first, then those of its endpoints in option order. */
  function NodeCalls(c: Credentials, node: Node, key: string): seq<Sent>
  {
    [LoginRequest(c, node.host)] + EndpointsCalls(node.host, key, node.endpoints)
  }

  function FleetCalls(c: Credentials, fleet: seq<Node>, keys: seq<string>): seq<Sent>
    requires |keys| == |fleet|
  {
    if fleet == [] then [] else NodeCalls(c, fleet[0], keys[0]) + FleetCalls(c, fleet[1..], keys[1..])
  }

  /** The INFO lines announcing the endpoint files of one node, in option order. */
  function ConfiguringMessages(host: string, eps: seq<Endpoint>): seq<string>
  {
    if eps == [] then [] else [ConfiguringMessage(host, eps[0].path)] + ConfiguringMessages(host, eps[1..])
  }

  /** The INFO lines of a fleet: per node, its session key line and then its endpoint lines. */
  function FleetInfo(fleet: seq<Node>, keys: seq<string>): seq<string>
    requires |keys| == |fleet|
  {
    if fleet == [] then []
    else [SessionMessage(fleet[0].host, keys[0])] + ConfiguringMessages(fleet[0].host, fleet[0].endpoints)
         + FleetInfo(fleet[1..], keys[1..])
  }

  /** The requests sent without an Authorization header. */
  function Unauthenticated(calls: seq<Sent>): seq<Sent>
  {
    if calls == [] then []
    else (if AuthHeader in calls[0].headers then [] else [calls[0]]) + Unauthenticated(calls[1..])
  }

  function LoginRequests(c: Credentials, fleet: seq<Node>): (r: seq<Sent>)
    ensures |r| == |fleet|
    ensures forall i :: 0 <= i < |fleet| ==> r[i] == LoginRequest(c, fleet[i].host)
  {
    if fleet == [] then [] else [LoginRequest(c, fleet[0].host)] + LoginRequests(c, fleet[1..])
  }

  function CountVerb(calls: seq<Sent>, v: Verb): nat
  {
    if calls == [] then 0 else (if calls[0].verb == v then 1 else 0) + CountVerb(calls[1..], v)
  }

  lemma {:induction false} UnauthenticatedAppend(a: seq<Sent>, b: seq<Sent>)
    ensures Unauthenticated(a + b) == Unauthenticated(a) + Unauthenticated(b)
  {
    if a == [] {
      assert a + b == b;
    } else {
      assert (a + b)[1..] == a[1..] + b;
      UnauthenticatedAppend(a[1..], b);
    }
  }

  lemma {:induction false} CountVerbAppend(a: seq<Sent>, b: seq<Sent>, v: Verb)
    ensures CountVerb(a + b, v) == CountVerb(a, v) + CountVerb(b, v)
  {
    if a == [] {
      assert a + b == b;
    } else {
      assert (a + b)[1..] == a[1..] + b;
      CountVerbAppend(a[1..], b, v);
    }
  }

  // ---------------------------------------------------------------------
  // Requests and their contents
  // ---------------------------------------------------------------------

  /**
   * The login request goes to /services/auth/login with the credentials as
   * its form and no Authorization header.
   */
  lemma LoginRequestShape(c: Credentials, host: string)
    ensures var r := LoginRequest(c, host);
      && r.verb == POST && r.url == Scheme + host + "/services/auth/login"
      && r.body == Some(map["username" := c.username, "password" := c.password])
      && AuthHeader !in r.headers
  {
  }

  /**
   * The delete of an entry goes to /services/authentication/users/ followed
   * by field 0 of the entry, without a body, with `Authorization: Splunk <key>`.
   */
  lemma DeleteRequestShape(host: string, key: string, raw: string)
    requires ParseEntry(raw).Some?
    ensures var r := DeleteRequest(host, key, ParseEntry(raw).value.name);
      && r.verb == DELETE && r.url == Scheme + host + "/services/authentication/users/" + Split(raw, EntrySeparator)[0]
      && r.body == None && r.headers == map[AuthHeader := "Splunk " + key]
  {
    var name := ParseEntry(raw).value.name;
    assert name == Split(raw, EntrySeparator)[0];
    DeleteRequestOf(host, key, name);
  }

  /** The delete request for a user name, field by field. */
  lemma DeleteRequestOf(host: string, key: string, name: string)
    ensures var r := DeleteRequest(host, key, name);
      && r.verb == DELETE && r.url == Scheme + host + "/services/authentication/users/" + name
      && r.body == None && r.headers == map[AuthHeader := "Splunk " + key]
  {
    assert UsersPath + "/" == "/services/authentication/users/";
    assert Scheme + host + (UsersPath + "/" + name) == Scheme + host + "/services/authentication/users/" + name;
  }

  /**
   * The create of an entry posts to /services/authentication/users a form
   * with exactly the keys name, password and roles, bound to fields 0, 1 and
   * 2 of the entry, with `Authorization: Splunk <key>`.
   */
  lemma CreateRequestShape(host: string, key: string, raw: string)
    requires ParseEntry(raw).Some?
    ensures var fields := Split(raw, EntrySeparator);
      var r := CreateRequest(host, key, ParseEntry(raw).value);
      && r.verb == POST && r.url == Scheme + host + "/services/authentication/users"
      && r.body.Some? && r.body.value.Keys == {"name", "password", "roles"}
      && r.body.value["name"] == fields[0] && r.body.value["password"] == fields[1]
      && r.body.value["roles"] == fields[2]
      && r.headers == map[AuthHeader := "Splunk " + key]
  {
    var e := ParseEntry(raw).value;
    var fields := Split(raw, EntrySeparator);
    assert e == UserEntry(fields[0], fields[1], fields[2]);
  }

  // ---------------------------------------------------------------------
  // Requests of a UserList
  // ---------------------------------------------------------------------

  lemma EntryLinesOf(raw: string, e: UserEntry, state: string)
    requires ParseEntry(raw) == Some(e)
    ensures EntryLines(raw, state)
      == (if Deleted == state then [DeletedMessage(e.name)] else []) + (if Created == state then [CreatedMessage(e.name)] else [])
  {
  }

  /** Entries write no INFO line. */
  lemma {:induction false} UserLinesInfo(entries: seq<string>)
    ensures UserLines(entries, Info) == []
    decreases |entries|
  {
    if entries != [] {
      StatesDistinct();
      UserLinesInfo(entries[1..]);
    }
  }

  /** K well-formed entries write K DELETED lines and K CREATED lines. */
  lemma {:induction false} UserLinesCount(entries: seq<string>, state: string)
    requires forall i :: 0 <= i < |entries| ==> ParseEntry(entries[i]).Some?
    requires state == Deleted || state == Created
    ensures |UserLines(entries, state)| == |entries|
    decreases |entries|
  {
    if entries != [] {
      StatesDistinct();
      assert ParseEntry(entries[0]).Some?;
      forall i | 0 <= i < |entries[1..]| ensures ParseEntry(entries[1..][i]).Some? {
        assert entries[1..][i] == entries[i + 1];
      }
      UserLinesCount(entries[1..], state);
    }
  }

  /**
   * The requests of K well-formed entries: 2K of them, and for each entry i
   * in order, positions 2i and 2i+1 hold its delete and its create.
   */
  lemma {:induction false} UserCallsLayout(host: string, key: string, entries: seq<string>)
    requires forall i :: 0 <= i < |entries| ==> ParseEntry(entries[i]).Some?
    ensures |UserCalls(host, key, entries)| == 2 * |entries|
    ensures forall i :: 0 <= i < |entries| ==>
      UserCalls(host, key, entries)[2 * i..2 * i + 2] == EntryCalls(host, key, entries[i])
    decreases |entries|
  {
    if entries != [] {
      var head := EntryCalls(host, key, entries[0]);
      var rest := UserCalls(host, key, entries[1..]);
      assert ParseEntry(entries[0]).Some?;
      forall i | 0 <= i < |entries[1..]| ensures ParseEntry(entries[1..][i]).Some? {
        assert entries[1..][i] == entries[i + 1];
      }
      UserCallsLayout(host, key, entries[1..]);
      assert |head| == 2;
      assert UserCalls(host, key, entries) == head + rest;
      forall i | 0 < i < |entries|
        ensures (head + rest)[2 * i..2 * i + 2] == EntryCalls(host, key, entries[i])
      {
        assert entries[i] == entries[1..][i - 1];
        PairAt(head, rest, i);
      }
      assert (head + rest)[0..2] == head;
    }
  }

  lemma PairAt<T>(head: seq<T>, rest: seq<T>, i: nat)
    requires |head| == 2 && 0 < i && 2 * i + 2 <= |head| + |rest|
    ensures (head + rest)[2 * i..2 * i + 2] == rest[2 * (i - 1)..2 * (i - 1) + 2]
  {
  }

  /** The requests of K well-formed entries hold K DELETEs and K POSTs. */
  lemma {:induction false} UserCallsVerbs(host: string, key: string, entries: seq<string>)
    requires forall i :: 0 <= i < |entries| ==> ParseEntry(entries[i]).Some?
    ensures CountVerb(UserCalls(host, key, entries), DELETE) == |entries|
    ensures CountVerb(UserCalls(host, key, entries), POST) == |entries|
    decreases |entries|
  {
    if entries != [] {
      var head := EntryCalls(host, key, entries[0]);
      var rest := UserCalls(host, key, entries[1..]);
      assert ParseEntry(entries[0]).Some?;
      forall i | 0 <= i < |entries[1..]| ensures ParseEntry(entries[1..][i]).Some? {
        assert entries[1..][i] == entries[i + 1];
      }
      UserCallsVerbs(host, key, entries[1..]);
      CountVerbAppend(head, rest, DELETE);
      CountVerbAppend(head, rest, POST);
      assert head[1..][1..] == [];
    }
  }

  /** A repeated entry is deleted and recreated again. */
  lemma RepeatedEntry(host: string, key: string, raw: string)
    requires ParseEntry(raw).Some?
    ensures var e := ParseEntry(raw).value;
      UserCalls(host, key, [raw, raw])
      == [DeleteRequest(host, key, e.name), CreateRequest(host, key, e),
          DeleteRequest(host, key, e.name), CreateRequest(host, key, e)]
  {
    var e := ParseEntry(raw).value;
    var pair := [DeleteRequest(host, key, e.name), CreateRequest(host, key, e)];
    assert [raw, raw][1..] == [raw];
    assert [raw][1..] == [];
    assert UserCalls(host, key, [raw]) == pair + UserCalls(host, key, []);
    assert UserCalls(host, key, [raw, raw]) == pair + UserCalls(host, key, [raw]);
  }

  /** The requests of the first j entries: those of the first entry, then those of the next j-1. */
  lemma UserCallsPrefix(host: string, key: string, entries: seq<string>, j: nat)
    requires 0 < j <= |entries|
    ensures UserCalls(host, key, entries[..j]) == EntryCalls(host, key, entries[0]) + UserCalls(host, key, entries[1..][..j - 1])
  {
    assert entries[..j][0] == entries[0];
    assert entries[..j][1..] == entries[1..][..j - 1];
  }

  // ---------------------------------------------------------------------
  // Authorization header
  // ---------------------------------------------------------------------

  lemma {:induction false} UsersAuthenticated(host: string, key: string, entries: seq<string>)
    ensures Unauthenticated(UserCalls(host, key, entries)) == []
    decreases |entries|
  {
    if entries != [] {
      UnauthenticatedAppend(EntryCalls(host, key, entries[0]), UserCalls(host, key, entries[1..]));
      UsersAuthenticated(host, key, entries[1..]);
      var calls := EntryCalls(host, key, entries[0]);
      if calls != [] {
        assert calls[1..][1..] == [];
      }
    }
  }

  /** Every endpoint request carries the Authorization header. */
  lemma {:induction false} EndpointsAuthenticated(host: string, key: string, eps: seq<Endpoint>)
    ensures Unauthenticated(EndpointsCalls(host, key, eps)) == []
    decreases |eps|
  {
    if eps != [] {
      var ep := eps[0];
      UnauthenticatedAppend(EndpointCalls(host, key, ep), EndpointsCalls(host, key, eps[1..]));
      EndpointsAuthenticated(host, key, eps[1..]);
      if Classify(ep.config.endpointType) == UserKind && ep.config.userList.Some? {
        UsersAuthenticated(host, key, ep.config.userList.value);
      }
    }
  }

  /** The only request of a node without an Authorization header is its login. */
  lemma NodeUnauthenticated(c: Credentials, node: Node, key: string)
    ensures Unauthenticated(NodeCalls(c, node, key)) == [LoginRequest(c, node.host)]
  {
    var login := LoginRequest(c, node.host);
    var ends := EndpointsCalls(node.host, key, node.endpoints);
    UnauthenticatedAppend([login], ends);
    EndpointsAuthenticated(node.host, key, node.endpoints);
    assert AuthHeader !in login.headers;
    assert Unauthenticated([login]) == [login] + Unauthenticated([]);
  }

  /** The unauthenticated requests of a fleet are its logins, one per section, in section order. */
  lemma {:induction false} FleetLogins(c: Credentials, fleet: seq<Node>, keys: seq<string>)
    requires |keys| == |fleet|
    ensures Unauthenticated(FleetCalls(c, fleet, keys)) == LoginRequests(c, fleet)
    decreases |fleet|
  {
    if fleet != [] {
      UnauthenticatedAppend(NodeCalls(c, fleet[0], keys[0]), FleetCalls(c, fleet[1..], keys[1..]));
      NodeUnauthenticated(c, fleet[0], keys[0]);
      FleetLogins(c, fleet[1..], keys[1..]);
    }
  }
}
