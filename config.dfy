/**
 * The configuration as the INI reader delivers it: a fleet of nodes, each
 * with the endpoint files listed for it, and for each endpoint file its
 * optional `type` and its `UserList` values. Also the interpretation of
 * those values: the endpoint kind selected by `type`, and the
 * `username|password|role` encoding of a user entry.
 */
module Config {
  import opened Wrappers
  import opened Strings

  /** An endpoint file: `[Endpoint] type` and the values of `[UserList]`, each if present. */
  datatype EndpointConfig = EndpointConfig(endpointType: Option<string>, userList: Option<seq<string>>)

  /** One option of a node's section: the file name and what reading it yields. */
  datatype Endpoint = Endpoint(path: string, config: EndpointConfig)

  /** One section of the fleet file: a node's host:port and its endpoint options, in file order. */
  datatype Node = Node(host: string, endpoints: seq<Endpoint>)

  /** A desired user account. */
  datatype UserEntry = UserEntry(name: string, password: string, role: string)

  /** The handlers an endpoint can be dispatched to. */
  datatype Kind = UserKind | SearchPeerKind | LdapKind | UnknownKind(name: string)

  /** What an endpoint's type reads as when its file has no `type` option. */
  const NotFound := "*not found*"

  const EntrySeparator := '|'

  function TypeName(endpointType: Option<string>): string
  {
    match endpointType
    case Some(name) => name
    case None => NotFound
  }

  /**
   * The dispatch table of `performConfigurationEndpoint`: the exact
   * (case-sensitive) names `user`, `searchpeer` and `LDAP` select their
   * handlers; every other name, and a missing type, is unknown.
   */
  function Classify(endpointType: Option<string>): (k: Kind)
    ensures k == UserKind <==> endpointType == Some("user")
    ensures k == SearchPeerKind <==> endpointType == Some("searchpeer")
    ensures k == LdapKind <==> endpointType == Some("LDAP")
    ensures k.UnknownKind? <==> TypeName(endpointType) !in {"user", "searchpeer", "LDAP"}
    ensures k.UnknownKind? ==> k.name == TypeName(endpointType)
    ensures endpointType.None? ==> k == UnknownKind(NotFound)
  {
    var name := TypeName(endpointType);
    if name == "user" then UserKind
    else if name == "searchpeer" then SearchPeerKind
    else if name == "LDAP" then LdapKind
    else UnknownKind(name)
  }

  /**
   * Fields 0, 1 and 2 of the `|`-split value; fewer than three fields is a
   * malformed entry, and fields beyond the third are ignored.
   */
  function ParseEntry(raw: string): (e: Option<UserEntry>)
    ensures e.Some? <==> Count(raw, EntrySeparator) >= 2
    ensures e.Some? ==> EntrySeparator !in e.value.name && EntrySeparator !in e.value.password
    ensures e.Some? ==> EntrySeparator !in e.value.role
    ensures e.Some? ==>
      var j := e.value.name + [EntrySeparator] + e.value.password + [EntrySeparator] + e.value.role;
      j == raw || j + [EntrySeparator] <= raw
  {
    var fields := Split(raw, EntrySeparator);
    if |fields| < 3 then None
    else
      JoinStartsWithThree(fields, EntrySeparator);
      Some(UserEntry(fields[0], fields[1], fields[2]))
  }

  /** A well-formed entry decodes to its three fields. */
  lemma EntryRoundTrip(name: string, password: string, role: string)
    requires EntrySeparator !in name && EntrySeparator !in password && EntrySeparator !in role
    ensures ParseEntry(name + [EntrySeparator] + password + [EntrySeparator] + role)
         == Some(UserEntry(name, password, role))
  {
    var raw := name + [EntrySeparator] + password + [EntrySeparator] + role;
    assert raw == name + [EntrySeparator] + (password + [EntrySeparator] + role);
    SplitCons(name, EntrySeparator, password + [EntrySeparator] + role);
    SplitCons(password, EntrySeparator, role);
    SplitNone(role, EntrySeparator);
  }

  /** The example of the user endpoint file format. */
  lemma EntryExample()
    ensures ParseEntry("alice|s3cr3t|power") == Some(UserEntry("alice", "s3cr3t", "power"))
  {
    EntryRoundTrip("alice", "s3cr3t", "power");
    assert "alice|s3cr3t|power" == "alice" + [EntrySeparator] + "s3cr3t" + [EntrySeparator] + "power";
  }

  /** Two `|`-free fields and one separator are too few: the entry is malformed. */
  lemma MissingRole(name: string, password: string)
    requires EntrySeparator !in name && EntrySeparator !in password
    ensures ParseEntry(name + [EntrySeparator] + password) == None
  {
    CountAppend(name + [EntrySeparator], password, EntrySeparator);
    CountAppend(name, [EntrySeparator], EntrySeparator);
    CountAbsent(name, EntrySeparator);
    CountAbsent(password, EntrySeparator);
  }

  /** An entry missing its role is malformed. */
  lemma MissingRoleExample()
    ensures ParseEntry("alice|s3cr3t") == None
  {
    MissingRole("alice", "s3cr3t");
    assert "alice|s3cr3t" == "alice" + [EntrySeparator] + "s3cr3t";
  }
}
