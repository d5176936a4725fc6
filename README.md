# Search-head manager: a verified model

`manageSearchHeads.py` is a script that configures a fleet of Splunk search heads over their REST interface. A fleet file lists one section per search head (`host:port`). Each option of a section names an endpoint file. An endpoint file has an `[Endpoint] type` and, for user endpoints, a `[UserList]` of `username|password|role` values.

For each search head the script does four things, in order:

1. It logs in and reads the session key from the answer.
2. It logs the key.
3. It dispatches each endpoint file on its type:
   - `user` deletes, then recreates, every listed user;
   - `searchpeer` and `LDAP` are stubs that write a placeholder line;
   - any other type, including a missing one (read as `*not found*`), writes an ERROR line.
4. Every REST request goes through one helper. That helper adds `Authorization: Splunk <key>` when a key is given, switches the method to DELETE when asked, and logs an HTTP error instead of failing.

The model makes the script a generator of an **effect trace**. An effect is either a request exactly as the transport receives it (`Call(Sent(verb, url, body, headers))`) or a log line (`Log(state, message)`).

- The configuration arrives already parsed:
  - the fleet is a `seq<Node>`;
  - each endpoint is its optional `type` plus its optional `UserList` values.
- The network is an oracle `Network = (history, request) -> Response`. A response is one of:
  - `Delivered(body)`: a body is returned;
  - `Rejected(body)`: an HTTP error, logged, and no result;
  - `Unreachable`: any other transport failure, which escapes and ends the run.
- An exception the script does not catch ends the run with a `Fault`, and the trace keeps what was emitted before it.

Modules:

- `Wrappers`, `Strings`: `Option`/`Result`; the string helpers (`Split` and its properties, substring search).
- `Http`: `buildUrl`, the request `callRestEndpoint` prepares (`RequestFor`), and urllib2's mutable `Request` object as a class.
- `Trace`: effects, responses, faults, outcomes, and the projections `CallsOf` (the requests of a trace) and `Messages` (the messages logged under one state).
- `Config`: the parsed configuration; the dispatch table `Classify`; the `|` encoding of a user entry (`ParseEntry`).
- `Session`: the session key read from the login answer (`ExtractSessionKey`).
- `Orchestration`: the reference semantics. There is one function per step of the script, each threading the trace.
- `Manager`: the script's functions written step by step, as methods with the script's loops. Each is proved to produce exactly the outcome `Orchestration` assigns to it.
- `Expected`: what a run should produce, defined without the network: the request list of an entry, endpoint, node and fleet, and the log lines of a user list. It also holds the facts about those lists: request contents, layout, verb counts, and which requests are unauthenticated.
- `UserReconciliation`: what the user handler does to the trace, covering complete runs, malformed entries and failed requests.
- `FleetOrchestration`: login, dispatch, and whole-fleet properties.

Where the code and its documentation disagree, the model follows the code:

- **Extra fields accepted.** An entry with more than three `|` fields is accepted and the extra fields are ignored. Only fewer than three fields is an error (`IndexError` at lines 91/93).
- **CREATED always logged.** The `CREATED` line is written even when the create request got an HTTP error. Likewise, `DELETED` is written after a failed delete.
- **Missing UserList aborts.** A `user` endpoint file without a `UserList` section raises `NoSectionError` and ends the whole run. It does not just skip that file.
- **Login failure aborts everything.** A login that fails ends the whole run, not only that node. The cases are an HTTP error (the helper returns `None`), an answer without a key, or an unreachable node.
- **Missing file reads as empty.** An endpoint file that does not exist reads as an empty configuration. Its type is therefore `*not found*`.

## Model

| member | source | states |
|---|---|---|
| Http.BuildUrl | manageSearchHeads.py:140-141 | the URL splits into the scheme `https://`, then the host:port, then the path, each at its own offset |
| Http.UrlRoundTrip | manageSearchHeads.py:140-141 | a host without `/` and an absolute path are recovered from the URL built from them |
| Http.UrlInjective | manageSearchHeads.py:140-141 | distinct (host, path) pairs give distinct URLs, and equal pairs equal URLs |
| Http.RequestFor | manageSearchHeads.py:147-157 | the request keeps the URL and body; the Authorization header is present iff a key is passed and then reads `Splunk <key>`; no other header; DELETE iff asked for, otherwise POST iff there is a body |
| Http.Request.constructor | manageSearchHeads.py:149 | a new request has the URL and data, no headers and no method override |
| Http.Request.AddHeader | manageSearchHeads.py:151-152 | sets exactly that header and leaves the method override unchanged |
| Http.Request.OverrideMethod | manageSearchHeads.py:154-155 | installs the method override and leaves the headers unchanged |
| Config.Classify | manageSearchHeads.py:65-80 | selects the user handler iff the type is `user`, the search-peer stub iff `searchpeer`, the LDAP stub iff `LDAP`, and otherwise the unknown branch, naming the type, or `*not found*` when none is given |
| Config.ParseEntry | manageSearchHeads.py:89-93 | an entry parses iff it has at least two `\|`; the three fields are `\|`-free and, rejoined, are the whole entry or are followed in it by a `\|` (so the role is the whole third field) |
| Config.EntryRoundTrip | manageSearchHeads.py:89-93 | three `\|`-free fields joined by `\|` parse back to exactly those fields |
| Config.EntryExample | manageSearchHeads.py:89-93 | `alice\|s3cr3t\|power` parses to name alice, password s3cr3t, role power |
| Config.MissingRole | manageSearchHeads.py:89-93 | a `name\|password` entry with no role field does not parse |
| Config.MissingRoleExample | manageSearchHeads.py:89-93 | `alice\|s3cr3t` does not parse |
| Session.ExtractSessionKey | manageSearchHeads.py:134 | a key read is non-empty, holds no `<`, and a `<sessionKey>` tag occurs in the answer; an answer without the tag gives no key |
| Session.ExtractFirstKey | manageSearchHeads.py:134 | the key after the first `<sessionKey>` tag, up to the next `<`, is the one read |
| Session.ExtractFromResponse | manageSearchHeads.py:134 | the key of a `<response><sessionKey>K</sessionKey></response>` answer is K |
| Session.ExtractExample | manageSearchHeads.py:134 | a concrete answer gives its key `ABC123` |
| Session.ExtractMissingExample | manageSearchHeads.py:134 | an answer without a sessionKey element gives no key |
| Orchestration.Exchange | manageSearchHeads.py:147-162 | the trace is the history plus the request, and after an HTTP error also exactly the line `REST endpoint error: <body>` under ERROR; the run fails iff the node is unreachable; the result is "no body" iff an HTTP error came back; a delivered body is returned |
| Orchestration.LoginRequest | manageSearchHeads.py:129-133 | the login is a POST of the credential form to the node's login URL, with no header |
| Orchestration.DeleteRequest | manageSearchHeads.py:97-99 | the delete is a DELETE of the user's URL, with no body and exactly the header `Authorization: Splunk <key>` |
| Orchestration.CreateRequest | manageSearchHeads.py:102-104 | the create is a POST of the name/password/roles form to the users URL, with exactly the Authorization header |
| Orchestration.Login | manageSearchHeads.py:128-135 | the run so far is kept and the login request comes next (its outcome is stated by `FleetOrchestration.LoginOutcome`) |
| Orchestration.ReconcileEntry | manageSearchHeads.py:89-105 | the run so far is kept; an entry fails as malformed iff it does not parse; otherwise only a transport failure can end it (its trace is stated by `UserReconciliation.EntrySteps` and `EntryAfterDelete`) |
| Orchestration.ReconcileUsers | manageSearchHeads.py:88-105 | the run so far is kept, and only a malformed entry or a transport failure ends the loop (its requests and lines are stated by `UserReconciliation.ReconcileComplete` and `MalformedStops`) |
| Orchestration.ConfigureUsers | manageSearchHeads.py:85-88 | the run so far is kept; the handler fails with a missing UserList iff the file has none |
| Orchestration.ConfigureEndpoint | manageSearchHeads.py:59-80 | the `Configuring` INFO line comes next; a non-user file completes with exactly one more line (dispatch is stated by the `FleetOrchestration` dispatch rows) |
| Orchestration.ConfigureEndpoints | manageSearchHeads.py:52-53 | the run so far is kept (the options' requests and lines are stated by `FleetOrchestration.EndpointsComplete`) |
| Orchestration.ConfigureNode | manageSearchHeads.py:47-53 | the run so far is kept and the node's login comes next (stated in full by `FleetOrchestration.NodeComplete`) |
| Orchestration.ConfigureFleet | manageSearchHeads.py:46-53 | the run so far is kept and the first section's login comes next (stated in full by `FleetOrchestration.FleetComplete`) |
| Manager.CallRestEndpoint | manageSearchHeads.py:147-162 | the method that builds and mutates the Request object sends exactly `RequestFor`'s request and has `Exchange`'s outcome |
| Manager.GetRestSessionKey | manageSearchHeads.py:128-135 | the login method has the outcome of `Login` |
| Manager.ConfigureUserEndpoint | manageSearchHeads.py:85-105 | the loop over the UserList has the outcome of `ConfigureUsers` |
| Manager.ConfigureSearchPeerEndpoint | manageSearchHeads.py:111-112 | the trace gains exactly the search-peer placeholder line |
| Manager.ConfigureLdapEndpoint | manageSearchHeads.py:119-120 | the trace gains exactly the LDAP placeholder line |
| Manager.PerformConfigurationEndpoint | manageSearchHeads.py:59-80 | the dispatch method has the outcome of `ConfigureEndpoint` |
| Manager.ProcessTargetConfigFile | manageSearchHeads.py:41-53 | the nested loops over sections and options have the outcome of `ConfigureFleet` |
| Expected.FirstMalformed | manageSearchHeads.py:88-93 | the index of the first entry that does not parse: every earlier entry parses, and the one there does not |
| Expected.LoginRequests | manageSearchHeads.py:46-47 | one login request per node, in node order |
| Expected.LoginRequestShape | manageSearchHeads.py:129-133 | the login request is a POST to `https://<host>/services/auth/login` with exactly username and password in its body and no Authorization header |
| Expected.DeleteRequestShape | manageSearchHeads.py:97-99 | a delete request is a DELETE to `https://<host>/services/authentication/users/` + field 0 of the entry, with no body and exactly the header `Authorization: Splunk <key>` |
| Expected.CreateRequestShape | manageSearchHeads.py:102-104 | a create request is a POST to `https://<host>/services/authentication/users`; its body has exactly the keys name, password and roles, bound to fields 0, 1 and 2 of the entry; its only header is `Authorization: Splunk <key>` |
| Expected.UserLinesInfo | manageSearchHeads.py:100-105 | the user handler writes no INFO line |
| Expected.UserLinesCount | manageSearchHeads.py:88-105 | K parsed entries give exactly K DELETED lines and K CREATED lines |
| Expected.UserCallsLayout | manageSearchHeads.py:88-105 | K entries give 2K requests, and requests 2i and 2i+1 are entry i's delete and create |
| Expected.UserCallsVerbs | manageSearchHeads.py:88-105 | K entries give exactly K DELETE and K POST requests |
| Expected.RepeatedEntry | manageSearchHeads.py:88-105 | a repeated entry is deleted and recreated twice, with no deduplication |
| Expected.UsersAuthenticated | manageSearchHeads.py:97-104 | every request of the user handler carries the Authorization header |
| Expected.EndpointsAuthenticated | manageSearchHeads.py:52-53 | every request made for a node's endpoints carries the Authorization header |
| Expected.NodeUnauthenticated | manageSearchHeads.py:47-53 | of a node's requests, only its login lacks the Authorization header |
| Expected.FleetLogins | manageSearchHeads.py:46-53 | the unauthenticated requests of a fleet's expected requests are exactly one login per node, in node order |
| UserReconciliation.EntrySteps | manageSearchHeads.py:97-105 | a completed entry is a delete exchange, the DELETED line, a create exchange and the CREATED line, in order |
| UserReconciliation.EntryCompleteCalls | manageSearchHeads.py:97-104 | a completed entry parses and issues exactly its delete, then its create |
| UserReconciliation.EntryCompleteLogs | manageSearchHeads.py:100-105 | outside ERROR, a completed entry writes exactly its DELETED and CREATED lines |
| UserReconciliation.ReconcileStep | manageSearchHeads.py:88 | a completed user list is its first entry followed by the rest |
| UserReconciliation.ReconcileCompleteCalls | manageSearchHeads.py:88-105 | a completed user list had only parsable entries and issued exactly their requests, in entry order |
| UserReconciliation.ReconcileCompleteLogs | manageSearchHeads.py:88-105 | outside ERROR, a completed user list writes exactly each entry's lines, in entry order |
| UserReconciliation.ReconcileComplete | manageSearchHeads.py:88-105 | completed: all entries parse; the requests are the expected ones; no INFO line; K DELETED and K CREATED lines, in entry order |
| UserReconciliation.ReconcileCompletes | manageSearchHeads.py:88-105 | if every node is reachable and every entry parses, the user list completes |
| UserReconciliation.EntryMalformed | manageSearchHeads.py:89-93 | an entry that ends the run as malformed does not parse and emits nothing |
| UserReconciliation.MalformedStops | manageSearchHeads.py:88-93 | a run ended by a malformed entry stops at the first such entry, and only the entries before it issued requests, so the bad entry has no create |
| UserReconciliation.EntryAfterDelete | manageSearchHeads.py:99-105 | once the delete is answered, the entry goes on to the create, and CREATED follows unless the create is unreachable |
| UserReconciliation.ExchangeShape | manageSearchHeads.py:157-162 | a request is the next effect, and an HTTP error adds exactly the line `REST endpoint error: <body>` under ERROR |
| UserReconciliation.DeleteFailureStillCreates | manageSearchHeads.py:99-104 | whenever the delete is answered, with or without an HTTP error, the entry issues its delete and then its create |
| UserReconciliation.DeleteFailureLogged | manageSearchHeads.py:99-104 | a rejected delete is followed by its ERROR line, the DELETED line and the create request, in that order |
| FleetOrchestration.LoginOutcome | manageSearchHeads.py:128-135 | a login issues exactly the login request; it yields a key iff the answer is delivered and holds one, and that key is the result; an HTTP error fails the login |
| FleetOrchestration.LoginFailureEndsRun | manageSearchHeads.py:46-47 | a rejected first login ends the whole run after its ERROR line: no other node is contacted |
| FleetOrchestration.UserDispatch | manageSearchHeads.py:70-71 | type `user` runs the user handler after the INFO line |
| FleetOrchestration.MissingUserListAborts | manageSearchHeads.py:88 | a user endpoint file without UserList ends the run after the INFO line, before any request |
| FleetOrchestration.PlaceholderStep | manageSearchHeads.py:73-77 | `searchpeer` and `LDAP` add the INFO line and then their placeholder line |
| FleetOrchestration.PlaceholderDispatch | manageSearchHeads.py:73-77 | `searchpeer` and `LDAP` succeed, add exactly the INFO line and one PLACEHOLDER line, and issue no request |
| FleetOrchestration.UnknownStep | manageSearchHeads.py:79-80 | any other type adds the INFO line and then the ERROR line naming it |
| FleetOrchestration.UnknownDispatch | manageSearchHeads.py:65-80 | any other type succeeds, adds exactly the INFO line and one ERROR line naming the type, and issues no request |
| FleetOrchestration.MissingTypeDispatch | manageSearchHeads.py:65-80 | a file without a type logs `Unknown endpointType *not found*` |
| FleetOrchestration.UserEndpointStep | manageSearchHeads.py:70-71 | a completed user endpoint had a UserList and ran the user handler over it |
| FleetOrchestration.QuietEndpointStep | manageSearchHeads.py:73-80 | a non-user endpoint adds the INFO line and one non-INFO line |
| FleetOrchestration.UserEndpointComplete | manageSearchHeads.py:59-71 | a completed user endpoint issues exactly its expected requests and writes one INFO line |
| FleetOrchestration.QuietEndpointComplete | manageSearchHeads.py:59-80 | a non-user endpoint issues no request and writes one INFO line |
| FleetOrchestration.EndpointComplete | manageSearchHeads.py:59-80 | a completed endpoint issues exactly its expected requests and writes exactly its `Configuring` INFO line |
| FleetOrchestration.EndpointsStep | manageSearchHeads.py:52-53 | completed options are the first option followed by the rest |
| FleetOrchestration.EndpointsComplete | manageSearchHeads.py:52-53 | completed options issue their expected requests and write their `Configuring` lines, each option once and in option order |
| FleetOrchestration.NodeStep | manageSearchHeads.py:47-53 | a completed node logged in and then configured its options with that key, after the key line |
| FleetOrchestration.NodeComplete | manageSearchHeads.py:47-53 | a completed node issues its login, then its endpoint requests; its INFO lines are the key line, then one `Configuring` line per option in order |
| FleetOrchestration.FleetStep | manageSearchHeads.py:46 | a completed fleet is its first node followed by the rest |
| FleetOrchestration.SessionKeys | manageSearchHeads.py:46-49 | one key per section: the key read from the answer to that section's login |
| FleetOrchestration.FleetComplete | manageSearchHeads.py:46-53 | for a completed fleet, with `SessionKeys` the key each login returned: its requests are the nodes' expected requests in section order, and its INFO lines are each node's key line and `Configuring` lines in order |
| FleetOrchestration.FleetStepShows | manageSearchHeads.py:46-53 | a node's contribution followed by the rest of the fleet's is the whole fleet's |
| FleetOrchestration.OneLoginPerNode | manageSearchHeads.py:46-53 | the requests without a session key in a completed fleet are exactly one login per node, in section order |
| FleetOrchestration.EndpointCompletes | manageSearchHeads.py:59-80 | when every request is answered, an endpoint file completes if it is not a user file, or is one with a UserList whose entries all parse, whatever HTTP errors come back |
| FleetOrchestration.EndpointsCompletes | manageSearchHeads.py:52-53 | under the same conditions, a node's endpoint files all complete, in option order |
| FleetOrchestration.NodeCompletes | manageSearchHeads.py:47-53 | when in addition every login answer holds a session key, a node completes |
| FleetOrchestration.FleetCompletes | manageSearchHeads.py:46-53 | when every request is answered, every login gives a key and every endpoint file is runnable, the run over the whole fleet completes |
| FleetOrchestration.FleetLoginsAlways | manageSearchHeads.py:46-53 | under those conditions, a fleet of N sections issues exactly N requests without an Authorization header, its logins in section order, whatever HTTP errors the other requests get |

## Left out

- Transport: urllib2, HTTPS, reading and closing the response (lines 157-160). This is foreign I/O, replaced by the `Network` oracle. The history passed to the oracle lets answers depend on earlier requests.
- ConfigParser (lines 42-43, 62-63). The fleet and endpoint files arrive parsed. Not modelled: the `DEFAULT` section, value interpolation, lower-casing of option names, and the order of sections and options, which the model takes to be file order.
- minidom (line 134): `ExtractSessionKey` is an abstraction of `getElementsByTagName('sessionKey')[0].childNodes[0].nodeValue`.
  - It reads the text after the first `<sessionKey>` tag, up to the next `<`.
  - XML entities, attributes on the tag, CDATA, comments, the `<sessionKey/>` form and malformed XML (which makes minidom raise) are not modelled.
  - An empty or unterminated element gives no key, as minidom's `childNodes[0]` would fail on an empty element.
- `urlencode` (lines 103, 132): a form body is modelled as its dictionary. Percent-encoding and parameter order are not modelled.
- writeLog (lines 34-35): only `(state, message)` is kept. The timestamp, host name and transaction id, which come from the clock, the environment and randomness, are left out, along with the print format. The model logs the session key as it was read. The script would instead fail at `str(message)` on a non-ASCII key, since minidom returns the key as unicode (lines 35, 49).
- The hardcoded credentials (lines 28-29) become a `Credentials` parameter.
- The main block (lines 166-178): `sys.argv`, the default file name and the BEGIN/END lines are process plumbing.
- `add_header` capitalises header names. The only name used, `Authorization`, is already capitalised, so it is stored as is.
- Python exceptions other than the ones named are not modelled: an `IndexError` on an entry becomes `MalformedEntry`, a missing `UserList` becomes `MissingUserList`, a failed login becomes `LoginFailed` or `NoSessionKey`, and a `URLError` becomes `TransportFailure`.
- Nothing runs in parallel in the script, so the model is sequential.
