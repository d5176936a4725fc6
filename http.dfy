/**
 * The HTTP side of the manager (manageSearchHeads.py): URL construction and
 * the request object that `callRestEndpoint` builds and then mutates before
 * handing it to the transport.
 */
module Http {
  import opened Wrappers
  import opened Strings

  /** The HTTP methods a request can go out with. */
  datatype Verb = GET | POST | DELETE

  /** A form body: the dictionary passed to `urlencode`. */
  type Form = map<string, string>

  /** One request exactly as the transport receives it. */
  datatype Sent = Sent(verb: Verb, url: string, body: Option<Form>, headers: map<string, string>)

  const Scheme := "https://"
  const LoginPath := "/services/auth/login"
  const UsersPath := "/services/authentication/users"
  const AuthHeader := "Authorization"
  const AuthPrefix := "Splunk "

  /** `buildUrl`: the scheme, the node's host:port and the path, concatenated. */
  function BuildUrl(host: string, path: string): (url: string)
    ensures |url| == |Scheme| + |host| + |path|
    ensures url[..|Scheme|] == Scheme
    ensures url[|Scheme|..|Scheme| + |host|] == host
    ensures url[|Scheme| + |host|..] == path
  {
    Scheme + host + path
  }

  /** Inverse of `BuildUrl`: strip the scheme, then cut at the first `/`. */
  function ParseUrl(url: string): Option<(string, string)>
  {
    if |url| < |Scheme| || url[..|Scheme|] != Scheme then None
    else
      var rest := url[|Scheme|..];
      var k := IndexOf(rest, '/');
      Some((rest[..k], rest[k..]))
  }

  /**
   * A host:port without a scheme or a slash, and an absolute path, are
   * recovered from the URL built from them.
   */
  lemma UrlRoundTrip(host: string, path: string)
    requires '/' !in host
    requires path == [] || path[0] == '/'
    ensures ParseUrl(BuildUrl(host, path)) == Some((host, path))
  {
    var url := BuildUrl(host, path);
    assert url[..|Scheme|] == Scheme;
    var rest := url[|Scheme|..];
    assert rest == host + path;
    assert rest[..|host|] == host;
    IndexOfIs(rest, '/', |host|);
    assert rest[|host|..] == path;
  }

  /** Hence distinct (node, path) pairs never share a URL. */
  lemma UrlInjective(h1: string, p1: string, h2: string, p2: string)
    requires '/' !in h1 && '/' !in h2
    requires (p1 == [] || p1[0] == '/') && (p2 == [] || p2[0] == '/')
    ensures BuildUrl(h1, p1) == BuildUrl(h2, p2) <==> h1 == h2 && p1 == p2
  {
    UrlRoundTrip(h1, p1);
    UrlRoundTrip(h2, p2);
  }

  /**
   * The request `callRestEndpoint` prepares: the Authorization header is
   * present exactly when a session key is passed, the method is DELETE when
   * asked for, and otherwise POST with a body and GET without one.
   */
  function RequestFor(url: string, data: Option<Form>, key: Option<string>, delete: bool): (s: Sent)
    ensures s.url == url && s.body == data
    ensures AuthHeader in s.headers <==> key.Some?
    ensures key.Some? ==> s.headers[AuthHeader] == AuthPrefix + key.value
    ensures s.headers.Keys <= {AuthHeader}
    ensures s.verb == DELETE <==> delete
    ensures s.verb == POST <==> !delete && data.Some?
  {
    var headers := if key.Some? then map[AuthHeader := AuthPrefix + key.value] else map[];
    Sent(if delete then DELETE else if data.Some? then POST else GET, url, data, headers)
  }

  /** urllib2's mutable request object. */
  class Request {
    const url: string
    const data: Option<Form>
    var headers: map<string, string>
    var methodOverride: Option<Verb>

    constructor (url: string, data: Option<Form>)
      ensures this.url == url && this.data == data
      ensures headers == map[] && methodOverride == None
    {
      this.url := url;
      this.data := data;
      headers := map[];
      methodOverride := None;
    }

    /** `get_method`: an installed override wins; else POST with a body, GET without. */
    function Method(): Verb
      reads this
    {
      match methodOverride
      case Some(v) => v
      case None => if data.Some? then POST else GET
    }

    /** `add_header` (the only header name used, Authorization, is already capitalised). */
    method AddHeader(name: string, value: string)
      modifies this
      ensures headers == old(headers)[name := value]
      ensures methodOverride == old(methodOverride)
    {
      headers := headers[name := value];
    }

    /** Replacing `get_method` by a constant function. */
    method OverrideMethod(v: Verb)
      modifies this
      ensures methodOverride == Some(v)
      ensures headers == old(headers)
    {
      methodOverride := Some(v);
    }

    /** What the transport sees when the request is opened. */
    function Snapshot(): Sent
      reads this
    {
      Sent(Method(), url, data, headers)
    }
  }
}
