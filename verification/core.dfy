/**
 * The transport of the client (package `core`): a base URL with the query and
 * fragment removed, the API key and password, and `ConsumeAPI`, which adds the
 * credentials to the request parameters and issues one GET or POST.
 */
module Core {
  import opened Wrappers
  import opened Text
  import opened Http

  /** The HTTP methods `ConsumeAPI` accepts; any other string is refused. */
  type ConsumeMethod = string
  const MethodGet: ConsumeMethod := "GET"
  const MethodPost: ConsumeMethod := "POST"

  /** The product lines of the remote API. */
  type Module = string
  const ModuleSms: Module := "SMS"
  const ModuleEmail: Module := "EMAIL"
  const ModuleWhatsapp: Module := "WA"

  /** The characters `baseUrl` strips from the end of the URL string. */
  const BaseUrlCutset: set<char> := {'/', '?', '#'}

  /** The components of a parsed `url.URL`. `user` is the already formatted
      user information, empty when there is none, so user information that is
      present but empty (`http://@h/x`) cannot be told apart from none; `path`
      is the escaped path. */
  datatype Url = Url(
    scheme: string,
    opaquePart: string,
    user: string,
    host: string,
    path: string,
    forceQuery: bool,
    rawQuery: string,
    fragment: string,
    rawFragment: string)

  /** `scheme:` when there is a scheme. */
  function SchemePart(u: Url): string
  {
    if u.scheme != "" then u.scheme + ":" else ""
  }

  /** `//user@host`, written when there is a scheme, a host or user information. */
  function AuthorityPart(u: Url): string
  {
    if u.scheme != "" || u.host != "" || u.user != "" then
      (if u.host != "" || u.path != "" || u.user != "" then "//" else "")
      + (if u.user != "" then u.user + "@" else "")
      + u.host
    else ""
  }

  /** The path, with a slash put between a host and a relative path. */
  function PathPart(u: Url): string
  {
    (if u.path != "" && u.path[0] != '/' && u.host != "" then "/" else "") + u.path
  }

  /** Scheme, authority and path of `URL.String()`; an opaque URL has its
      opaque part in place of authority and path. */
  function Head(u: Url): string
  {
    SchemePart(u) + if u.opaquePart != "" then u.opaquePart else AuthorityPart(u) + PathPart(u)
  }

  /** `URL.String()`: the head, then `?` and the query when there is a query
      or `ForceQuery` is set, then `#` and the fragment when there is one. */
  function UrlString(u: Url): (r: string)
    ensures |Head(u)| <= |r| && r[..|Head(u)|] == Head(u)
    ensures r == Head(u) <==> !u.forceQuery && u.rawQuery == "" && u.fragment == ""
    ensures !u.forceQuery && u.rawQuery == "" && u.fragment != "" ==> r[|Head(u)|] == '#'
    ensures (u.forceQuery || u.rawQuery != "") ==> r[|Head(u)|] == '?'
  {
    Head(u)
    + (if u.forceQuery || u.rawQuery != "" then "?" + u.rawQuery else "")
    + (if u.fragment != "" then "#" + (if u.rawFragment != "" then u.rawFragment else u.fragment) else "")
  }

  /** The transport: base URL and credentials, never changed after `New`. */
  datatype Core = Core(url: Url, key: string, pass: string)

  datatype CoreError =
    | InvalidUrl(reason: string)
    | MethodNotAllowed
    | TransportFailure(reason: string)

  /** The text of each error: the errors of URL parsing and of the transport
      are passed on as they are. */
  function Message(e: CoreError): (r: string)
    ensures e.MethodNotAllowed? ==> r == "method not allowed"
    ensures !e.MethodNotAllowed? ==> r == e.reason
  {
    match e
    case InvalidUrl(reason) => reason
    case MethodNotAllowed => "method not allowed"
    case TransportFailure(reason) => reason
  }

  /** One delivery report of the JSON reply (`data[i]`). */
  datatype MessageResult = MessageResult(id: string, status: string, message: string, destination: string)

  /** The decoded JSON reply of the API. */
  datatype Response = Response(code: int, message: string, count: int, results: seq<MessageResult>, hasErrors: bool)

  /** `u` is `parsed` with the query and the fragment blanked and every other
      component as it was. */
  predicate StripsQueryAndFragment(parsed: Url, u: Url)
  {
    && u.rawQuery == "" && u.rawFragment == "" && u.fragment == ""
    && u.scheme == parsed.scheme && u.opaquePart == parsed.opaquePart && u.user == parsed.user
    && u.host == parsed.host && u.path == parsed.path && u.forceQuery == parsed.forceQuery
  }

  /** `New`: the outcome of `url.Parse(hosturl)` is the parameter `parsed`.
      A parse error is returned as it is; otherwise the query and fragment of
      the parsed URL are cleared and the credentials stored. */
  method New(parsed: Result<Url, string>, apikey: string, password: string) returns (r: Result<Core, CoreError>)
    ensures parsed.Err? ==> r == Err(InvalidUrl(parsed.error))
    ensures parsed.Ok? ==> r.Ok? && StripsQueryAndFragment(parsed.value, r.value.url)
    ensures parsed.Ok? ==> r.value.key == apikey && r.value.pass == password
  {
    if parsed.Err? {
      return Err(InvalidUrl(parsed.error));
    }
    var u := parsed.value;
    u := u.(rawQuery := "");
    u := u.(rawFragment := "");
    u := u.(fragment := "");
    return Ok(Core(u, apikey, password));
  }

  /** `baseUrl`: the URL string with trailing `/`, `?` and `#` removed. The
      result is a prefix of the URL string, only those characters were cut,
      and it does not end in one of them. */
  function BaseUrl(c: Core): (r: string)
    ensures |r| <= |UrlString(c.url)| && r == UrlString(c.url)[..|r|]
    ensures forall i :: |r| <= i < |UrlString(c.url)| ==> UrlString(c.url)[i] in BaseUrlCutset
    ensures r == [] || r[|r| - 1] !in BaseUrlCutset
  {
    TrimRight(UrlString(c.url), BaseUrlCutset)
  }

  /** Trimming the base URL again changes nothing. */
  lemma BaseUrlIsTrimmed(c: Core)
    ensures TrimRight(BaseUrl(c), BaseUrlCutset) == BaseUrl(c)
  {
    TrimRightIdempotent(UrlString(c.url), BaseUrlCutset);
  }

  /** After `New`, the base URL is the trimmed scheme, authority and path of the
      parsed URL: its query, fragment and `ForceQuery` flag leave no trace. */
  lemma {:induction false} BaseUrlIgnoresQueryAndFragment(parsed: Url, c: Core)
    requires StripsQueryAndFragment(parsed, c.url)
    ensures BaseUrl(c) == TrimRight(Head(parsed), BaseUrlCutset)
  {
    var h := Head(c.url);
    assert h == Head(parsed);
    if c.url.forceQuery {
      var s := UrlString(c.url);
      assert s == h + "?";
      assert s[..|s| - 1] == h;
    } else {
      assert UrlString(c.url) == h;
    }
  }

  /** What `url.Parse` makes of `https://api.example.com/v1?x=1#frag`. */
  const ExampleUrl: Url := Url("https", "", "", "api.example.com", "/v1", false, "x=1", "frag", "")

  /** The string `https://api.example.com/v1`, as scheme, authority and path. */
  const ExampleBase: string := "https" + ":" + ("//" + "api.example.com") + "/v1"

  lemma ExampleHead()
    ensures Head(ExampleUrl) == ExampleBase
  {
  }

  /** `https://api.example.com/v1?x=1#frag` gives the base URL
      `https://api.example.com/v1`. */
  lemma BaseUrlExample(c: Core)
    requires StripsQueryAndFragment(ExampleUrl, c.url)
    ensures BaseUrl(c) == ExampleBase
  {
    ExampleHead();
    BaseUrlIgnoresQueryAndFragment(ExampleUrl, c);
    TrimRightKeeps(ExampleBase, BaseUrlCutset);
  }

  /** The two parameters `ConsumeAPI` adds, in this order. */
  function Credentials(c: Core): seq<Pair>
  {
    [("api_key", c.key), ("api_pass", c.pass)]
  }

  /** A transport error message becomes a `TransportFailure`. */
  function FromNetwork(res: Result<Reply, string>): Result<Reply, CoreError>
  {
    match res
    case Ok(reply) => Ok(reply)
    case Err(reason) => Err(TransportFailure(reason))
  }

  /** `ConsumeAPI`: adds `api_key` and `api_pass` to the caller's `data` in place
      (whatever the method), then issues a GET with the parameters in the query
      or a POST with them as the form; any other method is refused without a
      request. */
  method ConsumeAPI(c: Core, httpMethod: ConsumeMethod, endpoint: string, data: Values, net: Network)
    returns (r: Result<Reply, CoreError>)
    modifies data, net
    ensures data.pairs == old(data.pairs) + Credentials(c)
    ensures httpMethod == MethodGet ==>
      var req := Get(BaseUrl(c) + "/" + endpoint, data.pairs);
      net.sent == old(net.sent) + [req] && r == FromNetwork(net.respond(req))
    ensures httpMethod == MethodPost ==>
      var req := PostForm(BaseUrl(c) + "/" + endpoint, data.pairs);
      net.sent == old(net.sent) + [req] && r == FromNetwork(net.respond(req))
    ensures httpMethod != MethodGet && httpMethod != MethodPost ==>
      r == Err(MethodNotAllowed) && net.sent == old(net.sent)
  {
    var urlPath := BaseUrl(c) + "/" + endpoint;
    data.Add("api_key", c.key);
    data.Add("api_pass", c.pass);

    if httpMethod == MethodGet {
      var res := net.Do(Get(urlPath, data.pairs));
      return FromNetwork(res);
    } else if httpMethod == MethodPost {
      var res := net.Do(PostForm(urlPath, data.pairs));
      return FromNetwork(res);
    }
    return Err(MethodNotAllowed);
  }
}
