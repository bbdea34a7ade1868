/** The request-execution and auto-pagination engine of client.go: the
    client's configuration, how a request is authenticated, the `pagelen`
    rule, and `execute`/`executeRaw`. */
module Client {
  import opened Json
  import opened Wrappers
  import opened Text
  import opened Http

  type Uint64 = x: int | 0 <= x < 0x1_0000_0000_0000_0000

  const DEFAULT_PAGE_LENGTH: Uint64 := 100

  /** The path segment that marks a request to a repository resource. */
  const REPOSITORIES_SEGMENT := "/repositories/"

  /** The pagination metadata that a merge removes. */
  const METADATA: set<string> := {"page", "pagelen", "size"}

  /** An OAuth2 token; whether it has expired depends on the clock and is
      given as a flag. */
  datatype OAuthToken = OAuthToken(accessToken: string, tokenType: string, expired: bool) {
    /** `oauth2.Token.Valid`. */
    predicate Valid() {
      accessToken != "" && !expired
    }
  }

  const NO_TOKEN := OAuthToken("", "", false)

  /** The credentials a client holds. */
  datatype Auth = Auth(user: string, password: string, token: OAuthToken, bearerToken: string)

  /** A client: its credentials, its page length, and the HTTP transport
      (`HttpClient.Do`) as a function from the request sent to the response
      or the network error. No operation of the core changes a client. */
  datatype Client = Client(auth: Auth, pagelen: Uint64, transport: RequestValue -> Result<Response>)

  /** `injectClient`: the page length starts at the default. */
  function InjectClient(a: Auth, transport: RequestValue -> Result<Response>): (c: Client)
    ensures c.auth == a && c.pagelen == DEFAULT_PAGE_LENGTH
  {
    Client(a, DEFAULT_PAGE_LENGTH, transport)
  }

  /** `NewBasicAuth`. */
  function NewBasicAuth(u: string, p: string, transport: RequestValue -> Result<Response>): Client
  {
    InjectClient(Auth(u, p, NO_TOKEN, ""), transport)
  }

  /** `NewOAuthbearerToken`. */
  function NewOAuthbearerToken(t: string, transport: RequestValue -> Result<Response>): Client
  {
    InjectClient(Auth("", "", NO_TOKEN, t), transport)
  }

  /** The `Authorization` header a request ends up with, by precedence: basic
      auth when both user and password are set, else a valid OAuth2 token,
      else a bearer token, else none. */
  function AuthorizationFor(a: Auth): Option<Authorization>
  {
    if a.user != "" && a.password != "" then Some(Basic(a.user, a.password))
    else if a.token.Valid() then Some(Token(a.token.tokenType, a.token.accessToken))
    else if a.bearerToken != "" then Some(Bearer(a.bearerToken))
    else None
  }

  /** `authenticateRequest`: each credential that applies writes the same
      header, the later writes overwriting the earlier. */
  method AuthenticateRequest(c: Client, req: Request)
    modifies req
    ensures req.contentType == old(req.contentType)
    ensures req.authorization ==
      if AuthorizationFor(c.auth).Some? then AuthorizationFor(c.auth) else old(req.authorization)
  {
    if c.auth.bearerToken != "" {
      req.authorization := Some(Bearer(c.auth.bearerToken));
    }
    if c.auth.user != "" && c.auth.password != "" {
      req.authorization := Some(Basic(c.auth.user, c.auth.password));
    } else if c.auth.token.Valid() {
      req.authorization := Some(Token(c.auth.token.tokenType, c.auth.token.accessToken));
    }
  }

  /** `requestUrl`: the API base followed by the path formatted from
      `template` and `args`; a single empty argument leaves the template as
      it is. */
  function RequestUrl(env: Env, template: string, args: seq<string>): (url: string)
    ensures IsPrefix(env.apiBase, url)
    ensures |args| == 1 && args[0] == "" ==> url == env.apiBase + template
  {
    if |args| == 1 && args[0] == "" then env.apiBase + template
    else env.apiBase + env.sprintf(template, args)
  }

  /** Parse `url`, set one query parameter (replacing any value it had) and
      render the URL again. */
  function SetQueryParam(env: Env, url: string, key: string, value: string): (r: Result<string>)
    ensures r.Err? <==> env.parseUrl(url).None?
    ensures r.Err? ==> r.error == BadUrl(url)
    ensures r.Ok? ==> exists u :: env.parseUrl(url) == Some(u) && r.value == env.formatUrl(u.(query := u.query[key := value]))
  {
    match env.parseUrl(url)
    case None => Err(BadUrl(url))
    case Some(u) => Ok(env.formatUrl(u.(query := u.query[key := value])))
  }

  /** The URL `execute` requests: `pagelen` is rewritten only on a repository
      URL, and only when the client's page length is not the default. */
  function ExecuteUrl(c: Client, env: Env, url: string): Result<string>
  {
    if Contains(url, REPOSITORIES_SEGMENT) && c.pagelen != DEFAULT_PAGE_LENGTH then
      SetQueryParam(env, url, "pagelen", Decimal(c.pagelen))
    else
      Ok(url)
  }

  /** The URL `executeRaw` requests: `pagelen` is set on every repository URL,
      whatever the client's page length. */
  function ExecuteRawUrl(c: Client, env: Env, url: string): Result<string>
  {
    if Contains(url, REPOSITORIES_SEGMENT) then
      SetQueryParam(env, url, "pagelen", Decimal(c.pagelen))
    else
      Ok(url)
  }

  /** The request sent for `url` with body `text`: the JSON content type when
      there is a body, and the authorization the credentials call for. */
  function PreparedRequest(c: Client, env: Env, verb: string, url: string, text: string): Result<RequestValue>
  {
    if env.parseUrl(url).None? then Err(BadUrl(url))
    else Ok(RequestValue(verb, url, text, if text != "" then Some(CONTENT_TYPE_JSON) else None, AuthorizationFor(c.auth)))
  }

  /** Build the request as `execute` and `executeRaw` do: create it, set the
      content type when there is a body, then authenticate it. */
  method NewClientRequest(c: Client, env: Env, verb: string, url: string, text: string) returns (r: Result<Request>)
    ensures r.Err? <==> PreparedRequest(c, env, verb, url, text).Err?
    ensures r.Err? ==> r.error == PreparedRequest(c, env, verb, url, text).error
    ensures r.Ok? ==> fresh(r.value) && r.value.Value() == PreparedRequest(c, env, verb, url, text).value
  {
    var made := NewRequest(env, verb, url, text);
    if made.Err? {
      return Err(made.error);
    }
    var req := made.value;
    if text != "" {
      req.contentType := Some(CONTENT_TYPE_JSON);
    }
    AuthenticateRequest(c, req);
    return Ok(req);
  }

  /** The request `execute` sends for `url`: the URL after the `pagelen`
      rule, with the content type and the authorization. */
  function PageRequest(c: Client, env: Env, verb: string, url: string, text: string): Result<RequestValue>
  {
    var u :- ExecuteUrl(c, env, url);
    PreparedRequest(c, env, verb, u, text)
  }

  /** One round trip of `execute`, before pagination: the decoded value of
      the response, or the error; the raw bytes that come with a decoding
      error are dropped. */
  function Retrieve(c: Client, env: Env, verb: string, url: string, text: string): Result<Json>
  {
    var req :- PageRequest(c, env, verb, url, text);
    match DoRequest(env, c.transport(req), false)
    case Decoded(v) => Ok(v)
    case Failed(e) => Err(e)
    case Fallback(_, e) => Err(e)
  }

  /** What a decoded page calls for: nothing more, a run-time panic, or
      following `next`. */
  datatype Step =
    | Final
    | Broken(error: Error)
    | Follow(next: string, fields: map<string, Json>, values: seq<Json>)

  /** The autopagination test of `execute`. */
  function Continuation(page: Json): (s: Step)
    // a page is followed exactly when it is an object whose `next` is a non-empty string and whose `values` is a list
    ensures s.Follow? <==>
      page.Object? && Lookup(page.fields, "next").Str? && Lookup(page.fields, "next").s != ""
      && Lookup(page.fields, "values").List?
    ensures s.Follow? ==>
      s.fields == page.fields && Lookup(page.fields, "next") == Str(s.next) && Lookup(page.fields, "values") == List(s.values)
    // it is left as it is when it is not an object, when `next` or `values` is missing or null, or when `next` is ""
    ensures s.Final? <==>
      !page.Object? || Lookup(page.fields, "next").Null? || Lookup(page.fields, "values").Null?
      || Lookup(page.fields, "next") == Str("")
    // the type assertions panic on a `next` that is not a string, or (with non-empty `next`) a `values` that is not a list
    ensures s.Broken? ==> s.error.Panic?
  {
    if !page.Object? then Final
    else
      var nextIn := Lookup(page.fields, "next");
      var valuesIn := Lookup(page.fields, "values");
      if nextIn.Null? || valuesIn.Null? then Final
      else if !nextIn.Str? then Broken(Panic("next is not a string"))
      else if nextIn.s == "" then Final
      else if !valuesIn.List? then Broken(Panic("values is not a list"))
      else Follow(nextIn.s, page.fields, valuesIn.items)
  }

  /** The first page's fields after a merge: the metadata gone, `values`
      replaced, everything else as it was. */
  function Strip(fields: map<string, Json>): (m: map<string, Json>)
    ensures m.Keys == fields.Keys - METADATA
    ensures forall k | k in m :: m[k] == fields[k]
  {
    fields - METADATA
  }

  /** Merge the first page (`fields`, with list `values`) with the result of
      fetching its `next` page. */
  function Merge(fields: map<string, Json>, values: seq<Json>, rest: Result<Json>): (r: Result<Json>)
    // the error of the followed fetch is passed on unchanged
    ensures rest.Err? ==> r == rest
    ensures rest.Ok? && !rest.value.Object? ==> r == Err(NextNotMap)
    ensures rest.Ok? && rest.value.Object? && Lookup(rest.value.fields, "values").Null? ==> r == Err(NextHasNoValues)
    ensures (rest.Ok? && rest.value.Object? && !Lookup(rest.value.fields, "values").Null?
             && !Lookup(rest.value.fields, "values").List?) ==> r == Err(NextValuesNotList)
    ensures r.Ok? <==> rest.Ok? && rest.value.Object? && Lookup(rest.value.fields, "values").List?
    // a merged page: its values, then the followed page's, in order
    ensures r.Ok? ==>
      && r.value.Object?
      && Lookup(r.value.fields, "values") == List(values + Lookup(rest.value.fields, "values").items)
    // no metadata survives; every other key of the first page, `next` included, is unchanged
    ensures r.Ok? ==> r.value.fields.Keys == (fields.Keys + {"values"}) - METADATA
    ensures r.Ok? ==> forall k | k in fields && k !in METADATA && k != "values" :: r.value.fields[k] == fields[k]
  {
    match rest
    case Err(e) => Err(e)
    case Ok(nextResult) =>
      if !nextResult.Object? then Err(NextNotMap)
      else
        var nextValuesIn := Lookup(nextResult.fields, "values");
        if nextValuesIn.Null? then Err(NextHasNoValues)
        else if !nextValuesIn.List? then Err(NextValuesNotList)
        else Ok(Object(Strip(fields["values" := List(values + nextValuesIn.items)])))
  }

  /** The autopagination of `execute` over the round trip `retrieve`: the
      result of requesting `url` and following its pages. The recursion has
      no guard of its own, so the function counts the pages it may fetch in
      `fuel`; None means it ran out. */
  function Paginate(retrieve: string -> Result<Json>, url: string, fuel: nat): Option<Result<Json>>
    decreases fuel
  {
    if fuel == 0 then None
    else
      match retrieve(url)
      case Err(e) => Some(Err(e))
      case Ok(page) =>
        match Continuation(page)
        case Final => Some(Ok(page))
        case Broken(e) => Some(Err(e))
        case Follow(next, fields, values) =>
          match Paginate(retrieve, next, fuel - 1)
          case None => None
          case Some(rest) => Some(Merge(fields, values, rest))
  }

  /** `execute` as a function: its round trips with the same method and body,
      paginated. */
  function Fetch(c: Client, env: Env, verb: string, url: string, text: string, fuel: nat): Option<Result<Json>>
  {
    Paginate(u => Retrieve(c, env, verb, u, text), url, fuel)
  }

  /** `execute`: the page chain from `url` is finite (`fuel` bounds it and
      serves only as the termination measure), and the result is the one
      `Fetch` describes. */
  method Execute(c: Client, env: Env, verb: string, url: string, text: string, ghost fuel: nat)
    returns (r: Result<Json>)
    requires Fetch(c, env, verb, url, text, fuel).Some?
    ensures Fetch(c, env, verb, url, text, fuel) == Some(r)
    decreases fuel
  {
    var urlStr := url;
    if Contains(urlStr, REPOSITORIES_SEGMENT) {
      if c.pagelen != DEFAULT_PAGE_LENGTH {
        var parsed := env.parseUrl(urlStr);
        if parsed.None? {
          return Err(BadUrl(urlStr));
        }
        var q := parsed.value.query;
        q := q["pagelen" := Decimal(c.pagelen)];
        urlStr := env.formatUrl(parsed.value.(query := q));
      }
    }
    assert ExecuteUrl(c, env, url) == Ok(urlStr);

    var made := NewClientRequest(c, env, verb, urlStr, text);
    if made.Err? {
      return Err(made.error);
    }
    var req := made.value;
    var reply := DoRequest(env, c.transport(req.Value()), false);
    if !reply.Decoded? {
      return Err(reply.error);
    }

    // autopaginate
    var result := reply.value;
    assert Retrieve(c, env, verb, url, text) == Ok(result);
    if result.Object? {
      var resultMap := result.fields;
      var nextIn := Lookup(resultMap, "next");
      var valuesIn := Lookup(resultMap, "values");
      if !nextIn.Null? && !valuesIn.Null? {
        if !nextIn.Str? {
          return Err(Panic("next is not a string"));
        }
        var nextUrl := nextIn.s;
        if nextUrl != "" {
          if !valuesIn.List? {
            return Err(Panic("values is not a list"));
          }
          var valuesSlice := valuesIn.items;
          var nextResult := Execute(c, env, verb, nextUrl, text, fuel - 1);
          if nextResult.Err? {
            return Err(nextResult.error);
          }
          var nextResultMap := nextResult.value;
          if !nextResultMap.Object? {
            return Err(NextNotMap);
          }
          var nextValuesIn := Lookup(nextResultMap.fields, "values");
          if nextValuesIn.Null? {
            return Err(NextHasNoValues);
          }
          if !nextValuesIn.List? {
            return Err(NextValuesNotList);
          }
          valuesSlice := valuesSlice + nextValuesIn.items;
          resultMap := resultMap["values" := List(valuesSlice)];
          resultMap := resultMap - {"page"};
          resultMap := resultMap - {"pagelen"};
          resultMap := resultMap - {"size"};
          assert resultMap == Strip(result.fields["values" := List(valuesSlice)]);
          result := Object(resultMap);
        }
      }
    }
    return Ok(result);
  }

  /** The request `executeRaw` sends for `url`. */
  function RawRequest(c: Client, env: Env, verb: string, url: string, text: string): Result<RequestValue>
  {
    var u :- ExecuteRawUrl(c, env, url);
    PreparedRequest(c, env, verb, u, text)
  }

  /** `executeRaw` as a function: one round trip, the raw bytes or the error,
      no decoding and no pagination. */
  function FetchRaw(c: Client, env: Env, verb: string, url: string, text: string): Result<Bytes>
  {
    var req :- RawRequest(c, env, verb, url, text);
    DoRawRequest(c.transport(req), false)
  }

  /** `executeRaw`. */
  method ExecuteRaw(c: Client, env: Env, verb: string, url: string, text: string) returns (r: Result<Bytes>)
    ensures r == FetchRaw(c, env, verb, url, text)
  {
    var urlStr := url;
    if Contains(urlStr, REPOSITORIES_SEGMENT) {
      var parsed := env.parseUrl(urlStr);
      if parsed.None? {
        return Err(BadUrl(urlStr));
      }
      var q := parsed.value.query;
      q := q["pagelen" := Decimal(c.pagelen)];
      urlStr := env.formatUrl(parsed.value.(query := q));
    }
    assert ExecuteRawUrl(c, env, url) == Ok(urlStr);

    var made := NewClientRequest(c, env, verb, urlStr, text);
    if made.Err? {
      return Err(made.error);
    }
    var req := made.value;
    r := DoRawRequest(c.transport(req.Value()), false);
  }
}
