/** The transport side of the client: the outgoing request, the raw response,
    the classification of a response by its status (`doRawRequest`) and the
    soft JSON decoding of its body (`doRequest`), client.go:292-330. */
module Http {
  import opened Json
  import opened Wrappers

  type Bytes = seq<bv8>

  /** A URL as the URL parser sees it: everything but the query, and the query
      as a map from parameter name to value. */
  datatype Url = Url(location: string, query: map<string, string>)

  /** The library functions and the environment that the client calls but that
      are not part of this model, given as values:
      `GetApiBaseURL()`; `fmt.Sprintf` with string arguments; `path.Join`;
      `url.Parse` followed by `Query()`; setting `RawQuery` to `Encode()` of a
      query and calling `String()`; `url.Values.Encode`; `json.Unmarshal`
      into an `interface{}`; `json.Marshal`. */
  datatype Env = Env(
    apiBase: string,
    sprintf: (string, seq<string>) -> string,
    joinPath: seq<string> -> string,
    parseUrl: string -> Option<Url>,
    formatUrl: Url -> string,
    encodeQuery: map<string, string> -> string,
    parseJson: Bytes -> Option<Json>,
    encodeJson: Json -> string)

  const CONTENT_TYPE_JSON := "application/json"

  /** The value of the `Authorization` header: basic auth (its Base64 encoding is
      not modelled), an OAuth2 token of some type, or a bearer token. */
  datatype Authorization =
    | Basic(user: string, password: string)
    | Token(tokenType: string, accessToken: string)
    | Bearer(token: string)

  /** What the transport sees of a request: method, URL, body text and the two
      headers the client sets. */
  datatype RequestValue = RequestValue(
    verb: string,
    url: string,
    body: string,
    contentType: Option<string>,
    authorization: Option<Authorization>)

  /** An outgoing request (`*http.Request`); the client sets its headers in place. */
  class Request {
    const verb: string
    const url: string
    const body: string
    var contentType: Option<string>
    var authorization: Option<Authorization>

    constructor (verb: string, url: string, body: string)
      ensures this.verb == verb && this.url == url && this.body == body
      ensures contentType == None && authorization == None
    {
      this.verb := verb;
      this.url := url;
      this.body := body;
      contentType := None;
      authorization := None;
    }

    function Value(): RequestValue
      reads this
    {
      RequestValue(verb, url, body, contentType, authorization)
    }
  }

  /** `http.NewRequest`: fails exactly when the URL does not parse. */
  method NewRequest(env: Env, verb: string, url: string, body: string) returns (r: Result<Request>)
    ensures r.Err? <==> env.parseUrl(url).None?
    ensures r.Err? ==> r.error == BadUrl(url)
    ensures r.Ok? ==> fresh(r.value) && r.value.Value() == RequestValue(verb, url, body, None, None)
  {
    if env.parseUrl(url).None? {
      return Err(BadUrl(url));
    }
    var req := new Request(verb, url, body);
    return Ok(req);
  }

  /** A response as the transport delivers it: the status code, the status
      line, and the body if there is one. */
  datatype Response = Response(statusCode: int, status: string, body: Option<Bytes>)

  const STATUS_OK := 200
  const STATUS_CREATED := 201

  predicate IsAccepted(statusCode: int)
  {
    statusCode == STATUS_OK || statusCode == STATUS_CREATED
  }

  /** `doRawRequest` applied to what the transport returned. */
  function DoRawRequest(sent: Result<Response>, emptyResponse: bool): (r: Result<Bytes>)
    // a transport failure is passed on
    ensures sent.Err? ==> r == Err(sent.error)
    // the status is checked first: whatever the flag and the body, an unaccepted status is an error carrying the status text
    ensures sent.Ok? && !IsAccepted(sent.value.statusCode) ==> r == Err(Status(sent.value.status))
    // an accepted status with the empty-response flag yields no bytes and no error, even without a body
    ensures sent.Ok? && IsAccepted(sent.value.statusCode) && emptyResponse ==> r == Ok([])
    // a missing body is an error only where bytes are expected
    ensures sent.Ok? ==>
      (r == Err(NilBody) <==> IsAccepted(sent.value.statusCode) && !emptyResponse && sent.value.body.None?)
    // otherwise the body's bytes are returned as they are
    ensures sent.Ok? && IsAccepted(sent.value.statusCode) && !emptyResponse && sent.value.body.Some? ==>
      r == Ok(sent.value.body.value)
    ensures r.Ok? && !emptyResponse ==> sent.Ok? && sent.value.body == Some(r.value)
  {
    match sent
    case Err(e) => Err(e)
    case Ok(resp) =>
      if !IsAccepted(resp.statusCode) then Err(Status(resp.status))
      else if emptyResponse then Ok([])
      else if resp.body.None? then Err(NilBody)
      else Ok(resp.body.value)
  }

  /** What `doRequest` returns: an error with no value, the raw bytes together
      with the error when they are not JSON, or the decoded value. */
  datatype Reply =
    | Failed(error: Error)
    | Fallback(raw: Bytes, error: Error)
    | Decoded(value: Json)

  /** `doRequest`: the raw exchange, then a soft attempt at decoding JSON. */
  function DoRequest(env: Env, sent: Result<Response>, emptyResponse: bool): (r: Reply)
    ensures DoRawRequest(sent, emptyResponse).Err? ==> r == Failed(DoRawRequest(sent, emptyResponse).error)
    // bytes that are not JSON come back unchanged, beside the decoding error
    ensures r.Fallback? <==>
      DoRawRequest(sent, emptyResponse).Ok? && env.parseJson(DoRawRequest(sent, emptyResponse).value).None?
    ensures r.Fallback? ==> r.raw == DoRawRequest(sent, emptyResponse).value && r.error == BadJson
    ensures r.Decoded? ==>
      DoRawRequest(sent, emptyResponse).Ok? && env.parseJson(DoRawRequest(sent, emptyResponse).value) == Some(r.value)
    ensures DoRawRequest(sent, emptyResponse).Ok? && env.parseJson(DoRawRequest(sent, emptyResponse).value).Some? ==>
      r == Decoded(env.parseJson(DoRawRequest(sent, emptyResponse).value).value)
  {
    match DoRawRequest(sent, emptyResponse)
    case Err(e) => Failed(e)
    case Ok(bytes) =>
      match env.parseJson(bytes)
      case None => Fallback(bytes, BadJson)
      case Some(v) => Decoded(v)
  }
}
