/** The small rules around `execute` and `executeRaw`: which URL is
    requested, which headers a request carries, and how a response that is
    not a usable JSON value fails the round trip. */
module ClientRules {
  import opened Json
  import opened Wrappers
  import opened Text
  import opened Http
  import opened Client

  /** The URL functions agree: a rendered URL parses back to itself. */
  ghost predicate Reparses(env: Env)
  {
    forall u :: env.parseUrl(env.formatUrl(u)) == Some(u)
  }

  // ------------------------------------------------------------ the pagelen rule

  /** With a page length other than the default, a repository URL is
      requested with `pagelen` set to that length, written in decimal, and
      with every other part of the URL as it was. */
  lemma PagelenRewritten(c: Client, env: Env, url: string, u: Url)
    requires Reparses(env)
    requires Contains(url, REPOSITORIES_SEGMENT) && c.pagelen != DEFAULT_PAGE_LENGTH
    requires env.parseUrl(url) == Some(u)
    ensures ExecuteUrl(c, env, url).Ok?
    ensures env.parseUrl(ExecuteUrl(c, env, url).value) == Some(Url(u.location, u.query["pagelen" := Decimal(c.pagelen)]))
  {
  }

  /** Clients with different page lengths request different URLs: the
      rendered length determines the length. */
  lemma DistinctLengthsDistinctUrls(c1: Client, c2: Client, env: Env, url: string, u: Url)
    requires Reparses(env)
    requires Contains(url, REPOSITORIES_SEGMENT)
    requires c1.pagelen != DEFAULT_PAGE_LENGTH && c2.pagelen != DEFAULT_PAGE_LENGTH && c1.pagelen != c2.pagelen
    requires env.parseUrl(url) == Some(u)
    ensures ExecuteUrl(c1, env, url).Ok? && ExecuteUrl(c2, env, url).Ok?
    ensures ExecuteUrl(c1, env, url).value != ExecuteUrl(c2, env, url).value
  {
    PagelenRewritten(c1, env, url, u);
    PagelenRewritten(c2, env, url, u);
    if ExecuteUrl(c1, env, url).value == ExecuteUrl(c2, env, url).value {
      var q1 := u.query["pagelen" := Decimal(c1.pagelen)];
      var q2 := u.query["pagelen" := Decimal(c2.pagelen)];
      assert Url(u.location, q1) == Url(u.location, q2);
      assert q1["pagelen"] == q2["pagelen"];
      DecimalInjective(c1.pagelen, c2.pagelen);
    }
  }

  /** The URL is requested verbatim when it is not a repository URL or the
      page length is the default. */
  lemma PagelenKept(c: Client, env: Env, url: string)
    requires !Contains(url, REPOSITORIES_SEGMENT) || c.pagelen == DEFAULT_PAGE_LENGTH
    ensures ExecuteUrl(c, env, url) == Ok(url)
  {
  }

  /** A client as `injectClient` makes it never rewrites a URL in `execute`. */
  lemma DefaultClientKeepsUrls(a: Auth, transport: RequestValue -> Result<Response>, env: Env, url: string)
    ensures ExecuteUrl(InjectClient(a, transport), env, url) == Ok(url)
  {
  }

  /** Applying the rule to the URL it produced changes nothing: setting the
      same `pagelen` again leaves the query as it is. */
  lemma PagelenIdempotent(c: Client, env: Env, url: string)
    requires Reparses(env)
    requires ExecuteUrl(c, env, url).Ok?
    ensures ExecuteUrl(c, env, ExecuteUrl(c, env, url).value) == ExecuteUrl(c, env, url)
  {
    var once := ExecuteUrl(c, env, url).value;
    if Contains(url, REPOSITORIES_SEGMENT) && c.pagelen != DEFAULT_PAGE_LENGTH {
      var u := env.parseUrl(url).value;
      var u1 := u.(query := u.query["pagelen" := Decimal(c.pagelen)]);
      assert once == env.formatUrl(u1);
      assert env.parseUrl(once) == Some(u1);
      assert u1.(query := u1.query["pagelen" := Decimal(c.pagelen)]) == u1;
    }
  }

  /** `executeRaw` sets `pagelen` on every repository URL, to the client's
      page length whatever it is, replacing any `pagelen` the URL had. */
  lemma RawPagelenAlways(c: Client, env: Env, url: string, u: Url)
    requires Reparses(env)
    requires Contains(url, REPOSITORIES_SEGMENT)
    requires env.parseUrl(url) == Some(u)
    ensures ExecuteRawUrl(c, env, url).Ok?
    ensures env.parseUrl(ExecuteRawUrl(c, env, url).value) == Some(Url(u.location, u.query["pagelen" := Decimal(c.pagelen)]))
  {
  }

  /** A URL that is not a repository URL goes to `executeRaw` verbatim. */
  lemma RawPagelenKept(c: Client, env: Env, url: string)
    requires !Contains(url, REPOSITORIES_SEGMENT)
    ensures ExecuteRawUrl(c, env, url) == Ok(url)
  {
  }

  /** Every page `execute` requests, followed `next` URLs included, goes
      through the rule: the request for a page is built from the rewritten
      URL. */
  lemma PageRequestRewritten(c: Client, env: Env, verb: string, url: string, text: string, u: Url)
    requires Reparses(env)
    requires Contains(url, REPOSITORIES_SEGMENT) && c.pagelen != DEFAULT_PAGE_LENGTH
    requires env.parseUrl(url) == Some(u)
    ensures PageRequest(c, env, verb, url, text).Ok?
    ensures env.parseUrl(PageRequest(c, env, verb, url, text).value.url) == Some(Url(u.location, u.query["pagelen" := Decimal(c.pagelen)]))
  {
    PagelenRewritten(c, env, url, u);
  }

  // ------------------------------------------------------------------ headers

  /** The precedence of credentials: basic auth when user and password are
      both set; else a valid OAuth2 token; else the bearer token when set;
      else no `Authorization` header at all. */
  lemma AuthorizationPrecedence(a: Auth)
    ensures (a.user != "" && a.password != "") ==> AuthorizationFor(a) == Some(Basic(a.user, a.password))
    ensures !(a.user != "" && a.password != "") && a.token.Valid() ==>
      AuthorizationFor(a) == Some(Token(a.token.tokenType, a.token.accessToken))
    ensures !(a.user != "" && a.password != "") && !a.token.Valid() && a.bearerToken != "" ==>
      AuthorizationFor(a) == Some(Bearer(a.bearerToken))
    ensures AuthorizationFor(a).None? <==>
      !(a.user != "" && a.password != "") && !a.token.Valid() && a.bearerToken == ""
  {
  }

  /** A bearer token never wins over basic auth or a valid token, even when
      both are set. */
  lemma BearerLosesToOthers(a: Auth)
    requires a.bearerToken != ""
    requires (a.user != "" && a.password != "") || a.token.Valid()
    ensures AuthorizationFor(a).Some? && !AuthorizationFor(a).value.Bearer?
  {
  }

  /** `NewBasicAuth` authenticates with the user and password when both are
      given, and not at all otherwise; the page length is the default. */
  lemma BasicAuthClient(u: string, p: string, transport: RequestValue -> Result<Response>)
    ensures NewBasicAuth(u, p, transport).pagelen == DEFAULT_PAGE_LENGTH
    ensures AuthorizationFor(NewBasicAuth(u, p, transport).auth) == if u != "" && p != "" then Some(Basic(u, p)) else None
  {
  }

  /** `NewOAuthbearerToken` authenticates with the bearer token when it is
      given, and not at all otherwise; the page length is the default. */
  lemma BearerClient(t: string, transport: RequestValue -> Result<Response>)
    ensures NewOAuthbearerToken(t, transport).pagelen == DEFAULT_PAGE_LENGTH
    ensures AuthorizationFor(NewOAuthbearerToken(t, transport).auth) == if t != "" then Some(Bearer(t)) else None
  {
  }

  /** The JSON content type is set exactly when there is a body. */
  lemma ContentTypeIffBody(c: Client, env: Env, verb: string, url: string, text: string)
    requires PreparedRequest(c, env, verb, url, text).Ok?
    ensures PreparedRequest(c, env, verb, url, text).value.contentType == Some(CONTENT_TYPE_JSON) <==> text != ""
    ensures PreparedRequest(c, env, verb, url, text).value.contentType.None? <==> text == ""
    ensures PreparedRequest(c, env, verb, url, text).value.authorization == AuthorizationFor(c.auth)
  {
  }

  // ----------------------------------------------------------------- failures

  /** A status other than 200 and 201 fails both kinds of round trip with
      the status text; a 204 of a deletion is one of them. */
  lemma StatusFails(c: Client, env: Env, verb: string, url: string, text: string, resp: Response)
    requires PageRequest(c, env, verb, url, text).Ok?
    requires c.transport(PageRequest(c, env, verb, url, text).value) == Ok(resp)
    requires !IsAccepted(resp.statusCode)
    ensures Retrieve(c, env, verb, url, text) == Err(Status(resp.status))
  {
  }

  lemma RawStatusFails(c: Client, env: Env, verb: string, url: string, text: string, resp: Response)
    requires RawRequest(c, env, verb, url, text).Ok?
    requires c.transport(RawRequest(c, env, verb, url, text).value) == Ok(resp)
    requires !IsAccepted(resp.statusCode)
    ensures FetchRaw(c, env, verb, url, text) == Err(Status(resp.status))
  {
  }

  /** An accepted response without a body fails the round trip. */
  lemma BodilessFails(c: Client, env: Env, verb: string, url: string, text: string, resp: Response)
    requires PageRequest(c, env, verb, url, text).Ok?
    requires c.transport(PageRequest(c, env, verb, url, text).value) == Ok(resp)
    requires IsAccepted(resp.statusCode) && resp.body.None?
    ensures Retrieve(c, env, verb, url, text) == Err(NilBody)
  {
  }

  /** `execute` turns a body that is not JSON into an error and no value:
      the raw bytes that `doRequest` returns beside the error are dropped. */
  lemma UndecodableFails(c: Client, env: Env, verb: string, url: string, text: string, resp: Response)
    requires PageRequest(c, env, verb, url, text).Ok?
    requires c.transport(PageRequest(c, env, verb, url, text).value) == Ok(resp)
    requires IsAccepted(resp.statusCode) && resp.body.Some? && env.parseJson(resp.body.value).None?
    ensures DoRequest(env, Ok(resp), false) == Fallback(resp.body.value, BadJson)
    ensures Retrieve(c, env, verb, url, text) == Err(BadJson)
  {
  }

  /** An accepted JSON response is the round trip's value. */
  lemma DecodedServes(c: Client, env: Env, verb: string, url: string, text: string, resp: Response, v: Json)
    requires PageRequest(c, env, verb, url, text).Ok?
    requires c.transport(PageRequest(c, env, verb, url, text).value) == Ok(resp)
    requires IsAccepted(resp.statusCode) && resp.body.Some? && env.parseJson(resp.body.value) == Some(v)
    ensures Retrieve(c, env, verb, url, text) == Ok(v)
  {
  }
}
