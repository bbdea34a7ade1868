# A verified model of the go-bitbucket client core

This project models the core of a Go client for the Bitbucket REST API. Two
source files make up that core:

- **client.go**: how a request is executed. That covers
  - the `pagelen` query rule;
  - how the request is authenticated;
  - how a response is classified by its status;
  - the soft JSON decoding;
  - the transparent pagination of `execute`, which follows `next` links and
    merges the pages' `values`.
- **repository.go**: the repository endpoints built on top. That covers
  - the request bodies and listing queries they build;
  - the decoders that turn a response into a typed entity or into the
    server's error envelope;
  - how each endpoint passes on the errors of `execute` and `executeRaw`.

The modules, in dependency order:

| file | module | contents |
|---|---|---|
| json.dfy | `Json` | the decoded JSON value; `Lookup` is Go's `m[k]`, where a missing key reads as null |
| wrappers.dfy | `Wrappers` | `Option`, `Result`, and the client's errors, with a run-time panic as `Error.Panic` |
| text.dfy | `Text` | `strings.Contains`, and decimal rendering (`strconv.FormatUint`, `strconv.Itoa`) |
| http.dfy | `Http` | the request, which is a class because its headers are set in place; the response; `doRawRequest`; `doRequest`; the foreign library functions, passed as values in `Env` |
| client.dfy | `Client` | the client and its credentials; `authenticateRequest`; the `pagelen` rule; `execute`; `executeRaw` |
| pagination.dfy | `Pagination` | what autopagination promises over any page chain |
| rules.dfy | `ClientRules` | the `pagelen` rule, header precedence and the failure cases, as lemmas |
| repository.dfy | `Repository` | entities, options, body and query builders, decoders, endpoints |

`execute` recurses on `next` with no guard of its own. The model splits it into three parts:

- `Client.Paginate` is the recursion over an abstract round trip `retrieve`. Its `fuel` counts the pages it may fetch, and `None` means the fuel ran out.
- `Client.Fetch` is `Paginate` over `Client.Retrieve`, the decoded round trip.
- `Client.Execute` is the imperative method. Like the Go code, it rewrites
  `urlStr`, updates `resultMap` and deletes the three metadata keys. Its
  postcondition is `Fetch(...) == Some(r)`. Its `fuel` is ghost and serves
  only as its termination measure.

The `Pagination` lemmas hold for every `retrieve`, so they hold for `execute`.

In these respects the model follows the code as written:

- The credential precedence is basic auth first, then a valid OAuth2 token, then the bearer token. The bearer header is written first and is overwritten by the later writes (`ClientRules.AuthorizationPrecedence`).
- The `pagelen` rule is applied to every followed `next` URL as well, because each page is a fresh call of `execute` (`ClientRules.PageRequestRewritten`).
- A merge keeps the first page's `next` (`Client.Merge`).
- A single page that is not followed comes back with its `page`, `pagelen` and `size` (`Pagination.UnpagedAsReceived`).
- A deletion answered with 204 is an error, because only 200 and 201 are accepted (`ClientRules.StatusFails`).
- `executeRaw` sets `pagelen` on every repository URL. The `pagelen` a listing's options ask for is therefore always replaced by the client's (`Repository.ListingPagelenOverridden`).

## Model

| member | source | states |
|---|---|---|
| Text.Contains | client.go:146 | true exactly when the substring occurs at some offset (`strings.Contains`) |
| Text.Decimal | client.go:152 | the rendering is non-empty, all digits, with no leading zero |
| Text.DecimalRoundTrip | client.go:180 | reading the rendering back gives the number |
| Text.DecimalInjective | client.go:180 | two numbers render alike only if they are equal; used to show that different page lengths request different URLs |
| Json.Lookup | client.go:205-206 | no contract of its own: Go's `m[k]` on a decoded object, where a missing key reads as nil; `Client.Continuation`, `Pagination.MissingValuesFails` and `Repository.BranchesIgnoreErrorEnvelope` state what a missing key leads to |
| Json.IsErrorEnvelope | repository.go:323 | no contract of its own: the `repoMap["type"] == "error"` test, repeated at repository.go:339, 402, 418 and 434; `Repository.EnvelopeFields` and every decoder contract are stated over it |
| Http.Request.constructor | client.go:188 | a new request has the given method, URL and body, with no content type and no authorization |
| Http.NewRequest | client.go:188-191 | fails with the URL exactly when it does not parse; otherwise a fresh request with no headers |
| Http.IsAccepted | client.go:317 | no contract of its own: the status is 200 or 201; `Http.DoRawRequest`, `ClientRules.StatusFails` and `RawStatusFails` are stated over it |
| Http.DoRawRequest | client.go:308-330 | a transport error passes through; any status other than 200 or 201 is an error with the status text, checked first; with `emptyResponse`, no bytes and no error; a missing body is an error exactly when bytes are expected; an accepted response with a body, when bytes are expected, gives exactly the body's bytes |
| Http.DoRequest | client.go:292-306 | an error of the raw exchange gives no value; bytes that are not JSON come back beside the decoding error; bytes that decode give exactly the decoded value |
| Client.InjectClient | client.go:124-141 | a new client holds the credentials, with page length 100 |
| Client.RequestUrl | client.go:332-338 | the URL starts with the API base; with a single empty argument it is the base followed by the template |
| Client.AuthenticateRequest | client.go:279-290 | the `Authorization` header ends up with the precedence of `AuthorizationFor`: basic auth, else a valid token, else the bearer token; with no credential it is left alone; the content type is untouched |
| Client.SetQueryParam | client.go:175-182 | fails with `BadUrl` exactly when the URL does not parse; otherwise the URL rendered with the one parameter replaced |
| Client.OAuthToken.Valid | client.go:286 | no contract of its own: `oauth2.Token.Valid`, a non-empty access token that has not expired; `Client.AuthorizationFor` and `ClientRules.AuthorizationPrecedence` are stated over it |
| Client.NewClientRequest | client.go:186-196 | the created request is the prepared one: JSON content type exactly when there is a body, and the authorization of the credentials |
| Client.PreparedRequest | client.go:186-194 | no contract of its own: the request for a URL and body, with the JSON content type when there is a body and the credentials' authorization; stated by `ClientRules.ContentTypeIffBody`, and `Client.NewClientRequest` is proved equal to it |
| Client.PageRequest | client.go:173-194 | no contract of its own: the request `execute` sends, built from the URL after its `pagelen` rule; stated by `ClientRules.PageRequestRewritten` |
| Client.RawRequest | client.go:146-164 | no contract of its own: the request `executeRaw` sends, built from the URL after its `pagelen` rule; its URL is stated by `ClientRules.RawPagelenAlways` and `RawPagelenKept`, and `Client.ExecuteRaw` is proved against it through `FetchRaw` |
| Client.Continuation | client.go:203-211 | a page is followed exactly when it is an object with a non-empty string `next` and a list `values`; it is kept as it is when it is not an object, when `next` or `values` is null, or when `next` is ""; otherwise it is a panic |
| Client.Strip | client.go:230-232 | removes `page`, `pagelen` and `size` and keeps every other entry |
| Client.Merge | client.go:212-233 | the error of the followed fetch passes through; a followed result that is not an object, has no `values`, or has `values` that is not a list is an error; otherwise the values are the page's followed by the next page's, no metadata remains, and every other key, `next` included, is unchanged |
| Client.NewBasicAuth | client.go:119-122 | no contract of its own: a client holding only the user and password, made by `InjectClient`; its header and page length are stated by `ClientRules.BasicAuthClient` |
| Client.NewOAuthbearerToken | client.go:114-117 | no contract of its own: a client holding only the bearer token, made by `InjectClient`; see `ClientRules.BearerClient` |
| Client.AuthorizationFor | client.go:279-290 | no contract of its own: the header that the overwriting writes leave, in precedence order; `Client.AuthenticateRequest` is proved against it and `ClientRules.AuthorizationPrecedence` states it |
| Client.ExecuteUrl | client.go:173-184 | no contract of its own: the `pagelen` rule of `execute`; stated by `ClientRules.PagelenRewritten`, `PagelenKept` and `PagelenIdempotent` |
| Client.ExecuteRawUrl | client.go:146-155 | no contract of its own: the `pagelen` rule of `executeRaw`; stated by `ClientRules.RawPagelenAlways` and `RawPagelenKept` |
| Client.Retrieve | client.go:186-200 | no contract of its own: one round trip of `execute` before pagination, with the raw bytes of a decoding failure dropped; stated by the `ClientRules` failure lemmas and `DecodedServes` |
| Client.Paginate | client.go:203-239 | no contract of its own: the autopagination recursion over any round trip, bounded by fuel; its promises are the `Pagination` lemmas |
| Client.Fetch | client.go:170-240 | no contract of its own: `Paginate` over `Retrieve`; `Client.Execute` is proved equal to it |
| Client.FetchRaw | client.go:143-168 | no contract of its own: one raw round trip after the `executeRaw` rule; `Client.ExecuteRaw` is proved equal to it |
| Client.Execute | client.go:170-240 | returns what `Fetch` describes: each page's round trip after the `pagelen` rule, paginated and merged |
| Client.ExecuteRaw | client.go:143-168 | returns what `FetchRaw` describes: one round trip after the unconditional `pagelen` rule, as raw bytes |
| Pagination.FuelIrrelevant | client.go:212 | once the fuel suffices, more fuel gives the same result |
| Pagination.UnpagedAsReceived | client.go:203-209 | a value that is not followed comes back exactly as received, metadata included |
| Pagination.RetrieveErrorSurfaces | client.go:197-200 | a failed round trip fails the fetch with the same error |
| Pagination.MalformedPagePanics | client.go:208-210 | a `next` that is not a string, or a `values` that is not a list when `next` is set, is a panic |
| Pagination.FollowStep | client.go:210-233 | a followed page's fetch is the merge of the page with the fetch of its `next` |
| Pagination.ChainTail | client.go:212 | the rest of a page chain is a page chain |
| Pagination.ChainMerges | client.go:207-233 | an N-page chain gives an object whose `values` is every page's values in page order; a single page is returned as it is; for several pages, no metadata remains and every other key of the first page is kept |
| Pagination.BrokenChainFails | client.go:212-227 | when the chain breaks after any number of pages, the whole fetch fails with the error raised at the break, and no partial value is returned |
| Pagination.MissingValuesFails | client.go:220-223 | a followed page without `values` fails the fetch with "no values" |
| ClientRules.PagelenRewritten | client.go:173-184 | with a page length other than 100, a repository URL is requested with `pagelen` set to it in decimal, and the rest of the URL kept |
| ClientRules.DistinctLengthsDistinctUrls | client.go:174-182 | two clients with different non-default page lengths request different URLs for the same repository URL |
| ClientRules.PagelenKept | client.go:173-174 | a URL that is not a repository URL, or a client at the default length, is requested verbatim |
| ClientRules.DefaultClientKeepsUrls | client.go:125 | a client fresh from `injectClient` never rewrites a URL in `execute` |
| ClientRules.PagelenIdempotent | client.go:180 | applying the rule to its own output changes nothing |
| ClientRules.RawPagelenAlways | client.go:146-155 | `executeRaw` sets `pagelen` on every repository URL to the client's length, replacing any value it had |
| ClientRules.RawPagelenKept | client.go:146 | `executeRaw` requests any other URL verbatim |
| ClientRules.PageRequestRewritten | client.go:173-196 | every page request, followed pages included, is built from the rewritten URL |
| ClientRules.AuthorizationPrecedence | client.go:279-290 | basic auth when user and password are both set; else a valid token; else the bearer token; no header exactly when none applies |
| ClientRules.BearerLosesToOthers | client.go:280-288 | a bearer token never wins over basic auth or a valid token |
| ClientRules.BasicAuthClient | client.go:119-122 | `NewBasicAuth` authenticates with basic auth exactly when both strings are set, at page length 100 |
| ClientRules.BearerClient | client.go:114-117 | `NewOAuthbearerToken` authenticates with the bearer token exactly when it is set, at page length 100 |
| ClientRules.ContentTypeIffBody | client.go:192-194 | the JSON content type is set exactly when the body text is non-empty |
| ClientRules.StatusFails | client.go:317-319 | a status other than 200 or 201 fails `execute`'s round trip with the status text |
| ClientRules.RawStatusFails | client.go:317-319 | the same holds for `executeRaw` |
| ClientRules.BodilessFails | client.go:325-327 | an accepted response with no body fails the round trip |
| ClientRules.UndecodableFails | client.go:197-200 | a body that is not JSON makes `doRequest` return the raw bytes with the error, and makes `execute` return only the error |
| ClientRules.DecodedServes | client.go:298-305 | an accepted JSON response is the round trip's value |
| Repository.BuildJsonBody | repository.go:235-244 | no contract of its own: the JSON text of a body, with marshalling as a function of the environment |
| Repository.PutIf | repository.go:250-252 | no contract of its own: one guarded insert, the key set only when its option is set; `Repository.FillStep` unfolds it |
| Repository.Fill | repository.go:248-278 | no contract of its own: the guarded inserts in order; stated by `Repository.FillStep`, `FilledEntry` and `FilledKeys`, and `Repository.RepositoryBody` is built with it |
| Repository.FillStep | repository.go:248-278 | one more guarded insert extends the body |
| Repository.FilledEntry | repository.go:248-278 | after guarded inserts with distinct keys, a key is present exactly when its option is set, and then holds the option's value |
| Repository.FilledKeys | repository.go:248-278 | guarded inserts add no key but their own |
| Repository.RepositoryBody | repository.go:246-281 | each of `scm`, `is_private`, `description`, `fork_policy`, `language`, `has_issues`, `has_wiki` and `project` is present exactly when its option is non-empty, with `project` nested as `{"key": ...}`; no other key appears |
| Repository.BuildRepositoryBody | repository.go:246-281 | the step-by-step body is that body's JSON text |
| Repository.PipelineBody | repository.go:283-290 | the body has exactly the key `enabled`, holding the flag |
| Repository.BuildPipelineBody | repository.go:283-290 | the step-by-step body is that body's JSON text |
| Repository.PipelineVariableBody | repository.go:292-304 | `key`, `value` and `secured` are always present; `uuid` only when non-empty; nothing else |
| Repository.BuildPipelineVariableBody | repository.go:292-304 | the step-by-step body is that body's JSON text |
| Repository.PipelineKeyPairBody | repository.go:306-318 | `private_key` and `public_key` each appear only when non-empty; nothing else |
| Repository.BuildPipelineKeyPairBody | repository.go:306-318 | the step-by-step body is that body's JSON text |
| Repository.BranchQuery | repository.go:131-146 | `q` and `sort` appear only when non-empty; `page` and `pagelen` only when positive, in decimal; no other parameter |
| Repository.BranchParams | repository.go:159-174 | the parameters filled one by one are that query |
| Repository.EnvelopeFields | repository.go:321-325 | a response that is not an object panics; an error envelope becomes the domain error carrying its fields; otherwise the fields |
| Repository.DecodeRepository | repository.go:320-334 | an error envelope gives the domain error and never an entity; a non-object panics; otherwise the mapper's record, or its error |
| Repository.DecodeRepositoryFiles | repository.go:336-350 | the same envelope checks; only the `values` entry is mapped |
| Repository.FilesDependOnValuesOnly | repository.go:344 | two listings with the same `values` decode alike |
| Repository.DecodePipelineRepository | repository.go:399-413 | an error envelope gives the domain error; otherwise the mapped pipeline |
| Repository.DecodePipelineVariableRepository | repository.go:415-429 | an error envelope gives the domain error; otherwise the mapped variable |
| Repository.DecodePipelineKeyPairRepository | repository.go:431-445 | an error envelope gives the domain error; otherwise the mapped key pair |
| Repository.UnmarshalObject | repository.go:354-358 | bytes that are not JSON, or JSON that is neither an object nor null, are an error; null gives an empty map |
| Repository.Mapped | repository.go:328-333 | no contract of its own: the mapper's record, or its failure as the error, as after each `mapstructure.Decode` (also repository.go:345-349, 407-412, 423-428 and 439-444); the decoder contracts are stated over it |
| Repository.NumberOrZero | repository.go:370-382 | no contract of its own: a numeric field, or 0 when missing or not a number; the defaults of `page`, `pagelen` and `size` are stated by `Repository.BranchesOutcome` |
| Repository.StringOrEmpty | repository.go:384-387 | no contract of its own: a string field, or "" when missing or not a string; the default of `next` is stated by `Repository.BranchesOutcome` |
| Repository.KeepDecoded | repository.go:360-368 | no contract of its own: the entries the mapper decodes, in order; stated by `KeepDecodedSelects`, `KeepDecodedAll` and `KeepDecodedAppend` |
| Repository.BranchesOf | repository.go:352-397 | no contract of its own: the result of `decodeRepositoryBranches`; stated by `BranchesOutcome` and its neighbours, and `DecodeRepositoryBranches` is proved equal to it |
| Repository.KeepDecodedSelects | repository.go:360-368 | the kept branches are exactly the entries that decode, in their original order |
| Repository.KeepDecodedAll | repository.go:362-368 | when every entry decodes, each one is kept, in place |
| Repository.KeepDecodedAppend | repository.go:362-368 | skipping a failure does not disturb the rest: the kept entries of a concatenation are those of its parts |
| Repository.BranchesOutcome | repository.go:352-397 | a parse failure, or JSON that is neither an object nor null, is an error; a `values` that is missing or not a list panics; `page`, `pagelen` and `size` default to 0 and `next` to "" when missing or of the wrong type; the branches are those that decode; an object with a list `values` always gives a listing, whatever its entries |
| Repository.BranchesIgnoreErrorEnvelope | repository.go:352-360 | a listing has no error-envelope check: an error envelope without `values` panics |
| Repository.NullListingPanics | repository.go:354-360 | JSON null leaves the map empty, so the `values` assertion panics |
| Repository.DecodeRepositoryBranches | repository.go:352-397 | the loop keeps the decoded entries, and the page fields are read with their defaults, as `BranchesOf` describes |
| Repository.Create | repository.go:85-94 | POSTs the repository body; an `execute` error is returned unchanged with no entity; otherwise the decoded repository |
| Repository.Get | repository.go:96-104 | the same, for GET with an empty body |
| Repository.ListFiles | repository.go:106-115 | an `execute` error is returned unchanged; otherwise the decoded file listing |
| Repository.FilesUrl | repository.go:107-108 | no contract of its own: the joined `src` path under the API base; `Repository.ListFiles` is stated over it and `Client.RequestUrl` states its prefix |
| Repository.GetFileBlob | repository.go:117-128 | an `executeRaw` error is returned unchanged; otherwise the raw bytes are the blob's content |
| Repository.BlobUrl | repository.go:118-119 | no contract of its own: the joined path of the file at its ref under the API base; `Repository.GetFileBlob` is stated over it and `Client.RequestUrl` states its prefix |
| Repository.ListRefs | repository.go:130-155 | GETs the refs with the built query through `executeRaw`; an error is returned unchanged; otherwise the decoded listing |
| Repository.RefsUrl | repository.go:148 | no contract of its own: the refs path with the encoded query under the API base; `Repository.ListRefs` and `ListingPagelenOverridden` are stated over it |
| Repository.EncodedBranchQuery | repository.go:148 | no contract of its own: the encoding of the listing query, also used at repository.go:176; the query is stated by `Repository.BranchQuery`, and `Repository.ListRefs` and `ListBranches` are stated over it |
| Repository.ListingPagelenOverridden | repository.go:144-149 | the refs listing is requested with the client's page length, whatever `pagelen` its options asked for |
| Repository.ListBranches | repository.go:157-183 | the same as the refs listing, for the branches |
| Repository.BranchesUrl | repository.go:176 | no contract of its own: the branches path with the encoded query under the API base; `Repository.ListBranches` is stated over it |
| Repository.Delete | repository.go:185-188 | returns what `execute` gives for a DELETE |
| Repository.ListWatchers | repository.go:190-193 | returns what `execute` gives for the watchers |
| Repository.ListForks | repository.go:195-198 | returns what `execute` gives for the forks |
| Repository.UpdatePipelineConfig | repository.go:200-209 | PUTs the pipeline body; an `execute` error is returned unchanged; otherwise the decoded pipeline |
| Repository.AddPipelineVariable | repository.go:211-221 | POSTs the variable body; an `execute` error is returned unchanged; otherwise the decoded variable |
| Repository.AddPipelineKeyPair | repository.go:223-233 | PUTs the key-pair body; an `execute` error is returned unchanged; otherwise the decoded key pair |

## Left out

- Client.Execute: requires the page chain from its URL to be finite, stated as `Fetch(...).Some?` for some fuel. An endless chain of `next` links is not modelled.
- The endpoint methods built on `execute` carry the same finite-chain requirement.
- The OAuth constructors `NewOAuth`, `NewOAuthClientCredentials` and `NewOAuthWithCode` are left out, because they exchange tokens over the network, read stdin and call `log.Fatal`. Whether a token has expired is a flag.
- `executeFileUpload` is left out: it opens a file and encodes a multipart form.
- The transport (`HttpClient.Do`) is a function from the request to a response or an error.
- `ioutil.ReadAll` errors and body closing are left out.
- The Base64 encoding of basic auth, the `Bearer ` prefix and the token type's normalisation are left out. The header is kept as its parts.
- `url.Parse`, `Query`, `Encode`, `String`, `fmt.Sprintf`, `path.Join`, `json.Marshal` and `json.Unmarshal` are passed in as functions. Their internals are not modelled.
  - A query is a map with one value per name.
  - Where a lemma needs rendering and parsing to agree, it says so in a requirement.
- `http.NewRequest` is modelled as failing exactly when its URL does not parse. It does not validate the method.
- `GetApiBaseURL` is a value of the environment, because its source is not part of this model.
- `mapstructure.Decode` is one abstract mapper per entity. A mapper failure is one error, `Mapping`.
- `DecodeError` becomes the domain error carrying the envelope's fields. How it is built is not part of this model.
- JSON numbers are integers, so the `float64` conversions of the listing fields are not modelled.
- The failed type assertions of the Go code are modelled as `Panic` errors that end the operation. Go would unwind the goroutine instead.
- `buildJsonBody`'s printing and `os.Exit(9)` on a marshalling failure are left out. Marshalling is total here.
- `doRequest`'s `log.Println` on the JSON fallback is left out: it is logging only.
- Http.DoRequest: with `emptyResponse` set, its result depends on what the abstract `parseJson` makes of no bytes, so the contract allows a decoded value there. In Go, `json.Unmarshal` of empty input always fails, so that call always returns the error. Only the left-out `executeFileUpload` asks for an empty response.
- The `String()` methods are left out.
- Go's error values are kept as error kinds, not as their messages. `Status` holds `resp.Status` as given, although client.go:318 passes it to `fmt.Errorf` as a format string, so a status text containing `%` gives a different message in Go. `NextNotMap` does not keep the `%T` of client.go:218. A `url.Parse` error becomes `BadUrl` with the URL, and a `json.Unmarshal` error becomes `BadJson`.
- Using one client from several goroutines is left out, as is everything else about concurrency.
