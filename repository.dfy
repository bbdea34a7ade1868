/** The repository endpoints of repository.go: the entities they return, the
    request bodies and query strings they build, the decoders that turn a
    response into an entity, and how each endpoint passes on the errors of
    `execute` and `executeRaw`. */
module Repository {
  import opened Json
  import opened Wrappers
  import opened Text
  import opened Http
  import opened Client
  import opened ClientRules

  // ---------------------------------------------------------------- entities

  datatype Project = Project(key: string, name: string)

  datatype Repository = Repository(
    project: Project,
    slug: string,
    fullName: string,
    description: string,
    forkPolicy: string,
    kind: string,
    owner: map<string, Json>,
    links: map<string, Json>)

  datatype RepositoryFile = RepositoryFile(
    mimetype: string,
    links: map<string, Json>,
    path: string,
    commit: map<string, Json>,
    attributes: seq<string>,
    kind: string,
    size: int)

  datatype RepositoryBlob = RepositoryBlob(content: Bytes)

  datatype RepositoryBranch = RepositoryBranch(
    kind: string,
    name: string,
    defaultMergeStrategy: string,
    mergeStrategies: seq<string>,
    links: map<string, Json>,
    target: map<string, Json>,
    heads: seq<map<string, Json>>)

  datatype RepositoryBranches = RepositoryBranches(
    page: int,
    pagelen: int,
    size: int,
    next: string,
    branches: seq<RepositoryBranch>)

  datatype Pipeline = Pipeline(kind: string, enabled: bool, repository: Repository)

  datatype PipelineVariable = PipelineVariable(kind: string, uuid: string, key: string, value: string, secured: bool)

  datatype PipelineKeyPair = PipelineKeyPair(kind: string, uuid: string, publicKey: string, privateKey: string)

  /** `mapstructure.Decode` into each entity: the record built from a decoded
      value by field correspondence, or None when the mapper reports an error. */
  datatype Mappers = Mappers(
    repository: Json -> Option<Repository>,
    files: Json -> Option<seq<RepositoryFile>>,
    branch: Json -> Option<RepositoryBranch>,
    pipeline: Json -> Option<Pipeline>,
    variable: Json -> Option<PipelineVariable>,
    keyPair: Json -> Option<PipelineKeyPair>)

  // ----------------------------------------------------------------- options

  /** The options of the repository endpoints; the flags the server takes as
      text (`is_private`, `has_issues`, `has_wiki`) are strings. */
  datatype RepositoryOptions = RepositoryOptions(
    owner: string,
    repoSlug: string,
    scm: string,
    isPrivate: string,
    description: string,
    forkPolicy: string,
    language: string,
    hasIssues: string,
    hasWiki: string,
    project: string)

  datatype RepositoryFilesOptions = RepositoryFilesOptions(owner: string, repoSlug: string)

  datatype RepositoryBlobOptions = RepositoryBlobOptions(owner: string, repoSlug: string, ref: string, path: string)

  datatype RepositoryBranchOptions = RepositoryBranchOptions(
    owner: string,
    repoSlug: string,
    query: string,
    sort: string,
    pageNum: int,
    pagelen: int)

  datatype RepositoryPipelineOptions = RepositoryPipelineOptions(owner: string, repoSlug: string, enabled: bool)

  datatype RepositoryPipelineVariableOptions = RepositoryPipelineVariableOptions(
    owner: string,
    repoSlug: string,
    uuid: string,
    key: string,
    value: string,
    secured: bool)

  datatype RepositoryPipelineKeyPairOptions = RepositoryPipelineKeyPairOptions(
    owner: string,
    repoSlug: string,
    privateKey: string,
    publicKey: string)

  // ------------------------------------------------ request bodies and queries

  /** `key` is in `m` exactly when `present`, and then holds `value`. */
  predicate Entry<V(==)>(m: map<string, V>, key: string, present: bool, value: V)
  {
    (key in m <==> present) && (key in m ==> m[key] == value)
  }

  /** A guarded insert: `key` is set only when `present`. */
  function PutIf<V>(m: map<string, V>, present: bool, key: string, value: V): map<string, V>
  {
    if present then m[key := value] else m
  }

  /** An optional entry of a body: its key, the option's text (the entry is
      present exactly when the text is set), and the entry's value. */
  datatype Field = Field(key: string, text: string, value: Json)

  /** The body after the guarded inserts of `fields`, in order. */
  function Fill(fields: seq<Field>): map<string, Json>
    decreases |fields|
  {
    if fields == [] then map[]
    else
      var f := fields[|fields| - 1];
      PutIf(Fill(fields[..|fields| - 1]), f.text != "", f.key, f.value)
  }

  /** One more guarded insert. */
  lemma FillStep(fields: seq<Field>, f: Field)
    ensures Fill(fields + [f]) == PutIf(Fill(fields), f.text != "", f.key, f.value)
  {
    assert (fields + [f])[..|fields|] == fields;
  }

  predicate DistinctKeys(fields: seq<Field>)
  {
    forall i, j | 0 <= i < j < |fields| :: fields[i].key != fields[j].key
  }

  /** With distinct keys, each field's entry is present exactly when its
      option is set, and then holds its value. */
  lemma {:induction false} FilledEntry(fields: seq<Field>, i: int)
    requires DistinctKeys(fields)
    requires 0 <= i < |fields|
    ensures Entry(Fill(fields), fields[i].key, fields[i].text != "", fields[i].value)
    decreases |fields|
  {
    var n := |fields| - 1;
    if i < n {
      assert DistinctKeys(fields[..n]) by {
        forall j, k | 0 <= j < k < n ensures fields[..n][j].key != fields[..n][k].key {
          assert fields[j].key != fields[k].key;
        }
      }
      FilledEntry(fields[..n], i);
      assert fields[..n][i] == fields[i];
      assert fields[i].key != fields[n].key;
    } else {
      FilledKeys(fields[..n]);
      forall f | f in fields[..n] ensures f.key != fields[n].key {
        var j :| 0 <= j < n && fields[..n][j] == f;
        assert fields[j].key != fields[n].key;
      }
    }
  }

  /** The inserts of `fields` add no key but theirs. */
  lemma {:induction false} FilledKeys(fields: seq<Field>)
    ensures Fill(fields).Keys <= set f | f in fields :: f.key
    decreases |fields|
  {
    if fields != [] {
      FilledKeys(fields[..|fields| - 1]);
      forall key | key in Fill(fields) ensures key in set f | f in fields :: f.key {
        if key != fields[|fields| - 1].key {
          var f :| f in fields[..|fields| - 1] && f.key == key;
          assert f in fields;
        }
      }
    }
  }

  /** `buildJsonBody`: the JSON text of a body. */
  function BuildJsonBody(env: Env, body: map<string, Json>): string
  {
    env.encodeJson(Object(body))
  }

  /** The keys of a repository body. */
  const REPOSITORY_BODY_KEYS: set<string> :=
    {"scm", "is_private", "description", "fork_policy", "language", "has_issues", "has_wiki", "project"}

  /** The fields of a repository body, in the order they are filled in. */
  function RepositoryFields(ro: RepositoryOptions): seq<Field>
  {
    [Field("scm", ro.scm, Str(ro.scm)),
     Field("is_private", ro.isPrivate, Str(ro.isPrivate)),
     Field("description", ro.description, Str(ro.description)),
     Field("fork_policy", ro.forkPolicy, Str(ro.forkPolicy)),
     Field("language", ro.language, Str(ro.language)),
     Field("has_issues", ro.hasIssues, Str(ro.hasIssues)),
     Field("has_wiki", ro.hasWiki, Str(ro.hasWiki)),
     Field("project", ro.project, Object(map["key" := Str(ro.project)]))]
  }

  /** The body of a repository creation: each option that is set, and no
      other key; the project goes in as `{"key": project}`. */
  function RepositoryBody(ro: RepositoryOptions): (body: map<string, Json>)
    ensures body.Keys <= REPOSITORY_BODY_KEYS
    ensures Entry(body, "scm", ro.scm != "", Str(ro.scm))
    ensures Entry(body, "is_private", ro.isPrivate != "", Str(ro.isPrivate))
    ensures Entry(body, "description", ro.description != "", Str(ro.description))
    ensures Entry(body, "fork_policy", ro.forkPolicy != "", Str(ro.forkPolicy))
    ensures Entry(body, "language", ro.language != "", Str(ro.language))
    ensures Entry(body, "has_issues", ro.hasIssues != "", Str(ro.hasIssues))
    ensures Entry(body, "has_wiki", ro.hasWiki != "", Str(ro.hasWiki))
    ensures Entry(body, "project", ro.project != "", Object(map["key" := Str(ro.project)]))
  {
    var fields := RepositoryFields(ro);
    FilledKeys(fields);
    FilledEntry(fields, 0);
    FilledEntry(fields, 1);
    FilledEntry(fields, 2);
    FilledEntry(fields, 3);
    FilledEntry(fields, 4);
    FilledEntry(fields, 5);
    FilledEntry(fields, 6);
    FilledEntry(fields, 7);
    Fill(fields)
  }

  /** `buildRepositoryBody`. */
  method BuildRepositoryBody(env: Env, ro: RepositoryOptions) returns (data: string)
    ensures data == BuildJsonBody(env, RepositoryBody(ro))
  {
    ghost var fields := RepositoryFields(ro);
    var body: map<string, Json> := map[];
    assert body == Fill(fields[..0]);
    if ro.scm != "" {
      body := body["scm" := Str(ro.scm)];
    }
    assert body == Fill(fields[..1]) by {
      FillStep(fields[..0], fields[0]);
      assert fields[..1] == fields[..0] + [fields[0]];
    }
    if ro.isPrivate != "" {
      body := body["is_private" := Str(ro.isPrivate)];
    }
    assert body == Fill(fields[..2]) by {
      FillStep(fields[..1], fields[1]);
      assert fields[..2] == fields[..1] + [fields[1]];
    }
    if ro.description != "" {
      body := body["description" := Str(ro.description)];
    }
    assert body == Fill(fields[..3]) by {
      FillStep(fields[..2], fields[2]);
      assert fields[..3] == fields[..2] + [fields[2]];
    }
    if ro.forkPolicy != "" {
      body := body["fork_policy" := Str(ro.forkPolicy)];
    }
    assert body == Fill(fields[..4]) by {
      FillStep(fields[..3], fields[3]);
      assert fields[..4] == fields[..3] + [fields[3]];
    }
    if ro.language != "" {
      body := body["language" := Str(ro.language)];
    }
    assert body == Fill(fields[..5]) by {
      FillStep(fields[..4], fields[4]);
      assert fields[..5] == fields[..4] + [fields[4]];
    }
    if ro.hasIssues != "" {
      body := body["has_issues" := Str(ro.hasIssues)];
    }
    assert body == Fill(fields[..6]) by {
      FillStep(fields[..5], fields[5]);
      assert fields[..6] == fields[..5] + [fields[5]];
    }
    if ro.hasWiki != "" {
      body := body["has_wiki" := Str(ro.hasWiki)];
    }
    assert body == Fill(fields[..7]) by {
      FillStep(fields[..6], fields[6]);
      assert fields[..7] == fields[..6] + [fields[6]];
    }
    if ro.project != "" {
      body := body["project" := Object(map["key" := Str(ro.project)])];
    }
    assert body == Fill(fields[..8]) by {
      FillStep(fields[..7], fields[7]);
      assert fields[..8] == fields[..7] + [fields[7]];
    }
    assert fields[..8] == fields;
    data := BuildJsonBody(env, body);
  }

  /** The body of a pipeline configuration: the flag `enabled` alone. */
  function PipelineBody(rpo: RepositoryPipelineOptions): (body: map<string, Json>)
    ensures body.Keys == {"enabled"} && body["enabled"] == Bool(rpo.enabled)
  {
    map["enabled" := Bool(rpo.enabled)]
  }

  /** `buildPipelineBody`. */
  method BuildPipelineBody(env: Env, rpo: RepositoryPipelineOptions) returns (data: string)
    ensures data == BuildJsonBody(env, PipelineBody(rpo))
  {
    var body: map<string, Json> := map[];
    body := body["enabled" := Bool(rpo.enabled)];
    data := BuildJsonBody(env, body);
  }

  /** The body of a pipeline variable: `key`, `value` and `secured` always,
      `uuid` only when it is set. */
  function PipelineVariableBody(rpvo: RepositoryPipelineVariableOptions): (body: map<string, Json>)
    ensures body.Keys <= {"uuid", "key", "value", "secured"}
    ensures Entry(body, "uuid", rpvo.uuid != "", Str(rpvo.uuid))
    ensures Entry(body, "key", true, Str(rpvo.key))
    ensures Entry(body, "value", true, Str(rpvo.value))
    ensures Entry(body, "secured", true, Bool(rpvo.secured))
  {
    var b := PutIf(map[], rpvo.uuid != "", "uuid", Str(rpvo.uuid));
    b["key" := Str(rpvo.key)]["value" := Str(rpvo.value)]["secured" := Bool(rpvo.secured)]
  }

  /** `buildPipelineVariableBody`. */
  method BuildPipelineVariableBody(env: Env, rpvo: RepositoryPipelineVariableOptions) returns (data: string)
    ensures data == BuildJsonBody(env, PipelineVariableBody(rpvo))
  {
    var body: map<string, Json> := map[];
    if rpvo.uuid != "" {
      body := body["uuid" := Str(rpvo.uuid)];
    }
    body := body["key" := Str(rpvo.key)];
    body := body["value" := Str(rpvo.value)];
    body := body["secured" := Bool(rpvo.secured)];
    data := BuildJsonBody(env, body);
  }

  /** The body of a key pair: each key that is set, and no other. */
  function PipelineKeyPairBody(rpkpo: RepositoryPipelineKeyPairOptions): (body: map<string, Json>)
    ensures body.Keys <= {"private_key", "public_key"}
    ensures Entry(body, "private_key", rpkpo.privateKey != "", Str(rpkpo.privateKey))
    ensures Entry(body, "public_key", rpkpo.publicKey != "", Str(rpkpo.publicKey))
  {
    var b := PutIf(map[], rpkpo.privateKey != "", "private_key", Str(rpkpo.privateKey));
    PutIf(b, rpkpo.publicKey != "", "public_key", Str(rpkpo.publicKey))
  }

  /** `buildPipelineKeyPairBody`. */
  method BuildPipelineKeyPairBody(env: Env, rpkpo: RepositoryPipelineKeyPairOptions) returns (data: string)
    ensures data == BuildJsonBody(env, PipelineKeyPairBody(rpkpo))
  {
    var body: map<string, Json> := map[];
    if rpkpo.privateKey != "" {
      body := body["private_key" := Str(rpkpo.privateKey)];
    }
    if rpkpo.publicKey != "" {
      body := body["public_key" := Str(rpkpo.publicKey)];
    }
    data := BuildJsonBody(env, body);
  }

  /** The query of a refs or branches listing: the search and the order when
      they are set, the page number and the page length when positive,
      both written in decimal. */
  function BranchQuery(rbo: RepositoryBranchOptions): (params: map<string, string>)
    ensures params.Keys <= {"q", "sort", "page", "pagelen"}
    ensures Entry(params, "q", rbo.query != "", rbo.query)
    ensures Entry(params, "sort", rbo.sort != "", rbo.sort)
    ensures rbo.pageNum > 0 ==> Entry(params, "page", true, Decimal(rbo.pageNum))
    ensures rbo.pageNum <= 0 ==> "page" !in params
    ensures rbo.pagelen > 0 ==> Entry(params, "pagelen", true, Decimal(rbo.pagelen))
    ensures rbo.pagelen <= 0 ==> "pagelen" !in params
  {
    var p := PutIf(map[], rbo.query != "", "q", rbo.query);
    var p := PutIf(p, rbo.sort != "", "sort", rbo.sort);
    var p := if rbo.pageNum > 0 then p["page" := Decimal(rbo.pageNum)] else p;
    if rbo.pagelen > 0 then p["pagelen" := Decimal(rbo.pagelen)] else p
  }

  /** The query of `ListRefs` and `ListBranches`, filled one parameter at a time. */
  method BranchParams(rbo: RepositoryBranchOptions) returns (params: map<string, string>)
    ensures params == BranchQuery(rbo)
  {
    params := map[];
    if rbo.query != "" {
      params := params["q" := rbo.query];
    }
    if rbo.sort != "" {
      params := params["sort" := rbo.sort];
    }
    if rbo.pageNum > 0 {
      params := params["page" := Decimal(rbo.pageNum)];
    }
    if rbo.pagelen > 0 {
      params := params["pagelen" := Decimal(rbo.pagelen)];
    }
  }

  // ---------------------------------------------------------------- decoders

  /** The start of every typed decoder: the response must be an object (the
      type assertion panics otherwise), and an error envelope becomes the
      domain error that carries its fields. */
  function EnvelopeFields(response: Json): (r: Result<map<string, Json>>)
    ensures !response.Object? ==> r.Err? && r.error.Panic?
    ensures IsErrorEnvelope(response) ==> r == Err(Domain(response.fields))
    ensures r.Ok? <==> response.Object? && !IsErrorEnvelope(response)
    ensures r.Ok? ==> r.value == response.fields
  {
    if !response.Object? then Err(Panic("response is not a map"))
    else if IsErrorEnvelope(response) then Err(Domain(response.fields))
    else Ok(response.fields)
  }

  /** The result of a mapper, with its failure as an error. */
  function Mapped<T>(x: Option<T>): Result<T>
  {
    if x.None? then Err(Mapping) else Ok(x.value)
  }

  /** `decodeRepository`. */
  function DecodeRepository(m: Mappers, response: Json): (r: Result<Repository>)
    ensures !response.Object? ==> r.Err? && r.error.Panic?
    ensures IsErrorEnvelope(response) ==> r == Err(Domain(response.fields))
    ensures response.Object? && !IsErrorEnvelope(response) ==> r == Mapped(m.repository(response))
  {
    var fields :- EnvelopeFields(response);
    Mapped(m.repository(Object(fields)))
  }

  /** `decodeRepositoryFiles`: only the envelope's `values` is mapped; a
      missing `values` reaches the mapper as null. */
  function DecodeRepositoryFiles(m: Mappers, response: Json): (r: Result<seq<RepositoryFile>>)
    ensures !response.Object? ==> r.Err? && r.error.Panic?
    ensures IsErrorEnvelope(response) ==> r == Err(Domain(response.fields))
    ensures response.Object? && !IsErrorEnvelope(response) ==> r == Mapped(m.files(Lookup(response.fields, "values")))
  {
    var fields :- EnvelopeFields(response);
    Mapped(m.files(Lookup(fields, "values")))
  }

  /** Only `values` matters to a file listing: two listings that are not
      error envelopes and have the same `values` decode alike. */
  lemma FilesDependOnValuesOnly(m: Mappers, a: map<string, Json>, b: map<string, Json>)
    requires !IsErrorEnvelope(Object(a)) && !IsErrorEnvelope(Object(b))
    requires Lookup(a, "values") == Lookup(b, "values")
    ensures DecodeRepositoryFiles(m, Object(a)) == DecodeRepositoryFiles(m, Object(b))
  {
  }

  /** `decodePipelineRepository`. */
  function DecodePipelineRepository(m: Mappers, response: Json): (r: Result<Pipeline>)
    ensures !response.Object? ==> r.Err? && r.error.Panic?
    ensures IsErrorEnvelope(response) ==> r == Err(Domain(response.fields))
    ensures response.Object? && !IsErrorEnvelope(response) ==> r == Mapped(m.pipeline(response))
  {
    var fields :- EnvelopeFields(response);
    Mapped(m.pipeline(Object(fields)))
  }

  /** `decodePipelineVariableRepository`. */
  function DecodePipelineVariableRepository(m: Mappers, response: Json): (r: Result<PipelineVariable>)
    ensures !response.Object? ==> r.Err? && r.error.Panic?
    ensures IsErrorEnvelope(response) ==> r == Err(Domain(response.fields))
    ensures response.Object? && !IsErrorEnvelope(response) ==> r == Mapped(m.variable(response))
  {
    var fields :- EnvelopeFields(response);
    Mapped(m.variable(Object(fields)))
  }

  /** `decodePipelineKeyPairRepository`. */
  function DecodePipelineKeyPairRepository(m: Mappers, response: Json): (r: Result<PipelineKeyPair>)
    ensures !response.Object? ==> r.Err? && r.error.Panic?
    ensures IsErrorEnvelope(response) ==> r == Err(Domain(response.fields))
    ensures response.Object? && !IsErrorEnvelope(response) ==> r == Mapped(m.keyPair(response))
  {
    var fields :- EnvelopeFields(response);
    Mapped(m.keyPair(Object(fields)))
  }

  /** `json.Unmarshal` into a map: bytes that are not JSON, and JSON that is
      neither an object nor null, are errors; null leaves the map empty. */
  function UnmarshalObject(env: Env, bytes: Bytes): (r: Result<map<string, Json>>)
    ensures env.parseJson(bytes).None? ==> r == Err(BadJson)
    ensures r.Ok? <==> env.parseJson(bytes).Some? && (env.parseJson(bytes).value.Null? || env.parseJson(bytes).value.Object?)
    ensures env.parseJson(bytes) == Some(Null) ==> r == Ok(map[])
    ensures r.Ok? && env.parseJson(bytes).value.Object? ==> r.value == env.parseJson(bytes).value.fields
    ensures r.Err? ==> r.error == BadJson
  {
    match env.parseJson(bytes)
    case None => Err(BadJson)
    case Some(v) =>
      if v.Null? then Ok(map[])
      else if v.Object? then Ok(v.fields)
      else Err(BadJson)
  }

  /** A numeric field, or 0 when it is missing or not a number. */
  function NumberOrZero(v: Json): int
  {
    if v.Number? then v.n else 0
  }

  /** A string field, or "" when it is missing or not a string. */
  function StringOrEmpty(v: Json): string
  {
    if v.Str? then v.s else ""
  }

  /** The entries that the mapper decodes, in their order; the others are
      skipped. */
  function KeepDecoded<T>(items: seq<Json>, decode: Json -> Option<T>): seq<T>
    decreases |items|
  {
    if items == [] then []
    else
      var last := decode(items[|items| - 1]);
      KeepDecoded(items[..|items| - 1], decode) + (if last.Some? then [last.value] else [])
  }

  /** `decodeRepositoryBranches` as a function. */
  function BranchesOf(env: Env, m: Mappers, response: Bytes): Result<RepositoryBranches>
  {
    var fields :- UnmarshalObject(env, response);
    var valuesIn := Lookup(fields, "values");
    if !valuesIn.List? then Err(Panic("values is not a list"))
    else
      Ok(RepositoryBranches(
        NumberOrZero(Lookup(fields, "page")),
        NumberOrZero(Lookup(fields, "pagelen")),
        NumberOrZero(Lookup(fields, "size")),
        StringOrEmpty(Lookup(fields, "next")),
        KeepDecoded(valuesIn.items, m.branch)))
  }

  /** The entries kept are exactly those the mapper decodes, in their
      original order: `idx` are the positions of the decoded entries,
      increasing, and the kept records are their decodings. */
  lemma {:induction false} KeepDecodedSelects<T>(items: seq<Json>, decode: Json -> Option<T>) returns (idx: seq<int>)
    ensures |idx| == |KeepDecoded(items, decode)|
    ensures forall j | 0 <= j < |idx| :: 0 <= idx[j] < |items| && decode(items[idx[j]]) == Some(KeepDecoded(items, decode)[j])
    ensures forall j, k | 0 <= j < k < |idx| :: idx[j] < idx[k]
    ensures forall i | 0 <= i < |items| :: decode(items[i]).Some? <==> i in idx
    decreases |items|
  {
    if items == [] {
      return [];
    }
    var n := |items| - 1;
    var front := items[..n];
    var before := KeepDecodedSelects(front, decode);
    var keptFront := KeepDecoded(front, decode);
    assert forall i | 0 <= i < n :: front[i] == items[i];
    if decode(items[n]).Some? {
      idx := before + [n];
      assert KeepDecoded(items, decode) == keptFront + [decode(items[n]).value];
      forall j | 0 <= j < |idx|
        ensures 0 <= idx[j] < |items| && decode(items[idx[j]]) == Some(KeepDecoded(items, decode)[j])
      {
        if j < |before| {
          assert idx[j] == before[j] && KeepDecoded(items, decode)[j] == keptFront[j];
        }
      }
      forall i | 0 <= i < |items| ensures decode(items[i]).Some? <==> i in idx {
        if i < n {
          assert decode(front[i]).Some? <==> i in before;
        }
      }
    } else {
      idx := before;
      assert KeepDecoded(items, decode) == keptFront;
      forall i | 0 <= i < |items| ensures decode(items[i]).Some? <==> i in idx {
        if i < n {
          assert decode(front[i]).Some? <==> i in before;
        } else {
          assert forall j | 0 <= j < |before| :: before[j] < n;
        }
      }
    }
  }

  /** When every entry decodes, every one is kept. */
  lemma {:induction false} KeepDecodedAll<T>(items: seq<Json>, decode: Json -> Option<T>)
    requires forall i | 0 <= i < |items| :: decode(items[i]).Some?
    ensures |KeepDecoded(items, decode)| == |items|
    ensures forall i | 0 <= i < |items| :: decode(items[i]) == Some(KeepDecoded(items, decode)[i])
    decreases |items|
  {
    if items != [] {
      var n := |items| - 1;
      assert forall i | 0 <= i < n :: items[..n][i] == items[i];
      KeepDecodedAll(items[..n], decode);
    }
  }

  /** Skipping is local: the kept entries of two pieces are those of the whole. */
  lemma {:induction false} KeepDecodedAppend<T>(a: seq<Json>, b: seq<Json>, decode: Json -> Option<T>)
    ensures KeepDecoded(a + b, decode) == KeepDecoded(a, decode) + KeepDecoded(b, decode)
    decreases |b|
  {
    if b != [] {
      var n := |b| - 1;
      assert (a + b)[..|a + b| - 1] == a + b[..n];
      KeepDecodedAppend(a, b[..n], decode);
    } else {
      assert a + b == a;
    }
  }

  /** What `decodeRepositoryBranches` returns: not JSON, or JSON that is not
      an object (or null) is an error; a `values` that is missing or not a
      list is a run-time panic; otherwise each page field is its number, or 0
      when missing or not a number, `next` its string or "", and the
      branches those entries of `values` that decode. An entry that fails
      to decode never aborts the listing: an object with a list `values`
      always gives one. */
  lemma BranchesOutcome(env: Env, m: Mappers, response: Bytes)
    ensures env.parseJson(response).None? ==> BranchesOf(env, m, response) == Err(BadJson)
    ensures UnmarshalObject(env, response).Err? ==> BranchesOf(env, m, response) == Err(BadJson)
    ensures UnmarshalObject(env, response).Ok? && Lookup(UnmarshalObject(env, response).value, "values").List? ==>
      BranchesOf(env, m, response).Ok?
    ensures UnmarshalObject(env, response).Ok? && !Lookup(UnmarshalObject(env, response).value, "values").List? ==>
      BranchesOf(env, m, response).Err? && BranchesOf(env, m, response).error.Panic?
    ensures BranchesOf(env, m, response).Ok? ==>
      var fields := UnmarshalObject(env, response).value;
      var b := BranchesOf(env, m, response).value;
      && Lookup(fields, "values").List?
      && (if Lookup(fields, "page").Number? then b.page == Lookup(fields, "page").n else b.page == 0)
      && (if Lookup(fields, "pagelen").Number? then b.pagelen == Lookup(fields, "pagelen").n else b.pagelen == 0)
      && (if Lookup(fields, "size").Number? then b.size == Lookup(fields, "size").n else b.size == 0)
      && (if Lookup(fields, "next").Str? then b.next == Lookup(fields, "next").s else b.next == "")
      && b.branches == KeepDecoded(Lookup(fields, "values").items, m.branch)
  {
  }

  /** There is no error-envelope check on a listing: an error envelope
      without `values` panics rather than giving the server's error. */
  lemma BranchesIgnoreErrorEnvelope(env: Env, m: Mappers, response: Bytes, fields: map<string, Json>)
    requires env.parseJson(response) == Some(Object(fields))
    requires IsErrorEnvelope(Object(fields)) && "values" !in fields
    ensures BranchesOf(env, m, response).Err? && BranchesOf(env, m, response).error.Panic?
  {
  }

  /** A listing whose JSON is null has no `values`: a run-time panic. */
  lemma NullListingPanics(env: Env, m: Mappers, response: Bytes)
    requires env.parseJson(response) == Some(Null)
    ensures BranchesOf(env, m, response).Err? && BranchesOf(env, m, response).error.Panic?
  {
  }

  /** `decodeRepositoryBranches`: the branches that decode, collected by one
      pass over `values`, then the page fields with their defaults. */
  method DecodeRepositoryBranches(env: Env, m: Mappers, response: Bytes) returns (r: Result<RepositoryBranches>)
    ensures r == BranchesOf(env, m, response)
  {
    var parsed := UnmarshalObject(env, response);
    if parsed.Err? {
      return Err(parsed.error);
    }
    var branchResponseMap := parsed.value;
    var valuesIn := Lookup(branchResponseMap, "values");
    if !valuesIn.List? {
      return Err(Panic("values is not a list"));
    }
    var branchArray := valuesIn.items;
    var branches: seq<RepositoryBranch> := [];
    for i := 0 to |branchArray|
      invariant branches == KeepDecoded(branchArray[..i], m.branch)
    {
      assert branchArray[..i + 1][..i] == branchArray[..i];
      var branch := m.branch(branchArray[i]);
      if branch.Some? {
        branches := branches + [branch.value];
      }
    }
    assert branchArray[..|branchArray|] == branchArray;

    var pageIn := Lookup(branchResponseMap, "page");
    var page := if pageIn.Number? then pageIn.n else 0;
    var pagelenIn := Lookup(branchResponseMap, "pagelen");
    var pagelen := if pagelenIn.Number? then pagelenIn.n else 0;
    var sizeIn := Lookup(branchResponseMap, "size");
    var size := if sizeIn.Number? then sizeIn.n else 0;
    var nextIn := Lookup(branchResponseMap, "next");
    var next := if nextIn.Str? then nextIn.s else "";
    return Ok(RepositoryBranches(page, pagelen, size, next, branches));
  }

  // --------------------------------------------------------------- endpoints

  /** `Create`: POST the repository body; an error of `execute` is returned
      as it is, a value is decoded. */
  method Create(c: Client, env: Env, m: Mappers, ro: RepositoryOptions, ghost fuel: nat) returns (r: Result<Repository>)
    requires Fetch(c, env, "POST", RequestUrl(env, "/repositories/%s/%s", [ro.owner, ro.repoSlug]), BuildJsonBody(env, RepositoryBody(ro)), fuel).Some?
    ensures var f := Fetch(c, env, "POST", RequestUrl(env, "/repositories/%s/%s", [ro.owner, ro.repoSlug]), BuildJsonBody(env, RepositoryBody(ro)), fuel).value;
      r == if f.Err? then Err(f.error) else DecodeRepository(m, f.value)
  {
    var data := BuildRepositoryBody(env, ro);
    var urlStr := RequestUrl(env, "/repositories/%s/%s", [ro.owner, ro.repoSlug]);
    var response := Execute(c, env, "POST", urlStr, data, fuel);
    if response.Err? {
      return Err(response.error);
    }
    r := DecodeRepository(m, response.value);
  }

  /** `Get`. */
  method Get(c: Client, env: Env, m: Mappers, ro: RepositoryOptions, ghost fuel: nat) returns (r: Result<Repository>)
    requires Fetch(c, env, "GET", RequestUrl(env, "/repositories/%s/%s", [ro.owner, ro.repoSlug]), "", fuel).Some?
    ensures var f := Fetch(c, env, "GET", RequestUrl(env, "/repositories/%s/%s", [ro.owner, ro.repoSlug]), "", fuel).value;
      r == if f.Err? then Err(f.error) else DecodeRepository(m, f.value)
  {
    var urlStr := RequestUrl(env, "/repositories/%s/%s", [ro.owner, ro.repoSlug]);
    var response := Execute(c, env, "GET", urlStr, "", fuel);
    if response.Err? {
      return Err(response.error);
    }
    r := DecodeRepository(m, response.value);
  }

  /** The URL of a file listing: the joined path, formatted with no arguments. */
  function FilesUrl(env: Env, ro: RepositoryFilesOptions): string
  {
    RequestUrl(env, env.joinPath(["/repositories", ro.owner, ro.repoSlug, "src"]), [])
  }

  /** `ListFiles`. */
  method ListFiles(c: Client, env: Env, m: Mappers, ro: RepositoryFilesOptions, ghost fuel: nat)
    returns (r: Result<seq<RepositoryFile>>)
    requires Fetch(c, env, "GET", FilesUrl(env, ro), "", fuel).Some?
    ensures var f := Fetch(c, env, "GET", FilesUrl(env, ro), "", fuel).value;
      r == if f.Err? then Err(f.error) else DecodeRepositoryFiles(m, f.value)
  {
    var filePath := env.joinPath(["/repositories", ro.owner, ro.repoSlug, "src"]);
    var urlStr := RequestUrl(env, filePath, []);
    var response := Execute(c, env, "GET", urlStr, "", fuel);
    if response.Err? {
      return Err(response.error);
    }
    r := DecodeRepositoryFiles(m, response.value);
  }

  /** The URL of a file's content at a ref. */
  function BlobUrl(env: Env, ro: RepositoryBlobOptions): string
  {
    RequestUrl(env, env.joinPath(["/repositories", ro.owner, ro.repoSlug, "src", ro.ref, ro.path]), [])
  }

  /** `GetFileBlob`: the raw bytes, undecoded, as the blob's content. */
  method GetFileBlob(c: Client, env: Env, ro: RepositoryBlobOptions) returns (r: Result<RepositoryBlob>)
    ensures var f := FetchRaw(c, env, "GET", BlobUrl(env, ro), "");
      r == if f.Err? then Err(f.error) else Ok(RepositoryBlob(f.value))
  {
    var filePath := env.joinPath(["/repositories", ro.owner, ro.repoSlug, "src", ro.ref, ro.path]);
    var urlStr := RequestUrl(env, filePath, []);
    var response := ExecuteRaw(c, env, "GET", urlStr, "");
    if response.Err? {
      return Err(response.error);
    }
    var blob := RepositoryBlob(response.value);
    return Ok(blob);
  }

  /** The query of a listing, encoded. */
  function EncodedBranchQuery(env: Env, rbo: RepositoryBranchOptions): string
  {
    env.encodeQuery(BranchQuery(rbo))
  }

  /** The URL of the refs listing, with the encoded query. */
  function RefsUrl(env: Env, rbo: RepositoryBranchOptions): string
  {
    RequestUrl(env, "/repositories/%s/%s/refs?%s", [rbo.owner, rbo.repoSlug, EncodedBranchQuery(env, rbo)])
  }

  /** The URL of the branches listing, with the encoded query. */
  function BranchesUrl(env: Env, rbo: RepositoryBranchOptions): string
  {
    RequestUrl(env, "/repositories/%s/%s/refs/branches?%s", [rbo.owner, rbo.repoSlug, EncodedBranchQuery(env, rbo)])
  }

  /** `ListRefs`. */
  method ListRefs(c: Client, env: Env, m: Mappers, rbo: RepositoryBranchOptions) returns (r: Result<RepositoryBranches>)
    ensures var f := FetchRaw(c, env, "GET", RefsUrl(env, rbo), "");
      r == if f.Err? then Err(f.error) else BranchesOf(env, m, f.value)
  {
    var params := BranchParams(rbo);
    var urlStr := RequestUrl(env, "/repositories/%s/%s/refs?%s", [rbo.owner, rbo.repoSlug, env.encodeQuery(params)]);
    var response := ExecuteRaw(c, env, "GET", urlStr, "");
    if response.Err? {
      return Err(response.error);
    }
    r := DecodeRepositoryBranches(env, m, response.value);
  }

  /** `executeRaw` rewrites the listing's `pagelen`: whatever page length
      the options ask for, a listing requests the client's page length. */
  lemma ListingPagelenOverridden(c: Client, env: Env, rbo: RepositoryBranchOptions, u: Url)
    requires Reparses(env)
    requires Contains(RefsUrl(env, rbo), REPOSITORIES_SEGMENT)
    requires env.parseUrl(RefsUrl(env, rbo)) == Some(u)
    ensures RawRequest(c, env, "GET", RefsUrl(env, rbo), "").Ok?
    ensures var sent := RawRequest(c, env, "GET", RefsUrl(env, rbo), "").value;
      env.parseUrl(sent.url) == Some(Url(u.location, u.query["pagelen" := Decimal(c.pagelen)]))
  {
  }

  /** `ListBranches`. */
  method ListBranches(c: Client, env: Env, m: Mappers, rbo: RepositoryBranchOptions) returns (r: Result<RepositoryBranches>)
    ensures var f := FetchRaw(c, env, "GET", BranchesUrl(env, rbo), "");
      r == if f.Err? then Err(f.error) else BranchesOf(env, m, f.value)
  {
    var params := BranchParams(rbo);
    var urlStr := RequestUrl(env, "/repositories/%s/%s/refs/branches?%s", [rbo.owner, rbo.repoSlug, env.encodeQuery(params)]);
    var response := ExecuteRaw(c, env, "GET", urlStr, "");
    if response.Err? {
      return Err(response.error);
    }
    r := DecodeRepositoryBranches(env, m, response.value);
  }

  /** `Delete`: whatever `execute` gives. */
  method Delete(c: Client, env: Env, ro: RepositoryOptions, ghost fuel: nat) returns (r: Result<Json>)
    requires Fetch(c, env, "DELETE", RequestUrl(env, "/repositories/%s/%s", [ro.owner, ro.repoSlug]), "", fuel).Some?
    ensures Fetch(c, env, "DELETE", RequestUrl(env, "/repositories/%s/%s", [ro.owner, ro.repoSlug]), "", fuel) == Some(r)
  {
    var urlStr := RequestUrl(env, "/repositories/%s/%s", [ro.owner, ro.repoSlug]);
    r := Execute(c, env, "DELETE", urlStr, "", fuel);
  }

  /** `ListWatchers`: whatever `execute` gives. */
  method ListWatchers(c: Client, env: Env, ro: RepositoryOptions, ghost fuel: nat) returns (r: Result<Json>)
    requires Fetch(c, env, "GET", RequestUrl(env, "/repositories/%s/%s/watchers", [ro.owner, ro.repoSlug]), "", fuel).Some?
    ensures Fetch(c, env, "GET", RequestUrl(env, "/repositories/%s/%s/watchers", [ro.owner, ro.repoSlug]), "", fuel) == Some(r)
  {
    var urlStr := RequestUrl(env, "/repositories/%s/%s/watchers", [ro.owner, ro.repoSlug]);
    r := Execute(c, env, "GET", urlStr, "", fuel);
  }

  /** `ListForks`: whatever `execute` gives. */
  method ListForks(c: Client, env: Env, ro: RepositoryOptions, ghost fuel: nat) returns (r: Result<Json>)
    requires Fetch(c, env, "GET", RequestUrl(env, "/repositories/%s/%s/forks", [ro.owner, ro.repoSlug]), "", fuel).Some?
    ensures Fetch(c, env, "GET", RequestUrl(env, "/repositories/%s/%s/forks", [ro.owner, ro.repoSlug]), "", fuel) == Some(r)
  {
    var urlStr := RequestUrl(env, "/repositories/%s/%s/forks", [ro.owner, ro.repoSlug]);
    r := Execute(c, env, "GET", urlStr, "", fuel);
  }

  /** `UpdatePipelineConfig`. */
  method UpdatePipelineConfig(c: Client, env: Env, m: Mappers, rpo: RepositoryPipelineOptions, ghost fuel: nat)
    returns (r: Result<Pipeline>)
    requires Fetch(c, env, "PUT", RequestUrl(env, "/repositories/%s/%s/pipelines_config", [rpo.owner, rpo.repoSlug]),
                   BuildJsonBody(env, PipelineBody(rpo)), fuel).Some?
    ensures var f := Fetch(c, env, "PUT", RequestUrl(env, "/repositories/%s/%s/pipelines_config", [rpo.owner, rpo.repoSlug]),
                           BuildJsonBody(env, PipelineBody(rpo)), fuel).value;
      r == if f.Err? then Err(f.error) else DecodePipelineRepository(m, f.value)
  {
    var data := BuildPipelineBody(env, rpo);
    var urlStr := RequestUrl(env, "/repositories/%s/%s/pipelines_config", [rpo.owner, rpo.repoSlug]);
    var response := Execute(c, env, "PUT", urlStr, data, fuel);
    if response.Err? {
      return Err(response.error);
    }
    r := DecodePipelineRepository(m, response.value);
  }

  /** `AddPipelineVariable`. */
  method AddPipelineVariable(c: Client, env: Env, m: Mappers, rpvo: RepositoryPipelineVariableOptions, ghost fuel: nat)
    returns (r: Result<PipelineVariable>)
    requires Fetch(c, env, "POST", RequestUrl(env, "/repositories/%s/%s/pipelines_config/variables/", [rpvo.owner, rpvo.repoSlug]),
                   BuildJsonBody(env, PipelineVariableBody(rpvo)), fuel).Some?
    ensures var f := Fetch(c, env, "POST", RequestUrl(env, "/repositories/%s/%s/pipelines_config/variables/", [rpvo.owner, rpvo.repoSlug]),
                           BuildJsonBody(env, PipelineVariableBody(rpvo)), fuel).value;
      r == if f.Err? then Err(f.error) else DecodePipelineVariableRepository(m, f.value)
  {
    var data := BuildPipelineVariableBody(env, rpvo);
    var urlStr := RequestUrl(env, "/repositories/%s/%s/pipelines_config/variables/", [rpvo.owner, rpvo.repoSlug]);
    var response := Execute(c, env, "POST", urlStr, data, fuel);
    if response.Err? {
      return Err(response.error);
    }
    r := DecodePipelineVariableRepository(m, response.value);
  }

  /** `AddPipelineKeyPair`. */
  method AddPipelineKeyPair(c: Client, env: Env, m: Mappers, rpkpo: RepositoryPipelineKeyPairOptions, ghost fuel: nat)
    returns (r: Result<PipelineKeyPair>)
    requires Fetch(c, env, "PUT", RequestUrl(env, "/repositories/%s/%s/pipelines_config/ssh/key_pair", [rpkpo.owner, rpkpo.repoSlug]),
                   BuildJsonBody(env, PipelineKeyPairBody(rpkpo)), fuel).Some?
    ensures var f := Fetch(c, env, "PUT", RequestUrl(env, "/repositories/%s/%s/pipelines_config/ssh/key_pair", [rpkpo.owner, rpkpo.repoSlug]),
                           BuildJsonBody(env, PipelineKeyPairBody(rpkpo)), fuel).value;
      r == if f.Err? then Err(f.error) else DecodePipelineKeyPairRepository(m, f.value)
  {
    var data := BuildPipelineKeyPairBody(env, rpkpo);
    var urlStr := RequestUrl(env, "/repositories/%s/%s/pipelines_config/ssh/key_pair", [rpkpo.owner, rpkpo.repoSlug]);
    var response := Execute(c, env, "PUT", urlStr, data, fuel);
    if response.Err? {
      return Err(response.error);
    }
    r := DecodePipelineKeyPairRepository(m, response.value);
  }
}
