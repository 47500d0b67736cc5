/** `SearchAppApi`: the client of the indexing sink. What is modelled is the
    constructor's validation and defaulting, the URLs it builds, and how the
    HTTP status of a request decides between returning and raising. */
module Api {
  import opened Wrappers
  import Config

  /** The exceptions the client raises. */
  datatype ApiError =
    | NoCustomerKey               // SearchAppIndexException('No customer key provided')
    | NoAppName                   // SearchAppIndexException('No app name provided')
    | ConfigFailure(e: Config.ConfigError)
    | IndexRejected(status: int)  // SearchAppIndexException from do_post
    | ReasonNotCallable           // TypeError from init_schema: `req.reason()` calls a string

  /** A constructed client. The keys are kept as given, `None` included. */
  datatype SearchAppApi = SearchAppApi(baseUrl: string, schema: string, searchKey: Option<string>, appKey: Option<string>)

  /** Python truth of an optional string: present and non-empty. */
  predicate Truthy(s: Option<string>)
  {
    s.Some? && s.value != ""
  }

  /** `base_url` or `schema` as the constructor resolves it: the argument when
      it is truthy, otherwise the configured value, whose lookup may raise. */
  function Defaulted(arg: Option<string>, configured: Result<string, Config.ConfigError>): (r: Result<string, ApiError>)
    ensures Truthy(arg) ==> r == Ok(arg.value)
    ensures !Truthy(arg) && configured.Ok? ==> r == Ok(configured.value)
    ensures !Truthy(arg) && configured.Err? ==> r == Err(ConfigFailure(configured.error))
  {
    if Truthy(arg) then Ok(arg.value)
    else match configured
      case Ok(v) => Ok(v)
      case Err(e) => Err(ConfigFailure(e))
  }

  /** `SearchAppApi.__init__(search_key, app_key, base_url, schema)`, with
      `defaults` the configuration the module loads at import time. The key
      test is `not search_key or app_key`: its inner `not app_key` check can
      only be reached when `app_key` is truthy, so it never fires. */
  function NewSearchAppApi(searchKey: Option<string>, appKey: Option<string>, baseUrl: Option<string>,
                           schema: Option<string>, defaults: Config.FSConfig): (r: Result<SearchAppApi, ApiError>)
    ensures r == Err(NoCustomerKey) <==> !Truthy(searchKey)
    ensures r != Err(NoAppName)
    ensures r.Ok? ==> r.value.searchKey == searchKey && r.value.appKey == appKey
    ensures r.Ok? ==> Defaulted(baseUrl, Config.BaseUrl(defaults)) == Ok(r.value.baseUrl)
    ensures r.Ok? ==> Defaulted(schema, Config.Schema(defaults)) == Ok(r.value.schema)
    ensures Truthy(searchKey) ==>
      (r.Ok? <==> Defaulted(baseUrl, Config.BaseUrl(defaults)).Ok? && Defaulted(schema, Config.Schema(defaults)).Ok?)
  {
    if !Truthy(searchKey) || Truthy(appKey) then
      if !Truthy(searchKey) then Err(NoCustomerKey)
      else if !Truthy(appKey) then Err(NoAppName)
      else Build(searchKey, appKey, baseUrl, schema, defaults)
    else Build(searchKey, appKey, baseUrl, schema, defaults)
  }

  /** The part of the constructor after the key checks. */
  function Build(searchKey: Option<string>, appKey: Option<string>, baseUrl: Option<string>,
                 schema: Option<string>, defaults: Config.FSConfig): Result<SearchAppApi, ApiError>
  {
    match Defaulted(baseUrl, Config.BaseUrl(defaults))
    case Err(e) => Err(e)
    case Ok(url) =>
      match Defaulted(schema, Config.Schema(defaults))
      case Err(e) => Err(e)
      case Ok(s) => Ok(SearchAppApi(url, s, searchKey, appKey))
  }

  /** An empty application key is accepted as long as the search key is
      given and the URL and schema resolve. */
  lemma EmptyAppKeyAccepted(searchKey: string, baseUrl: string, schema: string, defaults: Config.FSConfig)
    requires searchKey != "" && baseUrl != "" && schema != ""
    ensures NewSearchAppApi(Some(searchKey), Some(""), Some(baseUrl), Some(schema), defaults)
            == Ok(SearchAppApi(baseUrl, schema, Some(searchKey), Some("")))
  {
  }

  /** `get_real_app_name`: the application name is fixed. */
  function GetRealAppName(api: SearchAppApi): string
  {
    "default"
  }

  /** `get_index_url`: `{base_url}/_search/{real_app}/{schema}`. */
  function GetIndexUrl(api: SearchAppApi): string
  {
    api.baseUrl + "/_search/" + GetRealAppName(api) + "/" + api.schema
  }

  /** The mapping endpoint of `init_schema`: `{base_url}/_search/default/_mapping/{schema}`. */
  function InitSchemaEndpoint(api: SearchAppApi): string
  {
    api.baseUrl + "/_search/default/_mapping/" + api.schema
  }

  /** The index URL is `{base_url}/_search/default/{schema}`: the application
      segment is always `default`. */
  lemma {:induction false} IndexUrlLayout(api: SearchAppApi)
    ensures GetIndexUrl(api) == api.baseUrl + "/_search/default/" + api.schema
  {
    assert api.baseUrl + "/_search/" + "default" + "/" == api.baseUrl + "/_search/default/";
  }

  /** The mapping endpoint sits under the same `{base_url}/_search/default/`
      prefix as the index URL, with `_mapping/` before the schema, so the two
      never coincide. */
  lemma {:induction false} SchemaEndpointLayout(api: SearchAppApi)
    ensures InitSchemaEndpoint(api) == api.baseUrl + "/_search/default/" + "_mapping/" + api.schema
    ensures InitSchemaEndpoint(api) != GetIndexUrl(api)
  {
    assert api.baseUrl + "/_search/default/_mapping/" == api.baseUrl + "/_search/default/" + "_mapping/";
    IndexUrlLayout(api);
    assert |InitSchemaEndpoint(api)| == |GetIndexUrl(api)| + 9;
  }

  /** For one location, the index URL determines the schema. */
  lemma {:induction false} IndexUrlDeterminesSchema(a: SearchAppApi, b: SearchAppApi)
    requires a.baseUrl == b.baseUrl
    requires GetIndexUrl(a) == GetIndexUrl(b)
    ensures a.schema == b.schema
  {
    IndexUrlLayout(a);
    IndexUrlLayout(b);
    var prefix := a.baseUrl + "/_search/default/";
    assert GetIndexUrl(a)[|prefix|..] == a.schema;
    assert GetIndexUrl(b)[|prefix|..] == b.schema;
  }

  /** `init_schema` once the request is answered: 200 returns; any other
      status reaches `req.reason()`, which calls a string and raises
      `TypeError` before the intended `RequestException` is built. */
  function InitSchemaResult(status: int): (r: Outcome<ApiError>)
    ensures r.Pass? <==> status == 200
    ensures r.Fail? ==> r.error == ReasonNotCallable
  {
    if status != 200 then Fail(ReasonNotCallable) else Pass
  }

  /** One `do_post(filename, mimetype, owner, modified, perms, size)` call, and
      the index URL it goes to. */
  datatype Post = Post(url: string, filename: string, mimetype: Option<string>, owner: string,
                       modified: int, perms: string, size: nat)

  /** The `do_post` call itself. */
  function PostFor(api: SearchAppApi, filename: string, mimetype: Option<string>, owner: string,
                   modified: int, perms: string, size: nat): (p: Post)
    ensures p.url == GetIndexUrl(api) && p.filename == filename && p.mimetype == mimetype
    ensures p.owner == owner && p.modified == modified && p.perms == perms && p.size == size
  {
    Post(GetIndexUrl(api), filename, mimetype, owner, modified, perms, size)
  }

  /** `do_post` once the sink answers: it raises `SearchAppIndexException`
      exactly when the status is not 200. */
  function DoPostResult(status: int): (r: Outcome<ApiError>)
    ensures r.Pass? <==> status == 200
    ensures r.Fail? ==> r.error == IndexRejected(status)
  {
    if status != 200 then Fail(IndexRejected(status)) else Pass
  }
}
