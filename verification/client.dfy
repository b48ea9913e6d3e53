/** The request builder of the DigiCert client (`DigicertClient`, without
    `execute`). The builder is an immutable record; each operation returns the
    updated builder, which stands for the `$this` the PHP methods mutate and
    return for chaining. */
module Client {
  import opened Wrappers
  import opened Text
  import opened PhpValue
  import opened OrderedMap
  import Json
  import Dates

  const DefaultBaseUrl: string := "https://www.digicert.com/services/v2"
  const ApiKeyHeader: string := "X-DC-DEVKEY"
  const ContentTypeHeader: string := "Content-Type"
  const JsonContentType: string := "application/json"
  const ReportQueryPath: string := "reports/query"
  /** The JSON body field that carries the GraphQL fragments. */
  const QueryField: string := "query"

  /** A Laravel configuration entry: missing, or present with a string or null. */
  datatype Setting = Absent | Present(value: Option<string>)

  /** `config(key, default)`: the stored value when the key exists (even a
      stored null), otherwise the default. */
  function ConfigGet(s: Setting, default: Option<string>): Option<string> {
    match s
    case Absent => default
    case Present(v) => v
  }

  /** The `digicert.api_key` and `digicert.url` configuration entries. */
  datatype Config = Config(apiKey: Setting, url: Setting)

  datatype ClientError =
    | MissingApiKey     // MissingApiKeyException from the constructor
    | BaseUrlNotString  // a null base URL assigned to the `string $apiBaseUrl` property
    | NoEndpoint        // `requestUri` read before `endpoint` initialised it

  /** A filter value or query argument: a Carbon date or a PHP scalar. */
  datatype Argument = Moment(date: Dates.Date) | Plain(value: Value)

  /** The request URI and method set by `endpoint`. */
  datatype Target = Target(uri: string, httpMethod: string)

  /** The builder state. `parameters` and `json` are the nullable PHP arrays:
      an empty sequence stands for the unset property, since no operation
      removes an entry once one is added. */
  datatype Client = Client(
    baseUrl: string,
    headers: Entries<string>,
    parameters: Entries<Value>,
    queries: seq<string>,
    json: Entries<Value>,
    target: Option<Target>)

  /** What `buildRequest` leaves for the transport: method, URI and the
      `headers` and (when present) `json` request options. */
  datatype Request = Request(httpMethod: string, uri: string, headers: Entries<string>, json: Option<Entries<Value>>)

  /** The builder after `buildRequest` together with the request it describes. */
  datatype Built = Built(client: Client, request: Request)

  /** The client constructor. The API key header prefers the explicit key over
      the configured one, although the presence check reads the configuration
      first and falls back to the explicit key. */
  function New(apiBaseUrl: Option<string>, apiKey: Option<string>, config: Config): (r: Result<Client, ClientError>)
    ensures r.Success? <==>
      Truthy(ConfigGet(config.apiKey, apiKey)) && (apiBaseUrl.Some? || ConfigGet(config.url, Some(DefaultBaseUrl)).Some?)
    ensures r.Failure? ==> r.error == MissingApiKey || r.error == BaseUrlNotString
    ensures r == Failure(MissingApiKey) <==> !Truthy(ConfigGet(config.apiKey, apiKey))
    ensures r == Failure(BaseUrlNotString) <==>
      Truthy(ConfigGet(config.apiKey, apiKey)) && apiBaseUrl.None? && ConfigGet(config.url, Some(DefaultBaseUrl)).None?
    ensures r.Success? ==>
      && Keys(r.value.headers) == [ApiKeyHeader, ContentTypeHeader]
      && Get(r.value.headers, ApiKeyHeader) == (if apiKey.Some? then apiKey else ConfigGet(config.apiKey, None))
      && Get(r.value.headers, ContentTypeHeader) == Some(JsonContentType)
      && Some(r.value.baseUrl) == (if apiBaseUrl.Some? then apiBaseUrl else ConfigGet(config.url, Some(DefaultBaseUrl)))
      && r.value.parameters == [] && r.value.queries == [] && r.value.json == [] && r.value.target == None
  {
    if !Truthy(ConfigGet(config.apiKey, apiKey)) then Failure(MissingApiKey)
    else
      var key := if apiKey.Some? then apiKey.value else ConfigGet(config.apiKey, None).value;
      var blank := Client("", [], [], [], [], None);
      var c := AddHeader(AddHeader(blank, ApiKeyHeader, key), ContentTypeHeader, JsonContentType);
      var url := if apiBaseUrl.Some? then apiBaseUrl else ConfigGet(config.url, Some(DefaultBaseUrl));
      if url.None? then Failure(BaseUrlNotString) else Success(c.(baseUrl := url.value))
  }

  /** `addHeader`: sets one header, last write wins. */
  function AddHeader(c: Client, name: string, value: string): (r: Client)
    ensures Get(r.headers, name) == Some(value)
    ensures forall n :: n != name ==> Get(r.headers, n) == Get(c.headers, n)
    ensures Keys(r.headers) == if name in Keys(c.headers) then Keys(c.headers) else Keys(c.headers) + [name]
    ensures r == c.(headers := r.headers)
  {
    c.(headers := Put(c.headers, name, value))
  }

  /** The text a boolean parameter is stored as. */
  function BoolText(b: bool): string {
    if b then "true" else "false"
  }

  /** `addParameter`: booleans become "true"/"false", anything else is kept. */
  function AddParameter(c: Client, name: string, value: Value): (r: Client)
    ensures value.Bool? ==> Get(r.parameters, name) == Some(Str(BoolText(value.b)))
    ensures !value.Bool? ==> Get(r.parameters, name) == Some(value)
    ensures forall n :: n != name ==> Get(r.parameters, n) == Get(c.parameters, n)
    ensures Keys(r.parameters) == if name in Keys(c.parameters) then Keys(c.parameters) else Keys(c.parameters) + [name]
    ensures name in Keys(c.parameters) ==>
      forall i :: 0 <= i < |c.parameters| && c.parameters[i].0 != name ==> r.parameters[i] == c.parameters[i]
    ensures r == c.(parameters := r.parameters)
  {
    var stored := if value.Bool? then Str(BoolText(value.b)) else value;
    c.(parameters := Put(c.parameters, name, stored))
  }

  /** The parameter key a filter is stored under. */
  function FilterKey(name: string): string {
    "filters[" + name + "]"
  }

  /** A closed date range as a filter writes it. */
  function DateRange(from: Dates.Date, to: Dates.Date): string {
    Dates.FilterFormat(from) + "..." + Dates.FilterFormat(to)
  }

  /** `addFilter`: a date is formatted, and joined with a second date when one
      is given; a second date next to a non-date value is ignored; a truthy
      operator is prepended, by string conversion, to whatever results. */
  function AddFilter(c: Client, name: string, value: Argument, value2: Option<Dates.Date>, operator: Option<string>): (r: Client)
    ensures value.Moment? && value2.Some? && !Truthy(operator) ==>
      Get(r.parameters, FilterKey(name)) == Some(Str(DateRange(value.date, value2.value)))
    ensures value.Moment? && value2.None? && !Truthy(operator) ==>
      Get(r.parameters, FilterKey(name)) == Some(Str(Dates.FilterFormat(value.date)))
    ensures value.Moment? && value2.Some? && Truthy(operator) ==>
      Get(r.parameters, FilterKey(name)) == Some(Str(operator.value + DateRange(value.date, value2.value)))
    ensures value.Moment? && value2.None? && Truthy(operator) ==>
      Get(r.parameters, FilterKey(name)) == Some(Str(operator.value + Dates.FilterFormat(value.date)))
    ensures value.Plain? && !Truthy(operator) ==> r == AddParameter(c, FilterKey(name), value.value)
    ensures value.Plain? && Truthy(operator) ==>
      Get(r.parameters, FilterKey(name)) == Some(Str(operator.value + ToStr(value.value)))
    ensures forall n :: n != FilterKey(name) ==> Get(r.parameters, n) == Get(c.parameters, n)
    ensures Keys(r.parameters) == if FilterKey(name) in Keys(c.parameters) then Keys(c.parameters) else Keys(c.parameters) + [FilterKey(name)]
    ensures FilterKey(name) in Keys(c.parameters) ==>
      forall i :: 0 <= i < |c.parameters| && c.parameters[i].0 != FilterKey(name) ==> r.parameters[i] == c.parameters[i]
    ensures r == c.(parameters := r.parameters)
  {
    var base: Value := match value
      case Moment(d) =>
        Str(if value2.Some? then DateRange(d, value2.value) else Dates.FilterFormat(d))
      case Plain(v) => v;
    var prefixed := if Truthy(operator) then Str(operator.value + ToStr(base)) else base;
    AddParameter(c, FilterKey(name), prefixed)
  }

  /** The alias a fragment gets when none is given. */
  function AutoAlias(functionName: string, ordinal: nat): string {
    functionName + "_" + NatToString(ordinal)
  }

  /** `key:` followed by the JSON encoding of the argument; a date is first
      formatted with the query date format. */
  function RenderArgument(key: string, value: Argument): string {
    var v := match value
      case Moment(d) => Str(Dates.QueryFormat(d))
      case Plain(p) => p;
    key + ":" + Json.Encode(v)
  }

  function RenderArguments(args: seq<(string, Argument)>): (rs: seq<string>)
    ensures |rs| == |args|
  {
    seq(|args|, i requires 0 <= i < |args| => RenderArgument(args[i].0, args[i].1))
  }

  /** A fragment without its alias: `function(args){fields}`. */
  function Call(functionName: string, args: seq<(string, Argument)>, fields: seq<string>): string {
    functionName + "(" + Join(",", RenderArguments(args)) + "){" + Join(",", fields) + "}"
  }

  /** `addQuery`: appends one fragment. Because `.` binds tighter than `??`
      in the source, only the generated alias is followed by ": "; an explicit
      alias is written directly in front of the function name. */
  function AddQuery(c: Client, functionName: string, args: seq<(string, Argument)>, fields: seq<string>, alias: Option<string>): (r: Client)
    ensures |r.queries| == |c.queries| + 1
    ensures r.queries[..|c.queries|] == c.queries
    ensures alias.None? ==>
      r.queries[|c.queries|] == AutoAlias(functionName, |c.queries|) + ": " + Call(functionName, args, fields)
    ensures alias.Some? ==> r.queries[|c.queries|] == alias.value + Call(functionName, args, fields)
    ensures r == c.(queries := r.queries)
  {
    var head := if alias.Some? then alias.value else AutoAlias(functionName, |c.queries|) + ": ";
    c.(queries := c.queries + [head + Call(functionName, args, fields)])
  }

  /** `addJsonParam`: sets one field of the JSON body, last write wins. */
  function AddJsonParam(c: Client, name: string, value: Value): (r: Client)
    ensures Get(r.json, name) == Some(value)
    ensures forall n :: n != name ==> Get(r.json, n) == Get(c.json, n)
    ensures Keys(r.json) == if name in Keys(c.json) then Keys(c.json) else Keys(c.json) + [name]
    ensures name in Keys(c.json) ==>
      forall i :: 0 <= i < |c.json| && c.json[i].0 != name ==> r.json[i] == c.json[i]
    ensures r == c.(json := r.json)
  {
    c.(json := Put(c.json, name, value))
  }

  /** Drops the leading run of '/' characters. */
  function StripLeadingSlashes(s: string): (t: string)
    ensures |t| <= |s| && t == s[|s| - |t|..]
    ensures forall i :: 0 <= i < |s| - |t| ==> s[i] == '/'
    ensures |t| == 0 || t[0] != '/'
  {
    if |s| > 0 && s[0] == '/' then StripLeadingSlashes(s[1..]) else s
  }

  /** Laravel's `Str::start(path, '/')`: exactly one leading '/'. */
  function StartWithSlash(path: string): (p: string)
    ensures |p| >= 1 && p[0] == '/'
    ensures |p| == 1 || p[1] != '/'
    ensures |p| - 1 <= |path| && p[1..] == path[|path| - (|p| - 1)..]
    ensures forall i :: 0 <= i < |path| - (|p| - 1) ==> path[i] == '/'
  {
    "/" + StripLeadingSlashes(path)
  }

  /** `endpoint`: the URI is the base URL followed by the slash-led path. */
  function Endpoint(c: Client, path: string, httpMethod: string := "GET"): (r: Client)
    ensures r.target.Some?
    ensures r.target.value.httpMethod == httpMethod
    ensures r.target.value.uri == c.baseUrl + StartWithSlash(path)
    ensures r == c.(target := r.target)
  {
    c.(target := Some(Target(c.baseUrl + StartWithSlash(path), httpMethod)))
  }

  /** `startQuery`: a POST to the reporting query endpoint. */
  function StartQuery(c: Client): (r: Client)
    ensures r.target == Some(Target(c.baseUrl + "/reports/query", "POST"))
    ensures r == c.(target := r.target)
  {
    assert StripLeadingSlashes(ReportQueryPath) == ReportQueryPath by {
      assert ReportQueryPath[0] == 'r';
    }
    assert StartWithSlash(ReportQueryPath) == "/reports/query";
    Endpoint(c, ReportQueryPath, "POST")
  }

  /** The `name=value` pairs of the query string, in key order, unencoded. */
  function QueryPairs(params: Entries<Value>): (ps: seq<string>)
    ensures |ps| == |params|
  {
    seq(|params|, i requires 0 <= i < |params| => params[i].0 + "=" + ToStr(params[i].1))
  }

  function QueryString(params: Entries<Value>): string {
    Join("&", QueryPairs(params))
  }

  /** The `query` JSON field: all fragments, comma-joined, in braces. */
  function QueryBody(queries: seq<string>): string {
    "{" + Join(",", queries) + "}"
  }

  /** `buildRequest`: appends the query string unless the URI already has a
      '?', synthesises the `query` JSON field from the fragments, and
      attaches the headers and the JSON body when it has any field. */
  function Build(c: Client): (r: Result<Built, ClientError>)
    ensures r.Success? <==> c.target.Some?
    ensures r.Failure? ==> r.error == NoEndpoint
    ensures r.Success? ==> r.value.request.httpMethod == c.target.value.httpMethod
    ensures r.Success? ==> r.value.request.headers == c.headers
    ensures r.Success? && |c.parameters| > 0 && '?' !in c.target.value.uri ==>
      r.value.request.uri == c.target.value.uri + "?" + QueryString(c.parameters)
    ensures r.Success? && (|c.parameters| == 0 || '?' in c.target.value.uri) ==>
      r.value.request.uri == c.target.value.uri
    ensures r.Success? && |c.queries| > 0 ==>
      Get(r.value.client.json, QueryField) == Some(Str(QueryBody(c.queries)))
    ensures r.Success? ==> forall n :: n != QueryField ==> Get(r.value.client.json, n) == Get(c.json, n)
    ensures r.Success? && |c.queries| > 0 ==>
      Keys(r.value.client.json) == if QueryField in Keys(c.json) then Keys(c.json) else Keys(c.json) + [QueryField]
    ensures r.Success? && |c.queries| > 0 && QueryField in Keys(c.json) ==>
      forall i :: 0 <= i < |c.json| && c.json[i].0 != QueryField ==> r.value.client.json[i] == c.json[i]
    ensures r.Success? && |c.queries| == 0 ==> r.value.client.json == c.json
    ensures r.Success? ==> (r.value.request.json.Some? <==> |c.json| > 0 || |c.queries| > 0)
    ensures r.Success? && r.value.request.json.Some? ==> r.value.request.json.value == r.value.client.json
    ensures r.Success? ==>
      r.value.client == c.(target := Some(Target(r.value.request.uri, r.value.request.httpMethod)), json := r.value.client.json)
  {
    match c.target
    case None => Failure(NoEndpoint)
    case Some(t) =>
      var uri := if |c.parameters| > 0 && '?' !in t.uri then t.uri + "?" + QueryString(c.parameters) else t.uri;
      var c' := if |c.queries| > 0 then AddJsonParam(c, QueryField, Str(QueryBody(c.queries))) else c;
      var built := c'.(target := Some(Target(uri, t.httpMethod)));
      Success(Built(built, Request(t.httpMethod, uri, c.headers, if |c'.json| > 0 then Some(c'.json) else None)))
  }
}
