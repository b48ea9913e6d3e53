/** Properties that relate several builder operations or calls: idempotence
    of `buildRequest`, the inverse of the query-string and date-range
    encodings, uniqueness of generated aliases, and the invariant every
    operation keeps. */
module ClientProperties {
  import opened Wrappers
  import opened Text
  import opened PhpValue
  import opened OrderedMap
  import Dates
  import Json
  import opened Client

  /** Building twice with nothing in between yields the same request and
      leaves the builder as the first build left it: the query string is not
      appended twice and the `query` field is rewritten with the same text. */
  lemma BuildIdempotent(c: Client)
    requires c.target.Some?
    ensures Build(c).Success?
    ensures Build(Build(c).value.client) == Build(c)
  {
    var b := Build(c).value;
    var c' := b.client;
    var t := c.target.value;
    if |c.parameters| > 0 && '?' !in t.uri {
      var u := t.uri + "?" + QueryString(c.parameters);
      assert u[|t.uri|] == '?';
    }
    if |c.queries| > 0 {
      PutSameValue(c'.json, QueryField, Str(QueryBody(c.queries)));
    }
  }

  /** The pairs a query string is read back as: split at '&', then each part
      at its first '='. */
  function ParseQueryString(q: string): seq<Option<(string, string)>> {
    var parts := Split(q, '&');
    seq(|parts|, i requires 0 <= i < |parts| => SplitFirst(parts[i], '='))
  }

  /** The query string is written without encoding, so it reads back to the
      parameters, in key order, provided that no key holds '&' or '=' and no
      value holds '&'. */
  lemma QueryStringRoundTrip(params: Entries<Value>)
    requires |params| > 0
    requires forall i :: 0 <= i < |params| ==>
      '&' !in params[i].0 && '=' !in params[i].0 && '&' !in ToStr(params[i].1)
    ensures ParseQueryString(QueryString(params))
         == seq(|params|, i requires 0 <= i < |params| => Some((params[i].0, ToStr(params[i].1))))
  {
    var pairs := QueryPairs(params);
    forall i | 0 <= i < |pairs|
      ensures '&' !in pairs[i]
    {
      assert pairs[i] == params[i].0 + "=" + ToStr(params[i].1);
    }
    SplitJoin(pairs, '&');
    forall i | 0 <= i < |pairs|
      ensures SplitFirst(pairs[i], '=') == Some((params[i].0, ToStr(params[i].1)))
    {
      SplitFirstOfConcat(params[i].0, '=', ToStr(params[i].1));
      assert pairs[i] == params[i].0 + ['='] + ToStr(params[i].1);
    }
  }

  /** Generated aliases never collide: the alias determines both the function
      name and the ordinal, because the ordinal's digits hold no '_'. */
  lemma AutoAliasInjective(f1: string, n1: nat, f2: string, n2: nat)
    requires AutoAlias(f1, n1) == AutoAlias(f2, n2)
    ensures n1 == n2 && f1 == f2
  {
    var s := AutoAlias(f1, n1);
    var d1, d2 := NatToString(n1), NatToString(n2);
    assert '_' !in d1 && '_' !in d2 by {
      assert !IsDigit('_');
    }
    assert s == f1 + ['_'] + d1 == f2 + ['_'] + d2;
    LastIndexOfSeparator(f1, '_', d1);
    LastIndexOfSeparator(f2, '_', d2);
    assert d1 == s[|f1| + 1..] == d2;
    assert f1 == s[..|f1|] == f2;
    NatToStringInjective(n1, n2);
  }

  /** Two fragments added without an alias at different positions carry
      different aliases. */
  lemma AutoAliasesOfDistinctOrdinalsDiffer(f1: string, n1: nat, f2: string, n2: nat)
    requires n1 != n2
    ensures AutoAlias(f1, n1) != AutoAlias(f2, n2)
  {
    if AutoAlias(f1, n1) == AutoAlias(f2, n2) {
      AutoAliasInjective(f1, n1, f2, n2);
    }
  }

  lemma ExampleCallText()
    ensures Call("certificateOrders", [("container_id", Plain(Int(123)))], ["id", "status"])
         == "certificateOrders(container_id:123){id,status}"
  {
    assert NatToString(123) == NatToString(12) + "3";
    assert NatToString(12) == "12";
    assert Json.Encode(Int(123)) == "123";
    assert RenderArgument("container_id", Plain(Int(123))) == "container_id:123";
    assert RenderArguments([("container_id", Plain(Int(123)))]) == ["container_id:123"];
    assert Join(",", ["id", "status"]) == "id,status";
  }

  /** The first fragment added without an alias. */
  lemma ExampleFirstFragment(c: Client)
    requires |c.queries| == 0
    ensures AddQuery(c, "certificateOrders", [("container_id", Plain(Int(123)))], ["id", "status"], None).queries
         == ["certificateOrders_0: " + "certificateOrders(container_id:123){id,status}"]
  {
    ExampleCallText();
    assert AutoAlias("certificateOrders", 0) == "certificateOrders_0" by {
      assert NatToString(0) == "0";
    }
    var r := AddQuery(c, "certificateOrders", [("container_id", Plain(Int(123)))], ["id", "status"], None);
    assert r.queries[0] == "certificateOrders_0" + ": " + "certificateOrders(container_id:123){id,status}";
    assert "certificateOrders_0" + ": " == "certificateOrders_0: ";
    assert r.queries == [r.queries[0]];
  }

  /** An explicit alias is written straight in front of the function name. */
  lemma ExplicitAliasHasNoSeparator(c: Client, alias: string)
    ensures AddQuery(c, "orders", [], ["id"], Some(alias)).queries[|c.queries|] == alias + "orders(){id}"
  {
  }

  /** A second date next to a value that is not a date changes nothing. */
  lemma SecondDateIgnoredForScalars(c: Client, name: string, value: Value, value2: Dates.Date, operator: Option<string>)
    ensures AddFilter(c, name, Plain(value), Some(value2), operator) == AddFilter(c, name, Plain(value), None, operator)
  {
  }

  /** A truthy operator is prepended to exactly the text stored without it,
      for every value except a boolean. */
  lemma OperatorPrefixesFilter(c: Client, name: string, value: Argument, value2: Option<Dates.Date>, operator: string)
    requires Truthy(Some(operator))
    requires !(value.Plain? && value.value.Bool?)
    ensures var plain := Get(AddFilter(c, name, value, value2, None).parameters, FilterKey(name));
      plain.Some? &&
      Get(AddFilter(c, name, value, value2, Some(operator)).parameters, FilterKey(name)) == Some(Str(operator + ToStr(plain.value)))
  {
  }

  /** For a boolean the two paths disagree: without an operator it is stored as
      "true"/"false", with one it is converted by PHP's string cast to "1"/"". */
  lemma OperatorOnBooleanFilter(c: Client, name: string, b: bool, operator: string)
    requires Truthy(Some(operator))
    ensures Get(AddFilter(c, name, Plain(Bool(b)), None, None).parameters, FilterKey(name)) == Some(Str(BoolText(b)))
    ensures Get(AddFilter(c, name, Plain(Bool(b)), None, Some(operator)).parameters, FilterKey(name))
         == Some(Str(operator + if b then "1" else ""))
  {
  }

  /** Reads back a filter date range. */
  function ParseDateRange(s: string): Option<(Dates.Date, Dates.Date)> {
    if |s| == 49 && s[23..26] == "..." then
      match (Dates.ParseFilterFormat(s[..23]), Dates.ParseFilterFormat(s[26..]))
      case (Some(a), Some(b)) => Some((a, b))
      case _ => None
    else None
  }

  /** A filter date range of two range-checked dates reads back to the two dates. */
  lemma DateRangeRoundTrip(from: Dates.Date, to: Dates.Date)
    requires Dates.InFormatRange(from) && Dates.InFormatRange(to)
    ensures ParseDateRange(DateRange(from, to)) == Some((from, to))
  {
    Dates.ParseFilterFormatOfFilterFormat(from);
    Dates.ParseFilterFormatOfFilterFormat(to);
    var a, b := Dates.FilterFormat(from), Dates.FilterFormat(to);
    var s := DateRange(from, to);
    assert s == a + "..." + b;
    assert s[..23] == a;
    assert s[23..26] == "...";
    assert s[26..] == b;
  }

  /** Normalising a path a second time changes nothing. */
  lemma StartWithSlashIdempotent(path: string)
    ensures StartWithSlash(StartWithSlash(path)) == StartWithSlash(path)
  {
    var p := StartWithSlash(path);
    assert StripLeadingSlashes(p) == StripLeadingSlashes(p[1..]);
    assert StripLeadingSlashes(p[1..]) == p[1..];
  }

  /** A path without a leading '/' just gets one. */
  lemma StartWithSlashPrepends(path: string)
    requires |path| == 0 || path[0] != '/'
    ensures StartWithSlash(path) == "/" + path
  {
  }

  /** One builder call. */
  datatype Op =
    | SetHeader(name: string, text: string)
    | SetParameter(name: string, value: Value)
    | SetFilter(name: string, arg: Argument, arg2: Option<Dates.Date>, operator: Option<string>)
    | AppendQuery(functionName: string, args: seq<(string, Argument)>, fields: seq<string>, alias: Option<string>)
    | SetJsonParam(name: string, value: Value)
    | SetEndpoint(path: string, httpMethod: string)
    | BeginQuery
    | Finalize

  /** The builder after one call; a build without an endpoint fails and
      leaves the builder as it was. */
  function Apply(c: Client, op: Op): Client {
    match op
    case SetHeader(n, t) => AddHeader(c, n, t)
    case SetParameter(n, v) => AddParameter(c, n, v)
    case SetFilter(n, a, a2, o) => AddFilter(c, n, a, a2, o)
    case AppendQuery(f, a, fs, al) => AddQuery(c, f, a, fs, al)
    case SetJsonParam(n, v) => AddJsonParam(c, n, v)
    case SetEndpoint(p, m) => Endpoint(c, p, m)
    case BeginQuery => StartQuery(c)
    case Finalize =>
      match Build(c)
      case Success(b) => b.client
      case Failure(_) => c
  }

  function Perform(c: Client, ops: seq<Op>): Client
    decreases |ops|
  {
    if |ops| == 0 then c else Perform(Apply(c, ops[0]), ops[1..])
  }

  /** What every reachable builder satisfies: each PHP array has distinct
      keys, the two constructor headers stay first and in order, and no
      parameter holds a boolean. */
  predicate Inv(c: Client) {
    && DistinctKeys(c.headers) && DistinctKeys(c.parameters) && DistinctKeys(c.json)
    && |c.headers| >= 2 && c.headers[0].0 == ApiKeyHeader && c.headers[1].0 == ContentTypeHeader
    && forall i :: 0 <= i < |c.parameters| ==> !c.parameters[i].1.Bool?
  }

  lemma NewEstablishesInv(apiBaseUrl: Option<string>, apiKey: Option<string>, config: Config)
    requires New(apiBaseUrl, apiKey, config).Success?
    ensures Inv(New(apiBaseUrl, apiKey, config).value)
  {
    var c := New(apiBaseUrl, apiKey, config).value;
    assert Keys(c.headers)[0] == c.headers[0].0;
    assert Keys(c.headers)[1] == c.headers[1].0;
  }

  lemma HeadersStayFirst(c: Client, r: Client)
    requires Inv(c)
    requires DistinctKeys(r.headers)
    requires Keys(c.headers) <= Keys(r.headers)
    ensures |r.headers| >= 2 && r.headers[0].0 == ApiKeyHeader && r.headers[1].0 == ContentTypeHeader
  {
    assert |Keys(r.headers)| >= |Keys(c.headers)|;
    assert Keys(r.headers)[0] == Keys(c.headers)[0] == c.headers[0].0;
    assert Keys(r.headers)[1] == Keys(c.headers)[1] == c.headers[1].0;
  }

  lemma StoredParametersNotBoolean(c: Client, name: string, value: Value)
    requires forall i :: 0 <= i < |c.parameters| ==> !c.parameters[i].1.Bool?
    ensures var r := AddParameter(c, name, value);
      forall i :: 0 <= i < |r.parameters| ==> !r.parameters[i].1.Bool?
  {
    var stored := if value.Bool? then Str(BoolText(value.b)) else value;
    var r := AddParameter(c, name, value);
    assert r.parameters == Put(c.parameters, name, stored);
    forall i | 0 <= i < |r.parameters|
      ensures !r.parameters[i].1.Bool?
    {
      assert r.parameters[i] in r.parameters;
      if r.parameters[i] in c.parameters {
        var j :| 0 <= j < |c.parameters| && c.parameters[j] == r.parameters[i];
      }
    }
  }

  /** Every call keeps the invariant, and fragments are only ever appended,
      so an ordinal once given is never reused or renumbered. */
  lemma ApplyPreservesInv(c: Client, op: Op)
    requires Inv(c)
    ensures Inv(Apply(c, op))
    ensures c.queries <= Apply(c, op).queries
  {
    var r := Apply(c, op);
    match op
    case SetHeader(n, t) =>
      PutKeepsKeysDistinct(c.headers, n, t);
      HeadersStayFirst(c, r);
    case SetParameter(n, v) =>
      PutKeepsKeysDistinct(c.parameters, n, if v.Bool? then Str(BoolText(v.b)) else v);
      StoredParametersNotBoolean(c, n, v);
    case SetFilter(n, a, a2, o) =>
      var base: Value := match a
        case Moment(d) => Str(if a2.Some? then DateRange(d, a2.value) else Dates.FilterFormat(d))
        case Plain(v) => v;
      var prefixed := if Truthy(o) then Str(o.value + ToStr(base)) else base;
      assert r == AddParameter(c, FilterKey(n), prefixed);
      PutKeepsKeysDistinct(c.parameters, FilterKey(n), if prefixed.Bool? then Str(BoolText(prefixed.b)) else prefixed);
      StoredParametersNotBoolean(c, FilterKey(n), prefixed);
    case AppendQuery(f, a, fs, al) =>
    case SetJsonParam(n, v) =>
      PutKeepsKeysDistinct(c.json, n, v);
    case SetEndpoint(p, m) =>
    case BeginQuery =>
    case Finalize =>
      if |c.queries| > 0 {
        PutKeepsKeysDistinct(c.json, QueryField, Str(QueryBody(c.queries)));
      }
  }

  /** Any sequence of calls on a constructed builder keeps the invariant and
      only appends fragments. */
  lemma {:induction false} PerformPreservesInv(c: Client, ops: seq<Op>)
    requires Inv(c)
    ensures Inv(Perform(c, ops))
    ensures c.queries <= Perform(c, ops).queries
    decreases |ops|
  {
    if |ops| > 0 {
      ApplyPreservesInv(c, ops[0]);
      PerformPreservesInv(Apply(c, ops[0]), ops[1..]);
    }
  }
}
