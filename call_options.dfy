/** The options describing one call to the Donation Alerts API, and the
    query-string encoding applied to them. */
module CallOptions {
  import opened Wrappers
  import opened Values
  import opened Decimal
  import opened Text

  datatype CallType = Api | Auth | Custom

  datatype HttpMethod = GET | POST | PUT | PATCH | DELETE

  function MethodName(m: HttpMethod): string
  {
    match m
    case GET => "GET"
    case POST => "POST"
    case PUT => "PUT"
    case PATCH => "PATCH"
    case DELETE => "DELETE"
  }

  /** A query parameter value: the types a query record may hold. */
  datatype QueryValue =
    | QUndefined
    | QNull
    | QText(text: string)
    | QNumber(n: int)
    | QTexts(texts: seq<string>)
    | QNumbers(numbers: seq<int>)

  datatype QueryParam = QueryParam(key: string, value: QueryValue)

  /** An absent `jsonBody` / `formBody` is `None`; a present one is an
      object and therefore truthy. */
  datatype ApiCallOptions = ApiCallOptions(
    url: string,
    callType: Option<CallType>,
    httpMethod: Option<HttpMethod>,
    query: Option<seq<QueryParam>>,
    jsonBody: Option<Value>,
    formBody: Option<Value>,
    scope: Option<string>,
    auth: Option<bool>)

  /** Options with only a url set. */
  function UrlOnly(url: string): (o: ApiCallOptions)
    ensures o.url == url && o.callType.None? && o.httpMethod.None? && o.query.None?
  {
    ApiCallOptions(url, None, None, None, None, None, None, None)
  }

  /** The `key=value` pairs one parameter contributes with the 'repeat'
      array format: an undefined value contributes nothing, null an empty
      value, an array one pair per element. */
  function ParamPairs(p: QueryParam): (r: seq<string>)
    ensures p.value.QUndefined? ==> r == []
    ensures p.value.QText? || p.value.QNumber? || p.value.QNull? ==> |r| == 1
    ensures p.value.QTexts? ==> |r| == |p.value.texts|
    ensures p.value.QNumbers? ==> |r| == |p.value.numbers|
  {
    match p.value
    case QUndefined => []
    case QNull => [p.key + "="]
    case QText(t) => [p.key + "=" + t]
    case QNumber(n) => [p.key + "=" + IntToDecimal(n)]
    case QTexts(ts) => seq(|ts|, i requires 0 <= i < |ts| => p.key + "=" + ts[i])
    case QNumbers(ns) => seq(|ns|, i requires 0 <= i < |ns| => p.key + "=" + IntToDecimal(ns[i]))
  }

  function QueryPairs(q: seq<QueryParam>): seq<string>
  {
    if q == [] then [] else ParamPairs(q[0]) + QueryPairs(q[1..])
  }

  /** The query string with a '?' prefix, or "" when no pair is produced. */
  function QueryString(query: Option<seq<QueryParam>>): (s: string)
    ensures query.None? ==> s == ""
    ensures s == "" || s[0] == '?'
  {
    match query
    case None => ""
    case Some(q) =>
      var pairs := QueryPairs(q);
      if pairs == [] then "" else "?" + Join(pairs, "&")
  }

  /** A page query, as the paginated endpoints send it. */
  lemma PageQueryString(page: int)
    ensures QueryString(Some([QueryParam("page", QNumber(page))])) == "?page=" + IntToDecimal(page)
  {
    assert QueryPairs([QueryParam("page", QNumber(page))]) == ["page=" + IntToDecimal(page)] by {
      var q := [QueryParam("page", QNumber(page))];
      assert q[1..] == [] && QueryPairs(q[1..]) == [];
      assert "page" + "=" == "page=";
      assert ParamPairs(q[0]) == ["page=" + IntToDecimal(page)];
    }
  }

  /** A single text parameter encodes as '?key=value'. */
  lemma TextQueryString(key: string, value: string)
    ensures QueryString(Some([QueryParam(key, QText(value))])) == "?" + key + "=" + value
  {
    var q := [QueryParam(key, QText(value))];
    assert q[1..] == [] && QueryPairs(q[1..]) == [];
    assert QueryPairs(q) == [key + "=" + value];
  }

  /** Parameters whose value is undefined leave the query string unchanged,
      wherever they stand. */
  lemma {:induction false} UndefinedParamsSkipped(before: seq<QueryParam>, key: string, after: seq<QueryParam>)
    ensures QueryPairs(before + [QueryParam(key, QUndefined)] + after) == QueryPairs(before + after)
  {
    if before == [] {
      assert before + [QueryParam(key, QUndefined)] + after == [QueryParam(key, QUndefined)] + after;
      assert ([QueryParam(key, QUndefined)] + after)[1..] == after;
      assert before + after == after;
    } else {
      assert (before + [QueryParam(key, QUndefined)] + after)[1..] == before[1..] + [QueryParam(key, QUndefined)] + after;
      assert (before + after)[1..] == before[1..] + after;
      UndefinedParamsSkipped(before[1..], key, after);
    }
  }
}
