/** Assembly and dispatch of one HTTP call to the Donation Alerts API. */
module ApiCall {
  import opened Wrappers
  import opened Values
  import opened CallOptions
  import opened ApiUrl
  import opened Transform

  datatype Header = Header(name: string, value: string)

  /** The request body: `null` (current generation) or `undefined` (legacy
      generation) when the call has none, otherwise the serialised JSON or
      form-encoded object (serialisation itself is not modelled). */
  datatype RequestBody = NullBody | UndefinedBody | JsonText(json: Value) | FormText(form: Value)

  datatype Request = Request(url: string, httpMethod: HttpMethod, headers: seq<Header>, body: RequestBody)

  /** The two shipped versions of the call helper differ only in how a
      missing body is passed to fetch. */
  datatype Generation = Current | Legacy

  const JsonType := "application/json"
  const FormType := "application/x-www-form-urlencoded"

  /** The values of every header called `name`, in order. */
  function HeaderValues(headers: seq<Header>, name: string): seq<string>
  {
    if headers == [] then []
    else (if headers[0].name == name then [headers[0].value] else []) + HeaderValues(headers[1..], name)
  }

  lemma {:induction false} HeaderValuesAppend(a: seq<Header>, b: seq<Header>, name: string)
    ensures HeaderValues(a + b, name) == HeaderValues(a, name) + HeaderValues(b, name)
  {
    if a == [] {
      assert a + b == b;
    } else {
      assert (a + b)[0] == a[0];
      assert (a + b)[1..] == a[1..] + b;
      HeaderValuesAppend(a[1..], b, name);
    }
  }

  /** One header called `name` when a value is given, else none. */
  function Named(name: string, value: Option<string>): seq<Header>
  {
    if value.Some? then [Header(name, value.value)] else []
  }

  function OptList(value: Option<string>): seq<string>
  {
    if value.Some? then [value.value] else []
  }

  /** Named contributes its value under its own name and nothing under any
      other. */
  lemma NamedValues(name: string, value: Option<string>, other: string)
    ensures HeaderValues(Named(name, value), name) == OptList(value)
    ensures other != name ==> HeaderValues(Named(name, value), other) == []
  {
    if value.Some? {
      assert Named(name, value)[1..] == [];
    }
  }

  /** The headers sent: Accept, then the Content-Type if any, then the
      Authorization if any; each name carries exactly its own value. */
  lemma HeadersValues(contentType: Option<string>, bearer: Option<string>)
    ensures var hs := [Header("Accept", JsonType)] + Named("Content-Type", contentType) + Named("Authorization", bearer);
      && HeaderValues(hs, "Accept") == [JsonType]
      && HeaderValues(hs, "Content-Type") == OptList(contentType)
      && HeaderValues(hs, "Authorization") == OptList(bearer)
      && |hs| == 1 + |OptList(contentType)| + |OptList(bearer)|
  {
    var accept := Named("Accept", Some(JsonType));
    var ct, au := Named("Content-Type", contentType), Named("Authorization", bearer);
    NamedValues("Accept", Some(JsonType), "Content-Type");
    NamedValues("Accept", Some(JsonType), "Authorization");
    NamedValues("Content-Type", contentType, "Accept");
    NamedValues("Content-Type", contentType, "Authorization");
    NamedValues("Authorization", bearer, "Accept");
    NamedValues("Authorization", bearer, "Content-Type");
    HeaderValuesAppend(accept + ct, au, "Accept");
    HeaderValuesAppend(accept + ct, au, "Content-Type");
    HeaderValuesAppend(accept + ct, au, "Authorization");
    HeaderValuesAppend(accept, ct, "Accept");
    HeaderValuesAppend(accept, ct, "Content-Type");
    HeaderValuesAppend(accept, ct, "Authorization");
  }

  /** A token is sent only when it is a non-empty string. */
  predicate Sends(accessToken: Option<string>)
  {
    accessToken.Some? && accessToken.value != ""
  }

  /** What callDonationAlertsApiRaw sends for the given options and token:
      the resolved url followed by the query string, the method (GET by
      default), exactly one Accept header, a Content-Type matching the body
      (JSON taking precedence over a form), and a bearer Authorization
      header exactly when a token is given; nothing else. */
  predicate Describes(req: Request, options: ApiCallOptions, accessToken: Option<string>, gen: Generation)
  {
    && req.url == GetApiUrl(options.url, options.callType.GetOr(Api)) + QueryString(options.query)
    && req.httpMethod == options.httpMethod.GetOr(GET)
    && |req.headers| > 0 && req.headers[0] == Header("Accept", JsonType)
    && HeaderValues(req.headers, "Accept") == [JsonType]
    && HeaderValues(req.headers, "Content-Type") ==
         (if options.jsonBody.Some? then [JsonType] else if options.formBody.Some? then [FormType] else [])
    && HeaderValues(req.headers, "Authorization") ==
         (if Sends(accessToken) then ["Bearer " + accessToken.value] else [])
    && |req.headers| == 1 + |HeaderValues(req.headers, "Content-Type")| + |HeaderValues(req.headers, "Authorization")|
    && req.body == (
         if options.jsonBody.Some? then JsonText(options.jsonBody.value)
         else if options.formBody.Some? then FormText(options.formBody.value)
         else if gen == Current then NullBody else UndefinedBody)
  }

  /** callDonationAlertsApiRaw up to the fetch: the body and its
      Content-Type are chosen per branch, the bearer header added when a
      token is given. */
  method BuildRequest(options: ApiCallOptions, accessToken: Option<string>, gen: Generation) returns (req: Request)
    ensures Describes(req, options, accessToken, gen)
  {
    var callType := options.callType.GetOr(Api);
    var url := GetApiUrl(options.url, callType);
    var params := QueryString(options.query);
    var contentType: Option<string> := None;
    var body := if gen == Current then NullBody else UndefinedBody;
    if options.jsonBody.Some? {
      body := JsonText(options.jsonBody.value);
      contentType := Some(JsonType);
    } else if options.formBody.Some? {
      body := FormText(options.formBody.value);
      contentType := Some(FormType);
    }
    var bearer: Option<string> := None;
    if Sends(accessToken) {
      bearer := Some("Bearer " + accessToken.value);
    }
    var headers := [Header("Accept", JsonType)] + Named("Content-Type", contentType) + Named("Authorization", bearer);
    HeadersValues(contentType, bearer);
    req := Request(url + params, options.httpMethod.GetOr(GET), headers, body);
  }

  /** callDonationAlertsApi: send the request built from the options, then
      raise an HttpError for a non-2xx response or decode the body. The
      network is the `fetch` parameter. */
  method CallDonationAlertsApi(options: ApiCallOptions, accessToken: Option<string>, gen: Generation,
                               fetch: Request -> Response)
    returns (r: Result<Decoded, ApiCallError>, sent: Request)
    ensures Describes(sent, options, accessToken, gen)
    ensures r == CheckAndDecode(fetch(sent), options)
    ensures r.Ok? ==> fetch(sent).Ok()
  {
    sent := BuildRequest(options, accessToken, gen);
    var response := fetch(sent);
    r := CheckAndDecode(response, options);
  }

  /** A query given to the call ends up after the resolved url. */
  lemma QueryAppendedToUrl()
    ensures GetApiUrl("test-endpoint", Api) + QueryString(Some([QueryParam("foo", QText("bar"))]))
      == ApiBase + "test-endpoint" + "?foo=bar"
  {
    TextQueryString("foo", "bar");
    assert "?" + "foo" + "=" + "bar" == "?foo=bar";
  }
}
