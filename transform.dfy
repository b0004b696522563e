/** Handling of a fetched response: error detection and JSON decoding. */
module Transform {
  import opened Wrappers
  import opened CallOptions
  import opened HttpErrors

  /** A response as far as the SDK reads it. `json` is the text re-printed
      with two-space indentation when the text parses as JSON, `None` when
      it does not (JSON itself is not modelled). */
  datatype Response = Response(
    status: int,
    statusText: string,
    contentType: Option<string>,
    text: string,
    json: Option<string>)
  {
    predicate Ok() { 200 <= status <= 299 }
  }

  datatype ApiCallError = Http(error: HttpError) | JsonSyntax(text: string)

  /** A decoded body: `undefined`, or the value parsed from the given text. */
  datatype Decoded = NoContent | Parsed(source: string)

  /** handleDonationAlertsApiResponseError: a 2xx response passes; any other
      raises an HttpError naming the relative url with its query, the
      method (GET by default) and the body, pretty-printed when the
      Content-Type is exactly application/json. */
  function HandleResponseError(response: Response, options: ApiCallOptions): (r: Outcome<ApiCallError>)
    ensures response.Ok() <==> r.Pass?
    ensures r.Fail? && r.error.Http? ==>
      var e := r.error.error;
      e.status == response.status && e.statusText == response.statusText &&
      e.url == options.url + QueryString(options.query) &&
      e.httpMethod == MethodName(options.httpMethod.GetOr(GET)) &&
      e.body == (if response.contentType == Some("application/json") then response.json.GetOr("") else response.text)
    ensures r.Fail? && r.error.JsonSyntax? ==>
      response.contentType == Some("application/json") && response.json.None?
  {
    if response.Ok() then Pass
    else
      var isJson := response.contentType == Some("application/json");
      if isJson && response.json.None? then Fail(JsonSyntax(response.text))
      else
        var text := if isJson then response.json.value else response.text;
        var fullUrl := options.url + QueryString(options.query);
        Fail(Http(NewHttpError(response.status, response.statusText, fullUrl,
          MethodName(options.httpMethod.GetOr(GET)), text, isJson)))
  }

  /** transformDonationAlertsResponse: 204 and an empty body decode to
      `undefined`; any other body is parsed as JSON. */
  function TransformResponse(response: Response): (r: Result<Decoded, ApiCallError>)
    ensures r == Ok(NoContent) <==> response.status == 204 || response.text == ""
    ensures r.Ok? && r.value.Parsed? ==> r.value.source == response.text && response.json.Some?
    ensures r.Err? <==> response.status != 204 && response.text != "" && response.json.None?
  {
    if response.status == 204 then Ok(NoContent)
    else if response.text == "" then Ok(NoContent)
    else if response.json.None? then Err(JsonSyntax(response.text))
    else Ok(Parsed(response.text))
  }

  /** callDonationAlertsApi after the fetch: the error check, then decoding. */
  function CheckAndDecode(response: Response, options: ApiCallOptions): (r: Result<Decoded, ApiCallError>)
    ensures r.Err? && !response.Ok() ==> Fail(r.error) == HandleResponseError(response, options)
    ensures response.Ok() ==> r == TransformResponse(response)
    ensures !response.Ok() ==> r.Err?
  {
    match HandleResponseError(response, options)
    case Fail(e) => Err(e)
    case Pass => TransformResponse(response)
  }
}
