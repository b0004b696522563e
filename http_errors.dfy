/** The error raised for a response outside the 2xx range. */
module HttpErrors {
  import opened Decimal

  const MaxShownBody := 150
  const ShownPrefix := 147

  /** The body as shown in the message: a non-JSON body longer than 150
      characters is cut to its first 147 followed by "...". */
  function ShownBody(body: string, isJson: bool): (shown: string)
    ensures !isJson ==> |shown| <= MaxShownBody
    ensures isJson || |body| <= MaxShownBody ==> shown == body
    ensures !isJson && |body| > MaxShownBody ==>
      |shown| == MaxShownBody && shown[..ShownPrefix] == body[..ShownPrefix] && shown[ShownPrefix..] == "..."
  {
    if !isJson && |body| > MaxShownBody then body[..ShownPrefix] + "..." else body
  }

  function HttpErrorMessage(status: int, statusText: string, url: string, httpMethod: string, body: string, isJson: bool): string
  {
    "Encountered HTTP status code " + IntToDecimal(status) + ": " + statusText
      + "\n\nURL: " + url + "\nMethod: " + httpMethod + "\nBody:\n" + ShownBody(body, isJson)
  }

  /** The getters return the constructor arguments unchanged; only the
      message shortens the body. */
  datatype HttpError = HttpError(
    status: int,
    statusText: string,
    url: string,
    httpMethod: string,
    body: string,
    message: string)

  function NewHttpError(status: int, statusText: string, url: string, httpMethod: string, body: string, isJson: bool): (e: HttpError)
    ensures e.status == status && e.statusText == statusText && e.url == url
    ensures e.httpMethod == httpMethod && e.body == body
    ensures e.message == HttpErrorMessage(status, statusText, url, httpMethod, body, isJson)
  {
    HttpError(status, statusText, url, httpMethod, body, HttpErrorMessage(status, statusText, url, httpMethod, body, isJson))
  }

  /** The message opens with the status code and status text, ends with
      the shown body, and never holds more than 150 characters of a
      non-JSON body. */
  lemma MessageEndsWithShownBody(status: int, statusText: string, url: string, httpMethod: string, body: string, isJson: bool)
    ensures var m := HttpErrorMessage(status, statusText, url, httpMethod, body, isJson);
      var head := "Encountered HTTP status code " + IntToDecimal(status) + ": " + statusText;
      var shown := ShownBody(body, isJson);
      |head| + |shown| <= |m| && m[..|head|] == head &&
      m[|m| - |shown|..] == shown && (!isJson ==> |shown| <= MaxShownBody)
  {
  }
}
