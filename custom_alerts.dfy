/** The custom-alert API: the form body of sendCustomAlert. */
module CustomAlerts {
  import opened Wrappers
  import opened Values
  import opened CallOptions

  const CustomAlertUrl := "custom_alert"
  const CustomAlertScope := "oauth-custom_alert-store"

  /** Every field of a custom alert is optional. */
  datatype CustomAlertData = CustomAlertData(
    externalId: Option<string>,
    header: Option<string>,
    message: Option<string>,
    shouldShow: Option<bool>,
    imageUrl: Option<string>,
    soundUrl: Option<string>)

  function Text(o: Option<string>): Value
  {
    if o.Some? then Str(o.value) else Undefined
  }

  /** `is_shown` tells the server whether the alert counts as already
      shown: '0' (show it) unless showing is explicitly declined. */
  function IsShown(shouldShow: Option<bool>): (v: string)
    ensures v == "1" <==> shouldShow == Some(false)
    ensures v == "0" <==> shouldShow != Some(false)
  {
    if shouldShow.GetOr(true) then "0" else "1"
  }

  function CustomAlertForm(d: CustomAlertData): seq<Field>
  {
    [Field("external_id", Text(d.externalId)), Field("header", Text(d.header)), Field("message", Text(d.message)),
     Field("is_shown", Str(IsShown(d.shouldShow))), Field("image_url", Text(d.imageUrl)), Field("sound_url", Text(d.soundUrl))]
  }

  /** sendCustomAlert: POST 'custom_alert' with its scope and auth and the
      form as its body (what the form holds is FormFacts and
      NoCamelCaseKeys). */
  function SendCustomAlert(d: CustomAlertData): (o: ApiCallOptions)
    ensures o.url == CustomAlertUrl && o.callType == Some(Api) && o.httpMethod == Some(POST)
    ensures o.scope == Some(CustomAlertScope) && o.auth == Some(true) && o.jsonBody.None? && o.query.None?
    ensures o.formBody == Some(Obj(CustomAlertForm(d)))
  {
    ApiCallOptions(CustomAlertUrl, Some(Api), Some(POST), None, None, Some(Obj(CustomAlertForm(d))), Some(CustomAlertScope), Some(true))
  }

  /** No key of the form repeats, so each reads back its own field. */
  lemma FieldReadsBack(d: CustomAlertData, i: nat)
    requires i < |CustomAlertForm(d)|
    ensures Lookup(CustomAlertForm(d), CustomAlertForm(d)[i].key) == CustomAlertForm(d)[i].value
  {
    LookupLastOccurrence(CustomAlertForm(d), i);
  }

  /** Every field of the data reads back under its wire name. */
  lemma FormFacts(d: CustomAlertData)
    ensures Lookup(CustomAlertForm(d), "external_id") == Text(d.externalId)
    ensures Lookup(CustomAlertForm(d), "header") == Text(d.header)
    ensures Lookup(CustomAlertForm(d), "message") == Text(d.message)
    ensures Lookup(CustomAlertForm(d), "is_shown") == Str(IsShown(d.shouldShow))
    ensures Lookup(CustomAlertForm(d), "image_url") == Text(d.imageUrl)
    ensures Lookup(CustomAlertForm(d), "sound_url") == Text(d.soundUrl)
  {
    FieldReadsBack(d, 0);
    FieldReadsBack(d, 1);
    FieldReadsBack(d, 2);
    FieldReadsBack(d, 3);
    FieldReadsBack(d, 4);
    FieldReadsBack(d, 5);
  }

  /** The data's own (camelCase) names of the renamed fields. */
  const DataNames := ["externalId", "imageUrl", "soundUrl", "shouldShow"]

  /** None of the camelCase names of the data is sent. */
  lemma NoCamelCaseKeys(d: CustomAlertData, n: nat)
    requires n < |DataNames|
    ensures DataNames[n] !in Keys(CustomAlertForm(d))
  {
    KeyApart(CustomAlertForm(d), DataNames[n]);
  }

  /** An alert sent with no data is shown, as is one sent with
      shouldShow true. */
  lemma DefaultAlertIsShown()
    ensures Lookup(CustomAlertForm(CustomAlertData(None, None, None, None, None, None)), "is_shown") == Str("0")
    ensures IsShown(Some(true)) == IsShown(None)
  {
    assert SendCustomAlert(CustomAlertData(None, None, None, None, None, None)).url == CustomAlertUrl;
  }
}
