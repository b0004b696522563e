/** Resolution of a call's url against the Donation Alerts endpoints. */
module ApiUrl {
  import opened CallOptions
  import opened Text

  const ApiBase := "https://www.donationalerts.com/api/v1/"
  const OAuthBase := "https://www.donationalerts.com/oauth/"

  /** Removes one leading '/', if there is one. */
  function StripLeadingSlash(url: string): (r: string)
    ensures |url| > 0 && url[0] == '/' ==> url == "/" + r
    ensures !(|url| > 0 && url[0] == '/') ==> r == url
  {
    if |url| > 0 && url[0] == '/' then url[1..] else url
  }

  /** getDonationAlertsApiUrl: 'api' and 'auth' calls are relative to their
      base; a 'custom' url is used as given. */
  function GetApiUrl(url: string, callType: CallType): (r: string)
    ensures callType == Api ==> IsPrefix(ApiBase, r)
    ensures callType == Auth ==> IsPrefix(OAuthBase, r)
    ensures callType == Custom ==> r == url
  {
    match callType
    case Api => ApiBase + StripLeadingSlash(url)
    case Auth => OAuthBase + StripLeadingSlash(url)
    case Custom => url
  }

  /** A leading slash makes no difference to a relative call. */
  lemma LeadingSlashIgnored(url: string, callType: CallType)
    requires callType != Custom
    requires url == "" || url[0] != '/'
    ensures GetApiUrl("/" + url, callType) == GetApiUrl(url, callType)
  {
    assert ("/" + url)[1..] == url;
  }

  /** Only one slash is removed: a doubled slash survives once. */
  lemma OnlyOneSlashStripped(url: string)
    requires url == "" || url[0] != '/'
    ensures GetApiUrl("//" + url, Api) == ApiBase + "/" + url
  {
    assert ("//" + url)[1..] == "/" + url;
  }

  /** Distinct relative paths give distinct urls: the base adds no
      ambiguity. */
  lemma RelativeUrlsInjective(a: string, b: string, callType: CallType)
    requires callType != Custom
    requires GetApiUrl(a, callType) == GetApiUrl(b, callType)
    ensures StripLeadingSlash(a) == StripLeadingSlash(b)
  {
    var base := if callType == Api then ApiBase else OAuthBase;
    assert GetApiUrl(a, callType) == base + StripLeadingSlash(a);
    assert GetApiUrl(b, callType) == base + StripLeadingSlash(b);
    assert StripLeadingSlash(a) == GetApiUrl(a, callType)[|base|..];
    assert StripLeadingSlash(b) == GetApiUrl(b, callType)[|base|..];
  }

  /** An API url is never an OAuth url, whatever the paths. */
  lemma ApiAndOAuthUrlsDiffer(a: string, b: string)
    ensures GetApiUrl(a, Api) != GetApiUrl(b, Auth)
  {
    assert GetApiUrl(a, Api)[31] == 'a';
    assert GetApiUrl(b, Auth)[31] == 'o';
  }
}
