/** Token-endpoint requests and the scope comparison shared by the auth
    providers. */
module AuthHelpers {
  import opened Wrappers
  import opened Text
  import opened Values
  import opened CallOptions
  import opened ApiUrl
  import opened AccessTokens
  import opened AuthErrors
  import Transform

  /** The scopes of `requested` that `granted` lacks, in request order. */
  function MissingScopes(granted: seq<string>, requested: seq<string>): seq<string>
  {
    if requested == [] then []
    else (if requested[0] in granted then [] else [requested[0]]) + MissingScopes(granted, requested[1..])
  }

  lemma {:induction false} MissingScopesMembership(granted: seq<string>, requested: seq<string>, s: string)
    ensures s in MissingScopes(granted, requested) <==> s in requested && s !in granted
  {
    if requested != [] {
      MissingScopesMembership(granted, requested[1..], s);
      assert requested == [requested[0]] + requested[1..];
    }
  }

  lemma {:induction false} MissingScopesEmpty(granted: seq<string>, requested: seq<string>)
    ensures MissingScopes(granted, requested) == [] <==> forall i :: 0 <= i < |requested| ==> requested[i] in granted
  {
    if requested != [] {
      MissingScopesEmpty(granted, requested[1..]);
      assert forall i :: 1 <= i < |requested| ==> requested[i] == requested[1..][i - 1];
    }
  }

  const MissingScopePrefix := "The token does not have the requested scopes: "

  function MissingScopeMessage(requested: seq<string>): string
  {
    MissingScopePrefix + Join(requested, ", ")
  }

  /** compareScopes: with requested scopes, every one of them must be among
      the granted ones, otherwise MissingScopeError carrying the scopes that
      are missing; without requested scopes nothing is checked. */
  function CompareScopes(granted: seq<string>, requested: Option<seq<string>>, userId: Option<int>): (r: Outcome<AuthError>)
    ensures requested.None? ==> r.Pass?
    ensures requested.Some? ==>
      (r.Pass? <==> forall i :: 0 <= i < |requested.value| ==> requested.value[i] in granted)
    ensures r.Fail? ==>
      r.error.MissingScope? && r.error.userId == userId &&
      r.error.message == MissingScopeMessage(requested.value) &&
      r.error.scopes != [] &&
      forall s :: s in r.error.scopes <==> s in requested.value && s !in granted
  {
    match requested
    case None => Pass
    case Some(req) =>
      var missing := MissingScopes(granted, req);
      MissingScopesEmpty(granted, req);
      if missing == [] then Pass
      else
        assert forall s :: s in missing <==> s in req && s !in granted by {
          forall s ensures s in missing <==> s in req && s !in granted {
            MissingScopesMembership(granted, req, s);
          }
        }
        Fail(MissingScope(userId, missing, MissingScopeMessage(req)))
  }

  /** The verdict depends only on which scopes occur, not on their order or
      repetition. */
  lemma ScopeVerdictIsSetBased(g1: seq<string>, g2: seq<string>, r1: seq<string>, r2: seq<string>, userId: Option<int>)
    requires forall s :: s in g1 <==> s in g2
    requires forall s :: s in r1 <==> s in r2
    ensures CompareScopes(g1, Some(r1), userId).Pass? == CompareScopes(g2, Some(r2), userId).Pass?
  {
    if CompareScopes(g1, Some(r1), userId).Pass? {
      PassCarriesOver(g1, g2, r1, r2, userId);
    }
    if CompareScopes(g2, Some(r2), userId).Pass? {
      PassCarriesOver(g2, g1, r2, r1, userId);
    }
  }

  lemma PassCarriesOver(g1: seq<string>, g2: seq<string>, r1: seq<string>, r2: seq<string>, userId: Option<int>)
    requires forall s :: s in g1 <==> s in g2
    requires forall s :: s in r1 <==> s in r2
    requires CompareScopes(g1, Some(r1), userId).Pass?
    ensures CompareScopes(g2, Some(r2), userId).Pass?
  {
    forall i | 0 <= i < |r2| ensures r2[i] in g2 {
      assert r2[i] in r1;
      var k :| 0 <= k < |r1| && r1[k] == r2[i];
    }
  }

  /** What the token endpoint answers. */
  datatype AccessTokenData = AccessTokenData(accessToken: string, refreshToken: string, expiresIn: int)

  /** createAccessTokenFromData, with `Date.now()` as the parameter `now`:
      the endpoint's fields, obtained now, with no scopes. */
  function CreateAccessTokenFromData(data: AccessTokenData, now: int): (t: AccessToken)
    ensures t.accessToken == data.accessToken && t.refreshToken == data.refreshToken
    ensures t.expiresIn == data.expiresIn && t.obtainmentTimestamp == now
    ensures t.scopes.None?
    ensures data.expiresIn > 0 ==> !IsExpired(t, now)
  {
    AccessToken(data.accessToken, data.refreshToken, data.expiresIn, now, None)
  }

  /** exchangeCode's form: the grant, the client credentials, the
      redirect uri and the code. */
  function ExchangeCodeForm(clientId: string, clientSecret: string, redirectUri: string, code: string): seq<Field>
  {
    [Field("grant_type", Str("authorization_code")), Field("client_id", Str(clientId)),
     Field("client_secret", Str(clientSecret)), Field("redirect_uri", Str(redirectUri)), Field("code", Str(code))]
  }

  /** exchangeCode: the authorization-code grant, sent unauthenticated to
      the OAuth token endpoint. */
  function ExchangeCodeRequest(clientId: string, clientSecret: string, redirectUri: string, code: string): ApiCallOptions
  {
    ApiCallOptions("token", Some(Auth), Some(GET), None, None,
      Some(Obj(ExchangeCodeForm(clientId, clientSecret, redirectUri, code))), None, Some(false))
  }

  /** refreshAccessToken's form: the grant, the refresh token, the client
      credentials and the scope list, which defaults to empty. */
  function RefreshForm(clientId: string, clientSecret: string, refreshToken: string, scopes: Option<seq<string>>): seq<Field>
  {
    var scopeList := scopes.GetOr([]);
    [Field("grant_type", Str("refresh_token")), Field("refresh_token", Str(refreshToken)),
     Field("client_id", Str(clientId)), Field("client_secret", Str(clientSecret)),
     Field("scope", Arr(seq(|scopeList|, i requires 0 <= i < |scopeList| => Str(scopeList[i]))))]
  }

  /** refreshAccessToken: the refresh-token grant, sent unauthenticated to
      the OAuth token endpoint. */
  function RefreshRequest(clientId: string, clientSecret: string, refreshToken: string, scopes: Option<seq<string>>): ApiCallOptions
  {
    ApiCallOptions("token", Some(Auth), Some(POST), None, None,
      Some(Obj(RefreshForm(clientId, clientSecret, refreshToken, scopes))), None, Some(false))
  }

  /** No key of the code-exchange form repeats. */
  lemma ExchangeFieldReadsBack(clientId: string, clientSecret: string, redirectUri: string, code: string, i: nat)
    requires i < |ExchangeCodeForm(clientId, clientSecret, redirectUri, code)|
    ensures var form := ExchangeCodeForm(clientId, clientSecret, redirectUri, code);
      Lookup(form, form[i].key) == form[i].value
  {
    LookupLastOccurrence(ExchangeCodeForm(clientId, clientSecret, redirectUri, code), i);
  }

  /** No key of the refresh form repeats. */
  lemma RefreshFieldReadsBack(clientId: string, clientSecret: string, refreshToken: string, scopes: Option<seq<string>>, i: nat)
    requires i < |RefreshForm(clientId, clientSecret, refreshToken, scopes)|
    ensures var form := RefreshForm(clientId, clientSecret, refreshToken, scopes);
      Lookup(form, form[i].key) == form[i].value
  {
    LookupLastOccurrence(RefreshForm(clientId, clientSecret, refreshToken, scopes), i);
  }

  /** The OAuth token endpoint. */
  const TokenEndpoint := OAuthBase + "token"

  /** The code exchange goes to the OAuth token endpoint as an
      unauthenticated GET carrying a form with the grant type, the client
      secret and the code. */
  lemma ExchangeCodeReachesTokenEndpoint(clientId: string, clientSecret: string, redirectUri: string, code: string)
    ensures var x := ExchangeCodeRequest(clientId, clientSecret, redirectUri, code);
      GetApiUrl(x.url, x.callType.value) == TokenEndpoint && x.auth == Some(false) && x.httpMethod == Some(GET) &&
      x.formBody.Some? && x.jsonBody.None? &&
      Lookup(x.formBody.value.fields, "grant_type") == Str("authorization_code") &&
      Lookup(x.formBody.value.fields, "code") == Str(code) &&
      Lookup(x.formBody.value.fields, "client_secret") == Str(clientSecret)
  {
    ExchangeFieldReadsBack(clientId, clientSecret, redirectUri, code, 0);
    ExchangeFieldReadsBack(clientId, clientSecret, redirectUri, code, 2);
    ExchangeFieldReadsBack(clientId, clientSecret, redirectUri, code, 4);
  }

  /** The refresh grant goes to the OAuth token endpoint as an
      unauthenticated form POST with the grant type, the refresh token, the
      client id and, when no scopes are given, an empty scope list. */
  lemma RefreshReachesTokenEndpoint(clientId: string, clientSecret: string, refreshToken: string, scopes: Option<seq<string>>)
    ensures var r := RefreshRequest(clientId, clientSecret, refreshToken, scopes);
      GetApiUrl(r.url, r.callType.value) == TokenEndpoint && r.auth == Some(false) && r.httpMethod == Some(POST) &&
      r.formBody.Some? && r.jsonBody.None? &&
      Lookup(r.formBody.value.fields, "grant_type") == Str("refresh_token") &&
      Lookup(r.formBody.value.fields, "refresh_token") == Str(refreshToken) &&
      Lookup(r.formBody.value.fields, "client_id") == Str(clientId) &&
      (scopes.None? ==> Lookup(r.formBody.value.fields, "scope") == Arr([]))
  {
    RefreshFieldReadsBack(clientId, clientSecret, refreshToken, scopes, 0);
    RefreshFieldReadsBack(clientId, clientSecret, refreshToken, scopes, 1);
    RefreshFieldReadsBack(clientId, clientSecret, refreshToken, scopes, 2);
    RefreshFieldReadsBack(clientId, clientSecret, refreshToken, scopes, 4);
  }

  /** The awaited result of a token-endpoint call: the decoded answer
      becomes a token obtained `now`; a failed call is passed on. */
  function TokenFromEndpoint(answer: Result<AccessTokenData, Transform.ApiCallError>, now: int): (r: Result<AccessToken, AuthError>)
    ensures answer.Ok? <==> r.Ok?
    ensures r.Ok? ==> r.value == CreateAccessTokenFromData(answer.value, now)
    ensures r.Err? ==> r.error == RequestFailed(answer.error)
  {
    match answer
    case Ok(data) => Ok(CreateAccessTokenFromData(data, now))
    case Err(e) => Err(RequestFailed(e))
  }
}
